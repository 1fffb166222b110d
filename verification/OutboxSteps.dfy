/** What every step of the outbox machine demands and writes, row by row, in the table's own figures. */
module OutboxSteps {
  import opened Domain
  import opened Outbox

  // ---------------------------------------------------------------- leases

  /** Sending, and leased at least five minutes ago. */
  predicate Expired(row: Row, now: int) {
    row.status == Sending && row.lease.Some? && row.lease.value.at <= now - 300_000
  }

  /** Every expired row becomes pending, free and due at once; no other row changes. */
  lemma ReclaimActs(s: System, stepBound: nat)
    ensures var s' := Next(s, Reclaim, stepBound);
      && s' == s.(rows := s'.rows) && |s'.rows| == |s.rows|
      && forall i | 0 <= i < |s.rows| ::
           s'.rows[i] == if Expired(s.rows[i], s.now) then
             s.rows[i].(status := Pending, lease := None, availableAt := s.now, reclaims := s.rows[i].reclaims + 1)
           else s.rows[i]
  {
  }

  /** At most fifty different rows, each pending and due. */
  predicate Claims(s: System, w: nat, ids: seq<nat>) {
    && w in s.workers && s.workers[w].active == [] && |ids| <= 50
    && (forall k | 0 <= k < |ids| ::
          ids[k] < |s.rows| && s.rows[ids[k]].status == Pending && s.rows[ids[k]].availableAt <= s.now)
    && (forall k, m | 0 <= k < m < |ids| :: ids[k] != ids[m])
  }

  /** The claimed rows are leased to the worker, and the others stay. */
  predicate LeasedTo(rows: seq<Row>, rows': seq<Row>, ids: seq<nat>, w: nat, now: int) {
    && |rows'| == |rows|
    && forall i: nat | i < |rows| ::
         rows'[i] == if i in ids then
           rows[i].(status := Sending, lease := Some(Lease(now, w)), claims := rows[i].claims + 1)
         else rows[i]
  }

  /** The worker remembers the claimed ids and their attempts, in order. */
  predicate RemembersEach(rows: seq<Row>, active: seq<Claimed>, ids: seq<nat>) {
    && |active| == |ids|
    && forall k | 0 <= k < |ids| :: ids[k] < |rows| && active[k] == Claimed(ids[k], rows[ids[k]].attempts)
  }

  lemma RowsAreLeased(rows: seq<Row>, ids: seq<nat>, w: nat, now: int)
    ensures LeasedTo(rows, RowsAfterClaim(rows, IdSet(ids), w, now), ids, w, now)
  {
  }

  lemma ClaimsMeans(s: System, w: nat, ids: seq<nat>)
    ensures Claims(s, w, ids) <==> w in s.workers && s.workers[w].active == [] && Claimable(s.rows, ids, s.now)
  {
  }

  lemma ClaimActs(s: System, w: nat, ids: seq<nat>, stepBound: nat)
    ensures var s' := Next(s, Claim(w, ids), stepBound);
      && (!Claims(s, w, ids) ==> s' == s)
      && (Claims(s, w, ids) ==>
            && LeasedTo(s.rows, s'.rows, ids, w, s.now)
            && w in s'.workers && RemembersEach(s.rows, s'.workers[w].active, ids)
            && s' == s.(rows := s'.rows,
                        workers := s.workers[w := Worker(s'.workers[w].active, 0, s.now + stepBound, false)]))
  {
    ClaimsMeans(s, w, ids);
    RowsAreLeased(s.rows, ids, w, s.now);
    hide RowsAfterClaim, LeasedTo, Claims;
  }

  predicate Holds(active: seq<Claimed>, i: nat) {
    exists c | c in active :: c.id == i
  }

  /** The rows of the batch that are still sending and still the worker's are leased anew, and the others stay. */
  predicate Renewed(rows: seq<Row>, rows': seq<Row>, active: seq<Claimed>, w: nat, now: int) {
    && |rows'| == |rows|
    && forall i: nat | i < |rows| ::
         rows'[i] == if Holds(active, i) && rows[i].status == Sending && rows[i].lease.Some?
                        && rows[i].lease.value.owner == w then
           rows[i].(lease := Some(Lease(now, w)))
         else rows[i]
  }

  lemma RowsAreRenewed(rows: seq<Row>, active: seq<Claimed>, w: nat, now: int)
    ensures Renewed(rows, RowsAfterRenewal(rows, Ids(active), w, now), active, w, now)
  {
  }

  predicate Checks(s: System, w: nat) {
    w in s.workers && s.workers[w].active != [] && !s.workers[w].busy
  }

  lemma OtherwiseNoRenewal(s: System, w: nat, stepBound: nat)
    requires !Checks(s, w)
    ensures Next(s, Renew(w), stepBound) == s
  {
  }

  /** A lease check renews exactly when half a minute has passed since the last renewal. */
  lemma RenewalActs(s: System, w: nat, stepBound: nat)
    requires Checks(s, w)
    ensures var s', worker := Next(s, Renew(w), stepBound), s.workers[w];
      var renews := s.now - worker.lastRenewal >= 30_000;
      && (renews ==> Renewed(s.rows, s'.rows, worker.active, w, s.now))
      && (!renews ==> s'.rows == s.rows)
      && s' == s.(rows := s'.rows,
                  workers := s.workers[w := Worker(worker.active, if renews then s.now else worker.lastRenewal,
                                                   s.now + stepBound, true)])
  {
    hide RowsAfterRenewal, Renewed, Ids, MayElapse;
    RowsAreRenewed(s.rows, s.workers[w].active, w, s.now);
  }

  // ---------------------------------------------------------------- finalizing

  /** The delay before the next attempt, after this many failures. */
  function Backoff(failures: nat): int
    requires 1 <= failures <= 4
  {
    if failures == 1 then 60_000 else if failures == 2 then 300_000 else if failures == 3 then 900_000 else 3_600_000
  }

  /** A delivery keeps the row's attempts; each failure adds one to those the worker read, and the fifth is final. */
  lemma FinishRowActs(row: Row, attempts: nat, outcome: Outcome, now: int)
    ensures FinishRow(row, attempts, outcome, now) == (
      if outcome == LeaveSending then row
      else if outcome == Deliver then row.(status := Delivered, lease := None, finals := row.finals + 1)
      else if outcome == FailForGood || attempts >= 4 then
        row.(status := Dead, attempts := attempts + 1, lease := None, finals := row.finals + 1)
      else
        row.(status := Pending, attempts := attempts + 1, lease := None, retries := row.retries + 1,
             availableAt := now + Backoff(attempts + 1)))
  {
  }

  /** A worker finalizes the first row of its batch, after a lease check, and goes on to the next. */
  lemma FinishActs(s: System, w: nat, outcome: Outcome, stepBound: nat)
    ensures var s' := Next(s, Finish(w, outcome), stepBound);
      var applies := w in s.workers && s.workers[w].active != [] && s.workers[w].busy
                     && s.workers[w].active[0].id < |s.rows|;
      && (!applies ==> s' == s)
      && (applies ==>
            var c := s.workers[w].active[0];
            s' == s.(rows := s.rows[c.id := FinishRow(s.rows[c.id], c.attempts, outcome, s.now)],
                     workers := s.workers[w := s.workers[w].(active := s.workers[w].active[1..], busy := false)]))
  {
  }

  // ---------------------------------------------------------------- the rest

  /** A required row has five attempts ahead, a best-effort row one. */
  lemma EnqueueActs(s: System, bestEffort: bool, stepBound: nat)
    ensures Next(s, Enqueue(bestEffort), stepBound) ==
            var start := if bestEffort then 4 else 0;
            s.(rows := s.rows + [Row(Pending, start, s.now, None, start, 0, 0, 0, 0)])
  {
  }

  /** Time passes exactly as far as no live worker with a batch misses its next lease check. */
  lemma ElapseActs(s: System, ms: nat, stepBound: nat)
    ensures Next(s, Elapse(ms), stepBound) ==
            if forall w | w in s.workers && s.workers[w].active != [] :: s.now + ms <= s.workers[w].due then
              s.(now := s.now + ms) else s
  {
  }

  /** A worker that aborts forgets its batch, one that crashes is gone; their rows stay leased. */
  lemma WorkersComeAndGo(s: System, w: nat, stepBound: nat)
    ensures Next(s, StartWorker, stepBound) ==
            s.(workers := s.workers[s.nextWorker := Worker([], 0, 0, false)], nextWorker := s.nextWorker + 1)
    ensures Next(s, Abort(w), stepBound) ==
            if w in s.workers then s.(workers := s.workers[w := Worker([], 0, 0, false)]) else s
    ensures Next(s, Crash(w), stepBound) == s.(workers := s.workers - {w})
  {
  }

  /** Put together: a row comes back to pending only by a reclaim, due at once, or by a transient failure, due later. */
  lemma BackToPending(s: System, step: Step, stepBound: nat, i: nat)
    requires Inv(s, stepBound) && i < |s.rows| && s.rows[i].status != Pending
    requires i < |Next(s, step, stepBound).rows| && Next(s, step, stepBound).rows[i].status == Pending
    ensures var row, row' := s.rows[i], Next(s, step, stepBound).rows[i];
      || (step == Reclaim && Expired(row, s.now) && row'.availableAt == s.now && row'.attempts == row.attempts)
      || (step.Finish? && step.outcome == FailTransiently && row.attempts < 4
          && row'.attempts == row.attempts + 1 && row'.availableAt == s.now + Backoff(row'.attempts))
  {
    if step.Finish? {
      assert WorkerInv(s, step.w, stepBound);
      assert Held(s.rows, s.workers[step.w].active[0], step.w, s.workers[step.w], stepBound);
      FinishRowActs(s.rows[i], s.rows[i].attempts, step.outcome, s.now);
    }
  }
}
