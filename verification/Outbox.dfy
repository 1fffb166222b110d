/**
 The notification outbox and the workers that drain it.

 A step is one database statement or one local action of one worker; workers interleave freely
 and may crash at any point.  Times are whole milliseconds on one clock.  `stepBound` is the
 longest a live worker stays between two lease checks.  The counters `claims`, `retries`,
 `finals` and `reclaims` and the initial attempts `start` are history variables of a row.
 */
module Outbox {
  import opened Domain

  const LEASE_TTL_MS := 300_000
  const LEASE_RENEW_INTERVAL_MS := 30_000
  const BATCH_SIZE := 50
  const MAX_DELIVERY_ATTEMPTS := 5
  const RETRY_BACKOFF_MS: seq<int> := [60_000, 300_000, 900_000, 3_600_000]

  datatype RowStatus = Pending | Sending | Delivered | Dead
  datatype Lease = Lease(at: int, owner: nat)
  datatype Row = Row(status: RowStatus, attempts: nat, availableAt: int, lease: Option<Lease>,
                     start: nat, claims: nat, retries: nat, finals: nat, reclaims: nat)

  /** A claimed row as the worker remembers it: its id and the attempts it read. */
  datatype Claimed = Claimed(id: nat, attempts: nat)

  /** `due` is when the worker's current stretch ends at the latest; `busy` is set between a lease check and its
      finalize. */
  datatype Worker = Worker(active: seq<Claimed>, lastRenewal: int, due: int, busy: bool)

  datatype System = System(now: int, rows: seq<Row>, workers: map<nat, Worker>, nextWorker: nat)

  /** How a claimed row's processing ends. */
  datatype Outcome = Deliver | FailTransiently | FailForGood | LeaveSending

  datatype Step =
    | Enqueue(bestEffort: bool)
    | StartWorker
    | Elapse(ms: nat)
    | Reclaim
    | Claim(w: nat, ids: seq<nat>)
    | Renew(w: nat)
    | Finish(w: nat, outcome: Outcome)
    | Abort(w: nat)
    | Crash(w: nat)

  const IDLE := Worker([], 0, 0, false)

  function RetryDelay(attemptNumber: int): Option<int> {
    var index := attemptNumber - 1;
    if index < 0 || index >= |RETRY_BACKOFF_MS| then None else Some(RETRY_BACKOFF_MS[index])
  }

  // ---------------------------------------------------------------- statements on rows

  predicate Stale(row: Row, now: int) {
    row.status.Sending? && row.lease.Some? && row.lease.value.at <= now - LEASE_TTL_MS
  }

  function ReclaimRow(row: Row, now: int): Row {
    if Stale(row, now) then
      row.(status := Pending, lease := None, availableAt := now, reclaims := row.reclaims + 1) else row
  }

  function ClaimRow(row: Row, w: nat, now: int): Row {
    row.(status := Sending, lease := Some(Lease(now, w)), claims := row.claims + 1)
  }

  predicate OwnedBy(row: Row, w: nat) {
    row.status.Sending? && row.lease.Some? && row.lease.value.owner == w
  }

  function RenewRow(row: Row, w: nat, now: int): Row {
    if OwnedBy(row, w) then row.(lease := Some(Lease(now, w))) else row
  }

  /** The finalize statements name the row only: they check neither its status nor its owner. */
  function FinishRow(row: Row, attempts: nat, outcome: Outcome, now: int): Row {
    var attempt := attempts + 1;
    match outcome
    case Deliver => row.(status := Delivered, lease := None, finals := row.finals + 1)
    case FailForGood => row.(status := Dead, attempts := attempt, lease := None, finals := row.finals + 1)
    case FailTransiently =>
      if attempt >= MAX_DELIVERY_ATTEMPTS then
        row.(status := Dead, attempts := attempt, lease := None, finals := row.finals + 1)
      else
        var delay := RetryDelay(attempt);
        row.(status := Pending, attempts := attempt, lease := None, retries := row.retries + 1,
             availableAt := now + if delay.Some? then delay.value else 60_000)
    case LeaveSending => row
  }

  function Ids(active: seq<Claimed>): set<nat> {
    set c | c in active :: c.id
  }

  predicate Claimable(rows: seq<Row>, ids: seq<nat>, now: int) {
    && |ids| <= BATCH_SIZE
    && (forall k | 0 <= k < |ids| :: ids[k] < |rows| && rows[ids[k]].status.Pending? && rows[ids[k]].availableAt <= now)
    && (forall k, m | 0 <= k < m < |ids| :: ids[k] != ids[m])
  }

  function Remember(rows: seq<Row>, ids: seq<nat>): seq<Claimed>
    requires forall k | 0 <= k < |ids| :: ids[k] < |rows|
  {
    seq(|ids|, k requires 0 <= k < |ids| => Claimed(ids[k], rows[ids[k]].attempts))
  }

  function RowsAfterReclaim(rows: seq<Row>, now: int): seq<Row> {
    seq(|rows|, i requires 0 <= i < |rows| => ReclaimRow(rows[i], now))
  }

  function RowsAfterClaim(rows: seq<Row>, ids: set<nat>, w: nat, now: int): seq<Row> {
    seq(|rows|, i requires 0 <= i < |rows| => if i in ids then ClaimRow(rows[i], w, now) else rows[i])
  }

  function RowsAfterRenewal(rows: seq<Row>, ids: set<nat>, w: nat, now: int): seq<Row> {
    seq(|rows|, i requires 0 <= i < |rows| => if i in ids then RenewRow(rows[i], w, now) else rows[i])
  }

  function IdSet(ids: seq<nat>): set<nat> {
    set i | i in ids
  }

  // ---------------------------------------------------------------- the machine

  /** No live worker overstays: every one reaches its next lease check in time. */
  predicate MayElapse(s: System, ms: nat) {
    forall w | w in s.workers && s.workers[w].active != [] :: s.now + ms <= s.workers[w].due
  }

  function Next(s: System, step: Step, stepBound: nat): System {
    match step
    case Enqueue(bestEffort) =>
      var attempts := if bestEffort then MAX_DELIVERY_ATTEMPTS - 1 else 0;
      s.(rows := s.rows + [Row(Pending, attempts, s.now, None, attempts, 0, 0, 0, 0)])
    case StartWorker => s.(workers := s.workers[s.nextWorker := IDLE], nextWorker := s.nextWorker + 1)
    case Elapse(ms) => if MayElapse(s, ms) then s.(now := s.now + ms) else s
    case Reclaim => s.(rows := RowsAfterReclaim(s.rows, s.now))
    case Claim(w, ids) =>
      if w in s.workers && s.workers[w].active == [] && Claimable(s.rows, ids, s.now) then
        s.(rows := RowsAfterClaim(s.rows, IdSet(ids), w, s.now),
           workers := s.workers[w := Worker(Remember(s.rows, ids), 0, s.now + stepBound, false)])
      else s
    case Renew(w) =>
      if w in s.workers && s.workers[w].active != [] && !s.workers[w].busy then
        var worker := s.workers[w].(due := s.now + stepBound, busy := true);
        if s.now - worker.lastRenewal < LEASE_RENEW_INTERVAL_MS then s.(workers := s.workers[w := worker])
        else
          s.(workers := s.workers[w := worker.(lastRenewal := s.now)],
             rows := RowsAfterRenewal(s.rows, Ids(worker.active), w, s.now))
      else s
    case Finish(w, outcome) =>
      if w in s.workers && s.workers[w].active != [] && s.workers[w].busy && s.workers[w].active[0].id < |s.rows| then
        var c := s.workers[w].active[0];
        s.(rows := s.rows[c.id := FinishRow(s.rows[c.id], c.attempts, outcome, s.now)],
           workers := s.workers[w := s.workers[w].(active := s.workers[w].active[1..], busy := false)])
      else s
    case Abort(w) => if w in s.workers then s.(workers := s.workers[w := IDLE]) else s
    case Crash(w) => s.(workers := s.workers - {w})
  }

  function Run(s: System, steps: seq<Step>, stepBound: nat): System
    decreases |steps|
  {
    if steps == [] then s else Run(Next(s, steps[0], stepBound), steps[1..], stepBound)
  }

  function Start(now: nat): System {
    System(now, [], map[], 0)
  }

  // ---------------------------------------------------------------- the invariant

  ghost predicate RowInv(row: Row) {
    && (row.status.Sending? <==> row.lease.Some?)
    && row.attempts <= MAX_DELIVERY_ATTEMPTS
    && row.start + row.retries < MAX_DELIVERY_ATTEMPTS
    && (row.status.Pending? || row.status.Sending? ==>
          row.attempts < MAX_DELIVERY_ATTEMPTS && row.attempts == row.start + row.retries)
    && row.claims == row.retries + row.finals + row.reclaims + (if row.status.Sending? then 1 else 0)
    && row.finals == (if row.status.Delivered? || row.status.Dead? then 1 else 0)
  }

  /** A row a live worker is holding: sending, leased to it, attempts as it read them, lease fresh until it is due. */
  ghost predicate Held(rows: seq<Row>, c: Claimed, w: nat, worker: Worker, stepBound: nat) {
    && c.id < |rows|
    && OwnedBy(rows[c.id], w)
    && rows[c.id].attempts == c.attempts
    && worker.lastRenewal <= rows[c.id].lease.value.at
    && worker.due <= rows[c.id].lease.value.at + LEASE_RENEW_INTERVAL_MS - 1 + stepBound
  }

  ghost predicate WorkerInv(s: System, w: nat, stepBound: nat)
    requires w in s.workers
  {
    var worker := s.workers[w];
    && (worker.active != [] ==> s.now <= worker.due)
    && worker.lastRenewal <= s.now
    && (forall k | 0 <= k < |worker.active| :: Held(s.rows, worker.active[k], w, worker, stepBound))
    && (forall k, m | 0 <= k < m < |worker.active| :: worker.active[k].id != worker.active[m].id)
  }

  ghost predicate Inv(s: System, stepBound: nat) {
    && s.now >= 0
    && (forall i | 0 <= i < |s.rows| :: RowInv(s.rows[i]))
    && (forall w | w in s.workers :: w < s.nextWorker && WorkerInv(s, w, stepBound))
  }

  /** No row is in two live workers' batches. */
  ghost predicate Exclusive(s: System) {
    forall v, w, k, m | v in s.workers && w in s.workers && v != w
                        && 0 <= k < |s.workers[v].active| && 0 <= m < |s.workers[w].active| ::
      s.workers[v].active[k].id != s.workers[w].active[m].id
  }

  /** The only ways a row changes: `Delivered` and `Dead` are final, a retry adds one attempt. */
  ghost predicate RowMoves(row: Row, row': Row) {
    || row' == row
    || (row.status.Pending? && row'.status.Sending? && row'.attempts == row.attempts
        && row' == row.(status := Sending, lease := row'.lease, claims := row.claims + 1))
    || (row.status.Sending? && row' == row.(lease := row'.lease) && row'.lease.Some?)
    || (row.status.Sending?
      && row' == row.(status := Pending, lease := None, availableAt := row'.availableAt, reclaims := row.reclaims + 1))
    || (row.status.Sending? && row.attempts + 1 < MAX_DELIVERY_ATTEMPTS
        && row' == row.(status := Pending, attempts := row.attempts + 1, lease := None,
                        availableAt := row'.availableAt, retries := row.retries + 1))
    || (row.status.Sending? && row' == row.(status := Delivered, lease := None, finals := row.finals + 1))
    || (row.status.Sending? && row.attempts + 1 <= MAX_DELIVERY_ATTEMPTS
        && row' == row.(status := Dead, attempts := row.attempts + 1, lease := None, finals := row.finals + 1))
  }

  // ---------------------------------------------------------------- every step keeps the invariant

  lemma HeldIsFresh(s: System, w: nat, k: nat, stepBound: nat)
    requires Inv(s, stepBound) && LEASE_RENEW_INTERVAL_MS + stepBound <= LEASE_TTL_MS
    requires w in s.workers && k < |s.workers[w].active|
    ensures var row := s.rows[s.workers[w].active[k].id];
      row.lease.Some? && s.now - row.lease.value.at < LEASE_TTL_MS && !Stale(row, s.now)
  {
    assert WorkerInv(s, w, stepBound);
    assert Held(s.rows, s.workers[w].active[k], w, s.workers[w], stepBound);
  }

  lemma ReclaimKeepsInv(s: System, stepBound: nat)
    requires Inv(s, stepBound) && LEASE_RENEW_INTERVAL_MS + stepBound <= LEASE_TTL_MS
    ensures Inv(Next(s, Reclaim, stepBound), stepBound)
  {
    var s' := Next(s, Reclaim, stepBound);
    forall w | w in s.workers ensures WorkerInv(s', w, stepBound) {
      assert WorkerInv(s, w, stepBound);
      forall k | 0 <= k < |s.workers[w].active|
        ensures Held(s'.rows, s.workers[w].active[k], w, s.workers[w], stepBound)
      {
        HeldIsFresh(s, w, k, stepBound);
      }
    }
  }

  /** Rows that some worker holds and that a step leaves alone are still held. */
  lemma OthersStillHold(s: System, s': System, w: nat, stepBound: nat)
    requires w in s.workers && WorkerInv(s, w, stepBound)
    requires w in s'.workers && s'.workers[w] == s.workers[w] && s'.now == s.now && |s'.rows| >= |s.rows|
    requires forall i | 0 <= i < |s.rows| && OwnedBy(s.rows[i], w) :: s'.rows[i] == s.rows[i]
    ensures WorkerInv(s', w, stepBound)
  {
    forall k | 0 <= k < |s.workers[w].active|
      ensures Held(s'.rows, s.workers[w].active[k], w, s.workers[w], stepBound)
    {
      assert Held(s.rows, s.workers[w].active[k], w, s.workers[w], stepBound);
    }
  }

  lemma ClaimKeepsInv(s: System, w: nat, ids: seq<nat>, stepBound: nat)
    requires Inv(s, stepBound)
    ensures Inv(Next(s, Claim(w, ids), stepBound), stepBound)
  {
    var s' := Next(s, Claim(w, ids), stepBound);
    if s' != s {
      forall v | v in s'.workers ensures v < s'.nextWorker && WorkerInv(s', v, stepBound) {
        if v != w {
          assert WorkerInv(s, v, stepBound);
          OthersStillHold(s, s', v, stepBound);
        } else {
          var active := s'.workers[w].active;
          forall k | 0 <= k < |active| ensures Held(s'.rows, active[k], w, s'.workers[w], stepBound) {
            assert ids[k] in IdSet(ids);
          }
        }
      }
      forall i | 0 <= i < |s'.rows| ensures RowInv(s'.rows[i]) {
        assert RowInv(s.rows[i]);
      }
    }
  }

  lemma RenewKeepsInv(s: System, w: nat, stepBound: nat)
    requires Inv(s, stepBound)
    ensures Inv(Next(s, Renew(w), stepBound), stepBound)
  {
    var s' := Next(s, Renew(w), stepBound);
    if s' != s {
      forall v | v in s'.workers ensures v < s'.nextWorker && WorkerInv(s', v, stepBound) {
        assert WorkerInv(s, v, stepBound);
        if v != w {
          OthersStillHold(s, s', v, stepBound);
        } else {
          var active := s.workers[w].active;
          forall k | 0 <= k < |active| ensures Held(s'.rows, active[k], w, s'.workers[w], stepBound) {
            assert Held(s.rows, active[k], w, s.workers[w], stepBound);
            assert active[k].id in Ids(active);
          }
        }
      }
      forall i | 0 <= i < |s'.rows| ensures RowInv(s'.rows[i]) {
        assert RowInv(s.rows[i]);
      }
    }
  }

  lemma FinishKeepsInv(s: System, w: nat, outcome: Outcome, stepBound: nat)
    requires Inv(s, stepBound)
    ensures Inv(Next(s, Finish(w, outcome), stepBound), stepBound)
  {
    var s' := Next(s, Finish(w, outcome), stepBound);
    if s' != s {
      var active := s.workers[w].active;
      assert WorkerInv(s, w, stepBound);
      assert Held(s.rows, active[0], w, s.workers[w], stepBound);
      forall v | v in s'.workers ensures v < s'.nextWorker && WorkerInv(s', v, stepBound) {
        if v != w {
          assert WorkerInv(s, v, stepBound);
          OthersStillHold(s, s', v, stepBound);
        } else {
          forall k | 0 <= k < |active| - 1 ensures Held(s'.rows, s'.workers[w].active[k], w, s'.workers[w], stepBound) {
            assert Held(s.rows, active[k + 1], w, s.workers[w], stepBound);
          }
        }
      }
      forall i | 0 <= i < |s'.rows| ensures RowInv(s'.rows[i]) {
        assert RowInv(s.rows[i]);
      }
    }
  }

  lemma OtherStepsKeepInv(s: System, step: Step, stepBound: nat)
    requires Inv(s, stepBound)
    requires step.Enqueue? || step.StartWorker? || step.Elapse? || step.Abort? || step.Crash?
    ensures Inv(Next(s, step, stepBound), stepBound)
  {
    var s' := Next(s, step, stepBound);
    forall v | v in s'.workers ensures v < s'.nextWorker && WorkerInv(s', v, stepBound) {
      if v in s.workers && s'.workers[v] == s.workers[v] {
        assert WorkerInv(s, v, stepBound);
        if !step.Elapse? {
          OthersStillHold(s, s', v, stepBound);
        }
      }
    }
  }

  lemma NextKeepsInv(s: System, step: Step, stepBound: nat)
    requires Inv(s, stepBound) && LEASE_RENEW_INTERVAL_MS + stepBound <= LEASE_TTL_MS
    ensures Inv(Next(s, step, stepBound), stepBound)
  {
    match step
    case Reclaim => ReclaimKeepsInv(s, stepBound);
    case Claim(w, ids) => ClaimKeepsInv(s, w, ids, stepBound);
    case Renew(w) => RenewKeepsInv(s, w, stepBound);
    case Finish(w, outcome) => FinishKeepsInv(s, w, outcome, stepBound);
    case _ => OtherStepsKeepInv(s, step, stepBound);
  }

  lemma {:induction false} RunKeepsInv(s: System, steps: seq<Step>, stepBound: nat)
    requires Inv(s, stepBound) && LEASE_RENEW_INTERVAL_MS + stepBound <= LEASE_TTL_MS
    ensures Inv(Run(s, steps, stepBound), stepBound)
    decreases |steps|
  {
    if steps != [] {
      NextKeepsInv(s, steps[0], stepBound);
      RunKeepsInv(Next(s, steps[0], stepBound), steps[1..], stepBound);
    }
  }
}
