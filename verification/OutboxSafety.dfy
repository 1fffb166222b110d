/** What the leases guarantee, and exactly when. */
module OutboxSafety {
  import opened Domain
  import opened Outbox

  lemma InvIsExclusive(s: System, stepBound: nat)
    requires Inv(s, stepBound)
    ensures Exclusive(s)
  {
    forall v, w, k, m | v in s.workers && w in s.workers && v != w
                        && 0 <= k < |s.workers[v].active| && 0 <= m < |s.workers[w].active|
      ensures s.workers[v].active[k].id != s.workers[w].active[m].id
    {
      assert WorkerInv(s, v, stepBound) && WorkerInv(s, w, stepBound);
      assert Held(s.rows, s.workers[v].active[k], v, s.workers[v], stepBound);
      assert Held(s.rows, s.workers[w].active[m], w, s.workers[w], stepBound);
    }
  }

  /** Each step moves each existing row along one legal edge. */
  lemma NextMovesRows(s: System, step: Step, stepBound: nat, i: nat)
    requires Inv(s, stepBound) && LEASE_RENEW_INTERVAL_MS + stepBound <= LEASE_TTL_MS
    requires i < |s.rows|
    ensures i < |Next(s, step, stepBound).rows| && RowMoves(s.rows[i], Next(s, step, stepBound).rows[i])
  {
    if step.Finish? && Next(s, step, stepBound) != s {
      assert WorkerInv(s, step.w, stepBound);
      assert Held(s.rows, s.workers[step.w].active[0], step.w, s.workers[step.w], stepBound);
    }
    if step.Claim? && Next(s, step, stepBound) != s && i in IdSet(step.ids) {
      var k :| 0 <= k < |step.ids| && step.ids[k] == i;
      assert s.rows[step.ids[k]].status.Pending?;
    }
  }

  /** Between any two states of a run a delivered or dead row is the same row. */
  lemma {:induction false} TerminalRowsStay(s: System, steps: seq<Step>, stepBound: nat, i: nat)
    requires Inv(s, stepBound) && LEASE_RENEW_INTERVAL_MS + stepBound <= LEASE_TTL_MS
    requires i < |s.rows| && (s.rows[i].status.Delivered? || s.rows[i].status.Dead?)
    ensures i < |Run(s, steps, stepBound).rows| && Run(s, steps, stepBound).rows[i] == s.rows[i]
    decreases |steps|
  {
    if steps != [] {
      NextMovesRows(s, steps[0], stepBound, i);
      NextKeepsInv(s, steps[0], stepBound);
      TerminalRowsStay(Next(s, steps[0], stepBound), steps[1..], stepBound, i);
    }
  }

  /** Claims balance what became of them, on every row of every run. */
  lemma ClaimsBalance(now: nat, steps: seq<Step>, stepBound: nat, i: nat)
    requires LEASE_RENEW_INTERVAL_MS + stepBound <= LEASE_TTL_MS
    requires i < |Run(Start(now), steps, stepBound).rows|
    ensures var row := Run(Start(now), steps, stepBound).rows[i];
      && row.claims == row.retries + row.finals + row.reclaims + (if row.status.Sending? then 1 else 0)
      && row.finals <= 1
      && row.attempts <= MAX_DELIVERY_ATTEMPTS
      && (row.status.Pending? || row.status.Sending? ==> row.attempts == row.start + row.retries)
  {
    RunKeepsInv(Start(now), steps, stepBound);
  }

  /** Every row in a live worker's batch has a lease younger than the TTL, at every instant of every run. */
  lemma LeaseBound(now: nat, steps: seq<Step>, stepBound: nat, w: nat, k: nat)
    requires LEASE_RENEW_INTERVAL_MS + stepBound <= LEASE_TTL_MS
    requires var s := Run(Start(now), steps, stepBound); w in s.workers && k < |s.workers[w].active|
    ensures var s := Run(Start(now), steps, stepBound);
      var id := s.workers[w].active[k].id;
      && id < |s.rows| && OwnedBy(s.rows[id], w)
      && s.now - s.rows[id].lease.value.at < LEASE_TTL_MS
      && RowsAfterReclaim(s.rows, s.now)[id] == s.rows[id]
  {
    var s := Run(Start(now), steps, stepBound);
    RunKeepsInv(Start(now), steps, stepBound);
    assert WorkerInv(s, w, stepBound);
    assert Held(s.rows, s.workers[w].active[k], w, s.workers[w], stepBound);
    HeldIsFresh(s, w, k, stepBound);
  }

  // ---------------------------------------------------------------- the bound is exact

  lemma {:induction false} RunSplits(s: System, a: seq<Step>, b: seq<Step>, stepBound: nat)
    ensures Run(s, a + b, stepBound) == Run(Run(s, a, stepBound), b, stepBound)
    decreases |a|
  {
    if a == [] {
      assert a + b == b;
    } else {
      assert (a + b)[1..] == a[1..] + b;
      RunSplits(Next(s, a[0], stepBound), a[1..], b, stepBound);
    }
  }

  function Sent(at: int): Row {
    Row(Sending, 0, LEASE_RENEW_INTERVAL_MS, Some(Lease(at, 0)), 0, 1, 0, 0, 0)
  }

  const SEND_FIRST := [Renew(0), Elapse(LEASE_RENEW_INTERVAL_MS - 1), Finish(0, Deliver)]
  const STALL_ON_SECOND := [Renew(0), Elapse(LEASE_TTL_MS - LEASE_RENEW_INTERVAL_MS + 1)]
  const TAKE_OVER := [Reclaim, Claim(1, [1])]

  /** Worker 0 has claimed two rows; worker 1 is idle. */
  function BothClaimed(stepBound: nat): System {
    var t := LEASE_RENEW_INTERVAL_MS;
    System(t, [Sent(t), Sent(t)],
      map[0 := Worker([Claimed(0, 0), Claimed(1, 0)], 0, t + stepBound, false), 1 := IDLE], 2)
  }

  /** One millisecond before the next renewal falls due, worker 0 has delivered its first row. */
  function FirstSent(stepBound: nat): System {
    var t := LEASE_RENEW_INTERVAL_MS;
    System(2 * t - 1, [Sent(t).(status := Delivered, lease := None, finals := 1), Sent(t)],
           map[0 := Worker([Claimed(1, 0)], t, t + stepBound, false), 1 := IDLE], 2)
  }

  /** The check found nothing to renew and the second row took the rest of the lease. */
  function Stalled(stepBound: nat): System {
    var t := LEASE_RENEW_INTERVAL_MS;
    FirstSent(stepBound).(now := t + LEASE_TTL_MS,
                          workers := map[0 := Worker([Claimed(1, 0)], t, 2 * t - 1 + stepBound, true), 1 := IDLE])
  }

  /** Worker 1 has claimed the second row, which worker 0 is still sending. */
  function TakenOver(stepBound: nat): System {
    var t := LEASE_RENEW_INTERVAL_MS;
    var end := t + LEASE_TTL_MS;
    System(end, [FirstSent(stepBound).rows[0], Row(Sending, 0, end, Some(Lease(end, 1)), 0, 2, 0, 0, 1)],
           map[0 := Worker([Claimed(1, 0)], t, 2 * t - 1 + stepBound, true),
               1 := Worker([Claimed(1, 0)], 0, end + stepBound, false)], 2)
  }

  lemma RunOne(s: System, a: Step, stepBound: nat)
    ensures Run(s, [a], stepBound) == Next(s, a, stepBound)
  {
    assert [a][1..] == [];
  }

  lemma RunTwo(s: System, a: Step, b: Step, stepBound: nat)
    ensures Run(s, [a, b], stepBound) == Next(Next(s, a, stepBound), b, stepBound)
  {
    assert [a, b][1..] == [b];
    RunOne(Next(s, a, stepBound), b, stepBound);
  }

  lemma RunThree(s: System, a: Step, b: Step, c: Step, stepBound: nat)
    ensures Run(s, [a, b, c], stepBound) == Next(Next(Next(s, a, stepBound), b, stepBound), c, stepBound)
  {
    assert [a, b, c][1..] == [b, c];
    RunTwo(Next(s, a, stepBound), b, c, stepBound);
  }

  const WAITING := Row(Pending, 0, LEASE_RENEW_INTERVAL_MS, None, 0, 0, 0, 0, 0)

  lemma TwoQueued(stepBound: nat)
    ensures Run(Start(LEASE_RENEW_INTERVAL_MS), [Enqueue(false), Enqueue(false)], stepBound)
            == System(LEASE_RENEW_INTERVAL_MS, [WAITING, WAITING], map[], 0)
  {
    RunTwo(Start(LEASE_RENEW_INTERVAL_MS), Enqueue(false), Enqueue(false), stepBound);
  }

  lemma TwoStarted(stepBound: nat)
    ensures Run(System(LEASE_RENEW_INTERVAL_MS, [WAITING, WAITING], map[], 0), [StartWorker, StartWorker], stepBound)
            == System(LEASE_RENEW_INTERVAL_MS, [WAITING, WAITING], map[0 := IDLE, 1 := IDLE], 2)
  {
    RunTwo(System(LEASE_RENEW_INTERVAL_MS, [WAITING, WAITING], map[], 0), StartWorker, StartWorker, stepBound);
  }

  lemma OneClaimsBoth(stepBound: nat)
    ensures Run(System(LEASE_RENEW_INTERVAL_MS, [WAITING, WAITING], map[0 := IDLE, 1 := IDLE], 2), [Claim(0, [0, 1])],
      stepBound)
            == BothClaimed(stepBound)
  {
    var t := LEASE_RENEW_INTERVAL_MS;
    var s := System(t, [WAITING, WAITING], map[0 := IDLE, 1 := IDLE], 2);
    RunOne(s, Claim(0, [0, 1]), stepBound);
    assert Claimable(s.rows, [0, 1], t);
    assert RowsAfterClaim(s.rows, IdSet([0, 1]), 0, t) == [Sent(t), Sent(t)];
    assert Remember(s.rows, [0, 1]) == [Claimed(0, 0), Claimed(1, 0)];
  }

  /** Worker 0 has renewed both leases and is about to deliver its first row. */
  function FirstRenewed(stepBound: nat): System {
    var t := LEASE_RENEW_INTERVAL_MS;
    BothClaimed(stepBound).(workers := map[0 := Worker([Claimed(0, 0), Claimed(1, 0)], t, t + stepBound, true),
      1 := IDLE])
  }

  lemma FirstRenews(stepBound: nat)
    ensures Next(BothClaimed(stepBound), Renew(0), stepBound) == FirstRenewed(stepBound)
  {
    var s := BothClaimed(stepBound);
    assert RowsAfterRenewal(s.rows, Ids(s.workers[0].active), 0, s.now) == s.rows;
  }

  lemma FirstIsSent(stepBound: nat)
    requires stepBound >= LEASE_RENEW_INTERVAL_MS - 1
    ensures Run(BothClaimed(stepBound), SEND_FIRST, stepBound) == FirstSent(stepBound)
  {
    var t := LEASE_RENEW_INTERVAL_MS;
    RunThree(BothClaimed(stepBound), Renew(0), Elapse(t - 1), Finish(0, Deliver), stepBound);
    FirstRenews(stepBound);
    FirstDelivers(stepBound);
  }

  lemma FirstDelivers(stepBound: nat)
    requires stepBound >= LEASE_RENEW_INTERVAL_MS - 1
    ensures Next(Next(FirstRenewed(stepBound), Elapse(LEASE_RENEW_INTERVAL_MS - 1), stepBound), Finish(0, Deliver),
      stepBound) == FirstSent(stepBound)
  {
    var t := LEASE_RENEW_INTERVAL_MS;
    assert Next(FirstRenewed(stepBound), Elapse(t - 1), stepBound) == FirstRenewed(stepBound).(now := 2 * t - 1);
    assert FirstRenewed(stepBound).workers[0].active[1..] == [Claimed(1, 0)];
  }

  lemma SecondStalls(stepBound: nat)
    requires stepBound >= LEASE_TTL_MS - LEASE_RENEW_INTERVAL_MS + 1
    ensures Run(FirstSent(stepBound), STALL_ON_SECOND, stepBound) == Stalled(stepBound)
  {
    RunTwo(FirstSent(stepBound), Renew(0), Elapse(LEASE_TTL_MS - LEASE_RENEW_INTERVAL_MS + 1), stepBound);
  }

  lemma OtherTakesOver(stepBound: nat)
    ensures Run(Stalled(stepBound), TAKE_OVER, stepBound) == TakenOver(stepBound)
  {
    var s := Stalled(stepBound);
    RunTwo(s, Reclaim, Claim(1, [1]), stepBound);
    var s1 := Next(s, Reclaim, stepBound);
    var freed := Row(Pending, 0, s.now, None, 0, 1, 0, 0, 1);
    assert s1.rows == [s.rows[0], freed];
    assert Claimable(s1.rows, [1], s.now);
    assert RowsAfterClaim(s1.rows, IdSet([1]), 1, s.now) == TakenOver(stepBound).rows;
    assert Remember(s1.rows, [1]) == [Claimed(1, 0)];
  }

  function SlowRun(): seq<Step> {
    [Enqueue(false), Enqueue(false)] + [StartWorker, StartWorker] + [Claim(0, [0, 1])]
      + SEND_FIRST + STALL_ON_SECOND + TAKE_OVER
  }

  /** One millisecond more per row than the lease allows, and a healthy worker claims a row still being sent. */
  lemma SlowRunEndsTakenOver(stepBound: nat)
    requires LEASE_RENEW_INTERVAL_MS + stepBound > LEASE_TTL_MS
    ensures Run(Start(LEASE_RENEW_INTERVAL_MS), SlowRun(), stepBound) == TakenOver(stepBound)
  {
    var start := Start(LEASE_RENEW_INTERVAL_MS);
    var a, b, c := [Enqueue(false), Enqueue(false)], [StartWorker, StartWorker], [Claim(0, [0, 1])];
    RunSplits(start, a + b + c + SEND_FIRST + STALL_ON_SECOND, TAKE_OVER, stepBound);
    RunSplits(start, a + b + c + SEND_FIRST, STALL_ON_SECOND, stepBound);
    RunSplits(start, a + b + c, SEND_FIRST, stepBound);
    RunSplits(start, a + b, c, stepBound);
    RunSplits(start, a, b, stepBound);
    TwoQueued(stepBound);
    TwoStarted(stepBound);
    OneClaimsBoth(stepBound);
    FirstIsSent(stepBound);
    SecondStalls(stepBound);
    OtherTakesOver(stepBound);
  }

  lemma TakenOverIsShared(stepBound: nat)
    ensures !Exclusive(TakenOver(stepBound))
  {
    var s := TakenOver(stepBound);
    assert s.workers[0].active[0].id == s.workers[1].active[0].id;
  }

  /**
   The bound is exact: whatever the clock, the workers and the crashes do, no row is ever in two live
   workers' batches if and only if the longest stretch between lease checks plus the renewal interval
   is at most the lease.
   */
  lemma ExclusiveExactlyWithinTheLease(stepBound: nat)
    ensures (forall now: nat, steps: seq<Step> :: Exclusive(Run(Start(now), steps, stepBound)))
            <==> LEASE_RENEW_INTERVAL_MS + stepBound <= LEASE_TTL_MS
  {
    if LEASE_RENEW_INTERVAL_MS + stepBound <= LEASE_TTL_MS {
      forall now: nat, steps: seq<Step> ensures Exclusive(Run(Start(now), steps, stepBound)) {
        RunKeepsInv(Start(now), steps, stepBound);
        InvIsExclusive(Run(Start(now), steps, stepBound), stepBound);
      }
    } else {
      SlowRunEndsTakenOver(stepBound);
      TakenOverIsShared(stepBound);
    }
  }

  /** Past the bound the unguarded finalize statements can even send a delivered row back to pending. */
  lemma SlowRunUndoesDelivery(stepBound: nat)
    requires LEASE_RENEW_INTERVAL_MS + stepBound > LEASE_TTL_MS
    ensures var delivered := Run(TakenOver(stepBound), [Renew(1), Finish(1, Deliver)], stepBound);
      && delivered.rows[1].status.Delivered?
      && Run(delivered, [Finish(0, FailTransiently)], stepBound).rows[1].status.Pending?
  {
    var s := TakenOver(stepBound);
    RunTwo(s, Renew(1), Finish(1, Deliver), stepBound);
    var s1 := Next(s, Renew(1), stepBound);
    assert RowsAfterRenewal(s.rows, Ids(s.workers[1].active), 1, s.now) == s.rows;
    assert s1.rows == s.rows && s1.workers[1].active == [Claimed(1, 0)] && s1.workers[0] == s.workers[0];
    var s2 := Next(s1, Finish(1, Deliver), stepBound);
    assert s2.rows[1].status.Delivered? && s2.workers[0] == s.workers[0];
    RunOne(s2, Finish(0, FailTransiently), stepBound);
  }

  /** A best-effort row is at most one failure from its ceiling, in the table and as any worker remembers it. */
  ghost predicate BestEffortInv(s: System) {
    && (forall i | 0 <= i < |s.rows| && BestEffort(s.rows[i]) ::
          s.rows[i].retries == 0 && s.rows[i].attempts >= MAX_DELIVERY_ATTEMPTS - 1)
    && (forall w, k | w in s.workers && 0 <= k < |s.workers[w].active| ::
          RemembersCeiling(s.rows, s.workers[w].active[k]))
  }

  predicate BestEffort(row: Row) {
    row.start == MAX_DELIVERY_ATTEMPTS - 1
  }

  predicate RemembersCeiling(rows: seq<Row>, c: Claimed) {
    c.id < |rows| && (BestEffort(rows[c.id]) ==> c.attempts >= MAX_DELIVERY_ATTEMPTS - 1)
  }

  lemma NextKeepsBestEffort(s: System, step: Step, stepBound: nat)
    requires BestEffortInv(s)
    ensures BestEffortInv(Next(s, step, stepBound))
  {
    var s' := Next(s, step, stepBound);
    forall w, k | w in s'.workers && 0 <= k < |s'.workers[w].active|
      ensures RemembersCeiling(s'.rows, s'.workers[w].active[k])
    {
      if w in s.workers && s'.workers[w].active == s.workers[w].active {
        assert RemembersCeiling(s.rows, s.workers[w].active[k]);
      } else if step.Finish? {
        assert RemembersCeiling(s.rows, s.workers[w].active[k + 1]);
      }
    }
    if step.Finish? && s' != s {
      assert RemembersCeiling(s.rows, s.workers[step.w].active[0]);
    }
  }

  lemma {:induction false} RunKeepsBestEffort(s: System, steps: seq<Step>, stepBound: nat)
    requires BestEffortInv(s)
    ensures BestEffortInv(Run(s, steps, stepBound))
    decreases |steps|
  {
    if steps != [] {
      NextKeepsBestEffort(s, steps[0], stepBound);
      RunKeepsBestEffort(Next(s, steps[0], stepBound), steps[1..], stepBound);
    }
  }

  /**
   A best-effort row starts one attempt below the ceiling, so its first failure is final: within the lease
   bound or past it, for even a stale worker remembers attempts that leave no retry.
   */
  lemma BestEffortIsNeverRetried(now: nat, steps: seq<Step>, stepBound: nat)
    ensures forall row | row in Run(Start(now), steps, stepBound).rows && BestEffort(row) :: row.retries == 0
  {
    RunKeepsBestEffort(Start(now), steps, stepBound);
  }

  /** A transient failure waits the next rung of the ladder, or is final at the fifth attempt; the fallback delay is
      never used. */
  lemma RetryFollowsTheLadder(row: Row, now: int)
    requires RowInv(row) && row.status.Sending?
    ensures var row' := FinishRow(row, row.attempts, FailTransiently, now);
      if row.attempts == 4 then row'.status.Dead? && row'.attempts == 5
      else row'.status.Pending? && row'.attempts == row.attempts + 1
           && row'.availableAt - now == [60_000, 300_000, 900_000, 3_600_000][row.attempts]
  {
  }
}
