/** One dispatch worker: its batch loop, statement by statement, is a run of the outbox machine. */
module DispatchWorker {
  import opened Domain
  import opened Outbox
  import opened Delivery
  import OutboxSafety

  /** A step that is not one of worker `w`. */
  predicate Foreign(step: Step, w: nat) {
    match step
    case Claim(v, _) => v != w
    case Renew(v) => v != w
    case Finish(v, _) => v != w
    case Abort(v) => v != w
    case Crash(v) => v != w
    case _ => true
  }

  predicate AllForeign(steps: seq<Step>, w: nat) {
    forall step | step in steps :: Foreign(step, w)
  }

  /** One iteration of the batch loop: lease check, whatever happens during the send, finalize. */
  function Rounds(w: nat, outcomes: seq<Outcome>, during: seq<seq<Step>>): seq<Step>
    requires |outcomes| == |during|
  {
    if outcomes == [] then []
    else ([Renew(w)] + during[0] + [Finish(w, outcomes[0])]) + Rounds(w, outcomes[1..], during[1..])
  }

  /** A pass: reclaim, whatever happens before the claim, claim, and the rounds. */
  function Tick(w: nat, between: seq<Step>, ids: seq<nat>, outcomes: seq<Outcome>, during: seq<seq<Step>>): seq<Step>
    requires |outcomes| == |during|
  {
    ([Reclaim] + between + [Claim(w, ids)]) + Rounds(w, outcomes, during)
  }

  /** The worker's own part of a pass over these outcomes: a lease check before each finalize, in order. */
  function Checked(w: nat, outcomes: seq<Outcome>): seq<Step> {
    if outcomes == [] then []
    else Checked(w, outcomes[..|outcomes| - 1]) + [Renew(w), Finish(w, outcomes[|outcomes| - 1])]
  }

  function OwnPart(step: Step, w: nat): seq<Step> {
    if Foreign(step, w) && step != Reclaim then [] else [step]
  }

  function Own(steps: seq<Step>, w: nat): seq<Step> {
    if steps == [] then [] else OwnPart(steps[0], w) + Own(steps[1..], w)
  }

  predicate NoneOwn(steps: seq<Step>, w: nat) {
    forall step | step in steps :: Foreign(step, w) && step != Reclaim
  }

  lemma OwnFirst(step: Step, rest: seq<Step>, w: nat)
    ensures Own([], w) == [] && Own([step] + rest, w) == OwnPart(step, w) + Own(rest, w)
  {
    assert ([step] + rest)[1..] == rest;
  }

  lemma {:induction false} OwnSplits(a: seq<Step>, b: seq<Step>, w: nat)
    ensures Own(a + b, w) == Own(a, w) + Own(b, w)
    decreases |a|
  {
    hide Own, OwnPart;
    if a == [] {
      assert a + b == b;
      OwnFirst(Reclaim, [], w);
    } else {
      OwnFirst(a[0], a[1..], w);
      OwnFirst(a[0], a[1..] + b, w);
      assert a == [a[0]] + a[1..] && a + b == [a[0]] + (a[1..] + b);
      OwnSplits(a[1..], b, w);
    }
  }

  lemma {:induction false} OthersAreNotOwn(steps: seq<Step>, w: nat)
    requires NoneOwn(steps, w)
    ensures Own(steps, w) == []
  {
    if steps != [] {
      assert steps[0] in steps && forall step | step in steps[1..] :: step in steps;
      OthersAreNotOwn(steps[1..], w);
    }
  }

  lemma {:induction false} CheckedFirst(w: nat, outcomes: seq<Outcome>)
    requires outcomes != []
    ensures Checked(w, outcomes) == [Renew(w), Finish(w, outcomes[0])] + Checked(w, outcomes[1..])
  {
    var n := |outcomes| - 1;
    if n == 0 {
      assert outcomes[..0] == [] && outcomes[1..] == [];
    } else {
      CheckedFirst(w, outcomes[..n]);
      assert outcomes[..n][1..] == outcomes[1..][..n - 1];
    }
  }

  lemma OwnOne(step: Step, w: nat)
    ensures Own([step], w) == OwnPart(step, w)
  {
    assert [step][1..] == [];
  }

  lemma {:induction false} RoundsAreChecked(w: nat, outcomes: seq<Outcome>, during: seq<seq<Step>>)
    requires |outcomes| == |during| && forall steps | steps in during :: NoneOwn(steps, w)
    ensures Own(Rounds(w, outcomes, during), w) == Checked(w, outcomes)
    decreases |outcomes|
  {
    hide Own, NoneOwn;
    if outcomes == [] {
      OthersAreNotOwn([], w) by { NothingIsOwn(w); }
    } else {
      var first := [Renew(w)] + during[0] + [Finish(w, outcomes[0])];
      assert during[0] in during && forall steps | steps in during[1..] :: steps in during;
      RoundsAreChecked(w, outcomes[1..], during[1..]);
      OwnSplits(first, Rounds(w, outcomes[1..], during[1..]), w);
      OwnSplits([Renew(w)] + during[0], [Finish(w, outcomes[0])], w);
      OwnSplits([Renew(w)], during[0], w);
      OthersAreNotOwn(during[0], w);
      OwnOne(Renew(w), w);
      OwnOne(Finish(w, outcomes[0]), w);
      CheckedFirst(w, outcomes);
    }
  }

  lemma NothingIsOwn(w: nat)
    ensures NoneOwn([], w)
  {
  }

  /** Leaving out what others do, a pass is one reclaim, one claim, and a lease check and a finalize for every claimed
      row in order. */
  lemma TickIsInOrder(w: nat, between: seq<Step>, ids: seq<nat>, outcomes: seq<Outcome>, during: seq<seq<Step>>)
    requires |outcomes| == |during| && NoneOwn(between, w) && forall steps | steps in during :: NoneOwn(steps, w)
    ensures Own(Tick(w, between, ids, outcomes, during), w) == [Reclaim, Claim(w, ids)] + Checked(w, outcomes)
  {
    hide Own, NoneOwn, Checked, Rounds;
    OwnSplits([Reclaim] + between + [Claim(w, ids)], Rounds(w, outcomes, during), w);
    OwnSplits([Reclaim] + between, [Claim(w, ids)], w);
    OwnSplits([Reclaim], between, w);
    OthersAreNotOwn(between, w);
    OwnOne(Reclaim, w);
    OwnOne(Claim(w, ids), w);
    RoundsAreChecked(w, outcomes, during);
  }

  function Outcomes(attempts: seq<Attempt>): seq<Outcome> {
    seq(|attempts|, i requires 0 <= i < |attempts| => OutcomeOf(attempts[i]))
  }

  class FcmDispatchWorker {
    const workerId: nat
    const stepBound: nat
    var now: int
    var rows: seq<Row>
    var activeRows: seq<Claimed>
    var lastLeaseRenewalAt: int
    var due: int
    var busy: bool
    var nextWorker: nat
    var peers: map<nat, Worker>

    function State(): System
      reads this
    {
      System(now, rows, peers[workerId := Worker(activeRows, lastLeaseRenewalAt, due, busy)], nextWorker)
    }

    constructor (workerId: nat, stepBound: nat, now: int, rows: seq<Row>, peers: map<nat, Worker>, nextWorker: nat)
      ensures this.workerId == workerId && this.stepBound == stepBound
      ensures State() == System(now, rows, peers[workerId := IDLE], nextWorker)
    {
      this.workerId, this.stepBound, this.now, this.rows := workerId, stepBound, now, rows;
      this.peers, this.nextWorker := peers, nextWorker;
      activeRows, lastLeaseRenewalAt, due, busy := [], 0, 0, false;
    }

    method ReclaimStale()
      modifies this`rows
      ensures State() == Next(old(State()), Reclaim, stepBound)
    {
      ghost var before := rows;
      for i := 0 to |rows|
        invariant |rows| == |before|
        invariant forall k | 0 <= k < i :: rows[k] == ReclaimRow(before[k], now)
        invariant forall k | i <= k < |rows| :: rows[k] == before[k]
      {
        if rows[i].status.Sending? && rows[i].lease.Some? && rows[i].lease.value.at <= now - LEASE_TTL_MS {
          rows := rows[i := rows[i].(status := Pending, lease := None, availableAt := now,
            reclaims := rows[i].reclaims + 1)];
        }
      }
      assert rows == RowsAfterReclaim(before, now);
    }

    /** `ids` is the database's choice among the due rows. */
    method ClaimBatch(ids: seq<nat>)
      requires activeRows == [] && Claimable(rows, ids, now)
      modifies this`rows, this`activeRows, this`lastLeaseRenewalAt, this`due, this`busy
      ensures State() == Next(old(State()), Claim(workerId, ids), stepBound)
      ensures |activeRows| == |ids| && !busy
    {
      rows, activeRows := LeaseRows(rows, ids, workerId, now);
      lastLeaseRenewalAt, due, busy := 0, now + stepBound, false;
    }

    /** The claim statement: leases each chosen row and returns it as read. */
    static method LeaseRows(rows: seq<Row>, ids: seq<nat>, w: nat, now: int)
      returns (table: seq<Row>, claimed: seq<Claimed>)
      requires Claimable(rows, ids, now)
      ensures table == RowsAfterClaim(rows, IdSet(ids), w, now)
      ensures claimed == Remember(rows, ids)
    {
      table, claimed := rows, [];
      for i := 0 to |ids|
        invariant |table| == |rows| && |claimed| == i
        invariant forall k | 0 <= k < |table| :: table[k] == if k in ids[..i] then
          ClaimRow(rows[k], w, now) else rows[k]
        invariant forall k | 0 <= k < i :: claimed[k] == Claimed(ids[k], rows[ids[k]].attempts)
      {
        assert ids[i] !in ids[..i];
        assert forall k :: k in ids[..i + 1] <==> k in ids[..i] || k == ids[i];
        claimed := claimed + [Claimed(ids[i], table[ids[i]].attempts)];
        table := table[ids[i] := ClaimRow(table[ids[i]], w, now)];
      }
      assert ids[..|ids|] == ids;
    }

    method RenewLeasesIfDue()
      requires !busy
      modifies this`rows, this`lastLeaseRenewalAt, this`due, this`busy
      ensures State() == Next(old(State()), Renew(workerId), stepBound)
      ensures activeRows != [] ==> busy
    {
      if activeRows == [] { return; }
      due, busy := now + stepBound, true;
      if now - lastLeaseRenewalAt < LEASE_RENEW_INTERVAL_MS { return; }
      lastLeaseRenewalAt := now;
      RenewOwnedLeases(Ids(activeRows));
    }

    /** Refreshes the leases of these rows, each only while it is still sending and still this worker's. */
    method RenewOwnedLeases(ids: set<nat>)
      modifies this`rows
      ensures rows == RowsAfterRenewal(old(rows), ids, workerId, now)
    {
      var table := rows;
      for i := 0 to |rows|
        invariant |table| == |rows|
        invariant forall k | 0 <= k < i :: table[k] == if k in ids then RenewRow(rows[k], workerId, now) else rows[k]
        invariant forall k | i <= k < |table| :: table[k] == rows[k]
      {
        if i in ids && OwnedBy(table[i], workerId) {
          table := table[i := table[i].(lease := Some(Lease(now, workerId)))];
        }
      }
      rows := table;
    }

    /** Time passes, rows are enqueued, other workers start, act and crash. */
    method Others(steps: seq<Step>)
      requires Inv(State(), stepBound) && LEASE_RENEW_INTERVAL_MS + stepBound <= LEASE_TTL_MS
      requires AllForeign(steps, workerId)
      modifies this`now, this`rows, this`peers, this`nextWorker
      ensures State() == Run(old(State()), steps, stepBound) && Inv(State(), stepBound)
      ensures activeRows == old(activeRows) && busy == old(busy)
    {
      var s := Run(State(), steps, stepBound);
      ForeignStepsLeaveWorker(State(), steps, workerId, stepBound);
      now, rows, peers, nextWorker := s.now, s.rows, s.workers, s.nextWorker;
      assert s.workers[workerId := s.workers[workerId]] == s.workers;
    }

    /** The finalize statement for the row being sent, then the row leaves the batch. */
    method FinalizeRow(outcome: Outcome)
      requires activeRows != [] && busy && activeRows[0].id < |rows|
      modifies this`rows, this`activeRows, this`busy
      ensures State() == Next(old(State()), Finish(workerId, outcome), stepBound)
      ensures |activeRows| == |old(activeRows)| - 1 && !busy
    {
      var c := activeRows[0];
      var row := rows[c.id];
      match outcome {
        case Deliver => row := row.(status := Delivered, lease := None, finals := row.finals + 1);
        case FailForGood => row := row.(status := Dead, attempts := c.attempts + 1, lease := None,
          finals := row.finals + 1);
        case FailTransiently =>
          if c.attempts + 1 >= MAX_DELIVERY_ATTEMPTS {
            row := row.(status := Dead, attempts := c.attempts + 1, lease := None, finals := row.finals + 1);
          } else {
            var delay := RetryDelay(c.attempts + 1);
            row := row.(status := Pending, attempts := c.attempts + 1, lease := None, retries := row.retries + 1,
                        availableAt := now + if delay.Some? then delay.value else 60_000);
          }
        case LeaveSending =>
      }
      rows := rows[c.id := row];
      activeRows := activeRows[1..];
      busy := false;
    }

    /** Sends the first claimed row and finalizes it by what came back; says which of its devices to revoke. */
    method ProcessClaimedRow(a: Attempt) returns (revoked: set<nat>)
      requires activeRows != [] && busy && activeRows[0].id < |rows|
      modifies this`rows, this`activeRows, this`busy
      ensures State() == Next(old(State()), Finish(workerId, OutcomeOf(a)), stepBound)
      ensures |activeRows| == |old(activeRows)| - 1 && !busy
      ensures revoked == RevokedBy(a)
      ensures forall i: nat :: i in revoked <==>
        && a.payloadSafe && a.send.Answered? && i < a.devices && i < |a.send.results|
        && (a.send.results[i] == InvalidToken || a.send.results[i] == UnregisteredToken)
    {
      var outcome;
      outcome, revoked := Judge(a);
      FinalizeRow(if a.finalizeFails then LeaveSending else outcome);
    }

    /** The lease check, the send of the first row and its finalize. */
    method Round(a: Attempt, during: seq<Step>)
      requires Inv(State(), stepBound) && LEASE_RENEW_INTERVAL_MS + stepBound <= LEASE_TTL_MS
      requires activeRows != [] && !busy && AllForeign(during, workerId)
      modifies this
      ensures State() == AfterRound(old(State()), workerId, OutcomeOf(a), during, stepBound)
      ensures Inv(State(), stepBound) && |activeRows| == |old(activeRows)| - 1 && !busy
    {
      hide Inv, OutcomeOf;
      NextKeepsInv(State(), Renew(workerId), stepBound);
      RenewLeasesIfDue();
      Others(during);
      NextKeepsInv(State(), Finish(workerId, OutcomeOf(a)), stepBound);
      HeadExists(State(), workerId, stepBound);
      var _ := ProcessClaimedRow(a);
    }

    /** One claim, send, finalize pass over a batch of any length; `ids` is the database's choice among the due rows. */
    method TickOnce(between: seq<Step>, ids: seq<nat>, attempts: seq<Attempt>, during: seq<seq<Step>>)
      requires Inv(State(), stepBound) && LEASE_RENEW_INTERVAL_MS + stepBound <= LEASE_TTL_MS
      requires activeRows == [] && !busy
      requires AllForeign(between, workerId) && forall steps | steps in during :: AllForeign(steps, workerId)
      requires var s := Run(Next(State(), Reclaim, stepBound), between, stepBound); Claimable(s.rows, ids, s.now)
      requires |attempts| == |during| == |ids|
      modifies this
      ensures State() == Run(old(State()), Tick(workerId, between, ids, Outcomes(attempts), during), stepBound)
      ensures Inv(State(), stepBound) && activeRows == []
    {
      ghost var outcomes := Outcomes(attempts);
      ghost var target := Run(old(State()), Tick(workerId, between, ids, outcomes, during), stepBound);
      ClaimFirst(State(), workerId, between, ids, Rounds(workerId, outcomes, during), stepBound);
      hide Run, Rounds;
      NextKeepsInv(State(), Reclaim, stepBound);
      ReclaimStale();
      Others(between);
      NextKeepsInv(State(), Claim(workerId, ids), stepBound);
      ClaimBatch(ids);
      hide Inv, OutcomeOf, AfterRound, Next;
      for i := 0 to |ids|
        invariant Inv(State(), stepBound)
        invariant |activeRows| == |ids| - i && !busy
        invariant Run(State(), Rounds(workerId, outcomes[i..], during[i..]), stepBound) == target
      {
        RoundFirst(State(), workerId, outcomes[i..], during[i..], stepBound);
        assert outcomes[i..][1..] == outcomes[i + 1..] && during[i..][1..] == during[i + 1..];
        Round(attempts[i], during[i]);
      }
      NoRounds(State(), workerId, outcomes[|ids|..], during[|ids|..], stepBound);
    }
  }

  function AfterRound(s: System, w: nat, outcome: Outcome, during: seq<Step>, stepBound: nat): System {
    Next(Run(Next(s, Renew(w), stepBound), during, stepBound), Finish(w, outcome), stepBound)
  }

  lemma NoRounds(s: System, w: nat, outcomes: seq<Outcome>, during: seq<seq<Step>>, stepBound: nat)
    requires |outcomes| == |during| == 0
    ensures Run(s, Rounds(w, outcomes, during), stepBound) == s
  {
  }

  lemma ForeignStepLeavesWorker(s: System, step: Step, w: nat, stepBound: nat)
    requires Foreign(step, w) && w in s.workers && w < s.nextWorker
    ensures var s' := Next(s, step, stepBound); w in s'.workers && s'.workers[w] == s.workers[w]
  {
  }

  /** What others do never touches a worker's own batch. */
  lemma {:induction false} ForeignStepsLeaveWorker(s: System, steps: seq<Step>, w: nat, stepBound: nat)
    requires AllForeign(steps, w) && w in s.workers
    requires Inv(s, stepBound) && LEASE_RENEW_INTERVAL_MS + stepBound <= LEASE_TTL_MS
    ensures var s' := Run(s, steps, stepBound);
      Inv(s', stepBound) && w in s'.workers && s'.workers[w] == s.workers[w]
    decreases |steps|
  {
    if steps != [] {
      ForeignStepLeavesWorker(s, steps[0], w, stepBound);
      NextKeepsInv(s, steps[0], stepBound);
      ForeignStepsLeaveWorker(Next(s, steps[0], stepBound), steps[1..], w, stepBound);
    }
  }

  /** A step, some steps, and a step. */
  lemma RunAround(s: System, first: Step, steps: seq<Step>, last: Step, stepBound: nat)
    ensures Run(s, [first] + steps + [last], stepBound) ==
      Next(Run(Next(s, first, stepBound), steps, stepBound), last, stepBound)
  {
    OutboxSafety.RunSplits(s, [first] + steps, [last], stepBound);
    OutboxSafety.RunSplits(s, [first], steps, stepBound);
    OutboxSafety.RunOne(s, first, stepBound);
    OutboxSafety.RunOne(Run(s, [first] + steps, stepBound), last, stepBound);
  }

  lemma ClaimFirst(s: System, w: nat, between: seq<Step>, ids: seq<nat>, rest: seq<Step>, stepBound: nat)
    ensures Run(s, ([Reclaim] + between + [Claim(w, ids)]) + rest, stepBound) ==
      Run(Next(Run(Next(s, Reclaim, stepBound), between, stepBound), Claim(w, ids), stepBound), rest, stepBound)
  {
    OutboxSafety.RunSplits(s, [Reclaim] + between + [Claim(w, ids)], rest, stepBound);
    RunAround(s, Reclaim, between, Claim(w, ids), stepBound);
  }

  lemma HeadExists(s: System, w: nat, stepBound: nat)
    requires Inv(s, stepBound) && w in s.workers && s.workers[w].active != []
    ensures s.workers[w].active[0].id < |s.rows|
  {
    assert WorkerInv(s, w, stepBound);
    assert Held(s.rows, s.workers[w].active[0], w, s.workers[w], stepBound);
  }

  lemma RoundFirst(s: System, w: nat, outcomes: seq<Outcome>, during: seq<seq<Step>>, stepBound: nat)
    requires |outcomes| == |during| > 0
    ensures Run(s, Rounds(w, outcomes, during), stepBound) ==
      Run(AfterRound(s, w, outcomes[0], during[0], stepBound), Rounds(w, outcomes[1..], during[1..]), stepBound)
  {
    OutboxSafety.RunSplits(s, [Renew(w)] + during[0] + [Finish(w, outcomes[0])],
      Rounds(w, outcomes[1..], during[1..]), stepBound);
    RunAround(s, Renew(w), during[0], Finish(w, outcomes[0]), stepBound);
  }
}
