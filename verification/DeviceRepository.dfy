/** Registering and revoking a device, statement by statement, and the machine's run of the same transaction alone. */
module DeviceRepository {
  import opened Domain
  import opened DeviceRegistry

  datatype Registration = Registered | Refreshed | LimitExceeded

  /** What one registration does to the table when no other transaction is open. */
  function Outcome(rows: seq<Device>, owner: Owner, token: string): Registration {
    var active := ActiveRow(rows, token);
    if active.Some? && active.value < |rows| && rows[active.value].owner == owner then Refreshed
    else if ActiveCount(rows, owner) >= MAX_ACTIVE_DEVICES then LimitExceeded
    else Registered
  }

  function RowsAfter(rows: seq<Device>, owner: Owner, token: string): seq<Device> {
    if Outcome(rows, owner, token).Registered? then
      Published(rows, Tx(owner, token, ActiveRow(rows, token), Locked)) else rows
  }

  function ActiveOnes(rows: seq<Device>, owner: Owner): set<nat> {
    set i: nat | i < |rows| && rows[i].active && rows[i].owner == owner
  }

  lemma {:induction false} CountIsCardinality(rows: seq<Device>, owner: Owner)
    ensures ActiveCount(rows, owner) == |ActiveOnes(rows, owner)|
  {
    if rows != [] {
      var n := |rows| - 1;
      CountIsCardinality(rows[..n], owner);
      assert ActiveOnes(rows, owner) ==
        ActiveOnes(rows[..n], owner) + if rows[n].active && rows[n].owner == owner then {n} else {};
    }
  }

  predicate Bound(rows: seq<Device>, owner: Owner, token: string) {
    exists d | d in rows :: d.active && d.token == token && d.owner == owner
  }

  /** Alone, a registration refreshes an own token, is refused at ten active devices, and otherwise moves the token. */
  lemma RegistrationMeans(rows: seq<Device>, owner: Owner, token: string)
    requires OneActivePerToken(rows)
    ensures var outcome, rows' := Outcome(rows, owner, token), RowsAfter(rows, owner, token);
      && (outcome == Refreshed <==> Bound(rows, owner, token))
      && (outcome == LimitExceeded <==> !Bound(rows, owner, token) && |ActiveOnes(rows, owner)| >= 10)
      && (outcome != Registered ==> rows' == rows)
      && (outcome == Registered ==>
            && |rows'| == |rows| + 1 && rows'[|rows|] == Device(owner, token, true)
            && forall i | 0 <= i < |rows| ::
                 rows'[i] == if rows[i].token == token then rows[i].(active := false) else rows[i])
  {
    hide ActiveCount, ActiveOnes, ActiveRow;
    CountIsCardinality(rows, owner);
    ActiveRowFinds(rows, token);
    if Bound(rows, owner, token) {
      var d :| d in rows && d.active && d.token == token && d.owner == owner;
      var i :| 0 <= i < |rows| && rows[i] == d;
      var found := ActiveRow(rows, token);
      assert found.Some? && rows[found.value].token == token && found == Some(i);
    }
  }

  /** Statements that do not apply change nothing, so one script covers every outcome. */
  function Script(t: nat, owner: Owner, token: string): seq<Step> {
    [Begin(t, owner, token), StartFind(t), FinishFind(t), Refresh(t)] + [Move(t), Count(t), Insert(t), Commit(t)]
  }

  lemma {:induction false} RunSplits(s: System, a: seq<Step>, b: seq<Step>)
    ensures Run(s, a + b) == Run(Run(s, a), b)
    decreases |a|
  {
    if a == [] {
      assert a + b == b;
    } else {
      assert (a + b)[1..] == a[1..] + b;
      RunSplits(Next(s, a[0]), a[1..], b);
    }
  }

  lemma RunFour(s: System, a: Step, b: Step, c: Step, d: Step)
    ensures Run(s, [a, b, c, d]) == Next(Next(Next(Next(s, a), b), c), d)
  {
    var s1, s2, s3 := Next(s, a), Next(Next(s, a), b), Next(Next(Next(s, a), b), c);
    assert [a, b, c, d][1..] == [b, c, d] && [b, c, d][1..] == [c, d] && [c, d][1..] == [d] && [d][1..] == [];
    assert Run(s3, [d]) == Next(s3, d) && Run(s2, [c, d]) == Run(s3, [d]) && Run(s1, [b, c, d]) == Run(s2, [c, d]);
  }

  function Solo(rows: seq<Device>, t: nat, tx: Tx): System {
    System(rows, map[t := tx])
  }

  lemma SelectsItsRow(rows: seq<Device>, t: nat, owner: Owner, token: string)
    requires Outcome(rows, owner, token) != Refreshed
    ensures Run(System(rows, map[]), [Begin(t, owner, token), StartFind(t), FinishFind(t), Refresh(t)])
            == Solo(rows, t, Tx(owner, token, ActiveRow(rows, token), Found))
  {
    ActiveRowFinds(rows, token);
    RunFour(System(rows, map[]), Begin(t, owner, token), StartFind(t), FinishFind(t), Refresh(t));
    var s1 := Solo(rows, t, Tx(owner, token, None, Locked));
    assert Next(System(rows, map[]), Begin(t, owner, token)) == s1;
    var s2 := Solo(rows, t, Tx(owner, token, None, Finding(ActiveRow(rows, token))));
    assert Next(s1, StartFind(t)) == s2;
  }

  lemma RefreshesItsRow(rows: seq<Device>, t: nat, owner: Owner, token: string)
    requires Outcome(rows, owner, token) == Refreshed
    ensures Run(System(rows, map[]), [Begin(t, owner, token), StartFind(t), FinishFind(t), Refresh(t)]) ==
      System(rows, map[])
  {
    ActiveRowFinds(rows, token);
    RunFour(System(rows, map[]), Begin(t, owner, token), StartFind(t), FinishFind(t), Refresh(t));
    var s1 := Solo(rows, t, Tx(owner, token, None, Locked));
    assert Next(System(rows, map[]), Begin(t, owner, token)) == s1;
    var s2 := Solo(rows, t, Tx(owner, token, None, Finding(ActiveRow(rows, token))));
    assert Next(s1, StartFind(t)) == s2;
    var s3 := Solo(rows, t, Tx(owner, token, ActiveRow(rows, token), Found));
    assert Next(s2, FinishFind(t)) == s3;
    assert Next(s3, Refresh(t)) == System(rows, map[]);
  }

  lemma CountsAndInserts(rows: seq<Device>, t: nat, owner: Owner, token: string)
    requires OneActivePerToken(rows) && Outcome(rows, owner, token) != Refreshed
    ensures Run(Solo(rows, t, Tx(owner, token, ActiveRow(rows, token), Found)),
      [Move(t), Count(t), Insert(t), Commit(t)])
            == System(RowsAfter(rows, owner, token), map[])
  {
    var tx := Tx(owner, token, ActiveRow(rows, token), Found);
    RunFour(Solo(rows, t, tx), Move(t), Count(t), Insert(t), Commit(t));
    var n := ActiveCount(rows, owner);
    AloneMovesAndCounts(rows, t, tx);
    if n < MAX_ACTIVE_DEVICES {
      AloneInserts(rows, t, tx.(stage := Counted(n)));
    }
  }

  lemma AloneMovesAndCounts(rows: seq<Device>, t: nat, tx: Tx)
    requires tx.stage.Found? && tx.row == ActiveRow(rows, tx.token) && Outcome(rows, tx.owner, tx.token) != Refreshed
    ensures var n := ActiveCount(rows, tx.owner);
      Next(Next(Solo(rows, t, tx), Move(t)), Count(t))
      == if n >= MAX_ACTIVE_DEVICES then System(rows, map[]) else Solo(rows, t, tx.(stage := Counted(n)))
  {
    hide ActiveCount;
    ActiveRowFinds(rows, tx.token);
    assert Next(Solo(rows, t, tx), Move(t)) == Solo(rows, t, tx.(stage := Moved));
  }

  lemma AloneInserts(rows: seq<Device>, t: nat, tx: Tx)
    requires tx.stage.Counted? && tx.row == ActiveRow(rows, tx.token) && OneActivePerToken(rows)
    ensures Next(Next(Solo(rows, t, tx), Insert(t)), Commit(t)) == System(Published(rows, tx), map[])
  {
    ActiveRowFinds(rows, tx.token);
    assert !Conflicting(Solo(rows, t, tx), tx);
    assert Next(Solo(rows, t, tx), Insert(t)) == Solo(rows, t, tx.(stage := Inserted(tx.stage.count)));
  }

  /** Alone, the interleaved transaction is the sequential registration; it never meets the token conflict. */
  lemma AloneIsSequential(rows: seq<Device>, t: nat, owner: Owner, token: string)
    requires OneActivePerToken(rows)
    ensures Run(System(rows, map[]), Script(t, owner, token)) == System(RowsAfter(rows, owner, token), map[])
  {
    RunSplits(System(rows, map[]), [Begin(t, owner, token), StartFind(t), FinishFind(t), Refresh(t)],
              [Move(t), Count(t), Insert(t), Commit(t)]);
    if Outcome(rows, owner, token).Refreshed? {
      RefreshesItsRow(rows, t, owner, token);
      RunFour(System(rows, map[]), Move(t), Count(t), Insert(t), Commit(t));
    } else {
      SelectsItsRow(rows, t, owner, token);
      CountsAndInserts(rows, t, owner, token);
    }
  }

  class FcmDeviceRepository {
    var rows: seq<Device>

    constructor ()
      ensures rows == []
    {
      rows := [];
    }

    /** Revokes an earlier owner's row, checks the cap, inserts; the cap check rolls everything back. */
    method RegisterDevice(owner: Owner, token: string) returns (outcome: Registration)
      modifies this
      ensures outcome == Outcome(old(rows), owner, token)
      ensures rows == RowsAfter(old(rows), owner, token)
    {
      var before := rows;
      var activeRow := SelectActive(rows, token);
      ActiveRowFinds(rows, token);
      if activeRow.Some? {
        if rows[activeRow.value].owner == owner { return Refreshed; }
        DeactivateCounts(rows, activeRow.value, owner);
        rows := rows[activeRow.value := rows[activeRow.value].(active := false)];
      }
      var count := CountActive(rows, owner);
      if count >= MAX_ACTIVE_DEVICES {
        rows := before;
        return LimitExceeded;
      }
      rows := rows + [Device(owner, token, true)];
      return Registered;
    }

    /** Revokes a device of this owner; an unknown or foreign one stays as it is. */
    method RevokeDevice(owner: Owner, deviceId: int) returns (found: bool)
      modifies this
      ensures found <==> 0 <= deviceId < |old(rows)| && old(rows)[deviceId].owner == owner
      ensures rows == if found then Deactivate(old(rows), deviceId) else old(rows)
      ensures deviceId >= 0 ==> System(rows, map[]) == Next(System(old(rows), map[]), Revoke(owner, deviceId))
    {
      found := 0 <= deviceId < |rows| && rows[deviceId].owner == owner;
      if found && rows[deviceId].active {
        rows := rows[deviceId := rows[deviceId].(active := false)];
      }
    }

    static method SelectActive(rows: seq<Device>, token: string) returns (row: Option<nat>)
      ensures row == ActiveRow(rows, token)
    {
      var n := |rows|;
      assert rows[..n] == rows;
      while n > 0
        invariant n <= |rows| && ActiveRow(rows, token) == ActiveRow(rows[..n], token)
      {
        n := n - 1;
        assert rows[..n + 1][..n] == rows[..n];
        if rows[n].token == token && rows[n].active { return Some(n); }
      }
      row := None;
    }

    static method CountActive(rows: seq<Device>, owner: Owner) returns (count: nat)
      ensures count == ActiveCount(rows, owner)
    {
      count := 0;
      for i := 0 to |rows|
        invariant count == ActiveCount(rows[..i], owner)
      {
        assert rows[..i + 1][..i] == rows[..i];
        if rows[i].owner == owner && rows[i].active { count := count + 1; }
      }
      assert rows[..|rows|] == rows;
    }
  }
}
