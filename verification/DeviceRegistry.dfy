/**
 Device registration under interleaved transactions.  One step is one statement of one transaction;
 a step that would wait for a lock changes nothing.  A transaction sees committed rows only, holds
 its owner's advisory lock and the row it selected, and publishes its writes when it commits.
 */
module DeviceRegistry {
  import opened Domain

  const MAX_ACTIVE_DEVICES := 10

  datatype Owner = Customer(id: nat) | Provider(name: string)

  datatype Device = Device(owner: Owner, token: string, active: bool)

  datatype Stage =
    | Locked
    | Finding(candidate: Option<nat>)
    | Found
    | Moved
    | Counted(count: nat)
    | Inserted(count: nat)

  /** `row` is the row this transaction has selected for update; from `Moved` on it is revoked, uncommitted. */
  datatype Tx = Tx(owner: Owner, token: string, row: Option<nat>, stage: Stage)

  datatype System = System(rows: seq<Device>, txs: map<nat, Tx>)

  datatype Step =
    | Begin(t: nat, owner: Owner, token: string)
    | StartFind(t: nat)
    | FinishFind(t: nat)
    | Refresh(t: nat)
    | Move(t: nat)
    | Count(t: nat)
    | Insert(t: nat)
    | Commit(t: nat)
    | Rollback(t: nat)
    | Revoke(owner: Owner, i: nat)

  const EMPTY := System([], map[])

  function ActiveCount(rows: seq<Device>, owner: Owner): nat {
    if rows == [] then 0
    else
      var last := rows[|rows| - 1];
      ActiveCount(rows[..|rows| - 1], owner) + if last.owner == owner && last.active then 1 else 0
  }

  function ActiveRow(rows: seq<Device>, token: string): Option<nat> {
    if rows == [] then None
    else
      var n := |rows| - 1;
      if rows[n].token == token && rows[n].active then Some(n) else ActiveRow(rows[..n], token)
  }

  function Deactivate(rows: seq<Device>, i: nat): seq<Device> {
    if i < |rows| then rows[i := rows[i].(active := false)] else rows
  }

  predicate LockedByOther(s: System, i: nat, t: nat) {
    exists u | u in s.txs :: u != t && s.txs[u].row == Some(i)
  }

  predicate Writing(tx: Tx) {
    tx.stage.Moved? || tx.stage.Counted? || tx.stage.Inserted?
  }

  predicate SameOwner(s: System, tx: Tx) {
    tx.row.Some? && tx.row.value < |s.rows| && s.rows[tx.row.value].owner == tx.owner
  }

  /** Another transaction's uncommitted write decides whether the token is free. */
  predicate MustWait(s: System, t: nat)
    requires t in s.txs
  {
    exists u | u in s.txs :: u != t && s.txs[u].token == s.txs[t].token &&
      (s.txs[u].stage.Inserted? || (Writing(s.txs[u]) && s.txs[u].row.Some?))
  }

  /** Some committed active row has the token, other than the one this transaction revokes. */
  predicate Conflicting(s: System, tx: Tx) {
    exists j | 0 <= j < |s.rows| :: s.rows[j].active && s.rows[j].token == tx.token && tx.row != Some(j)
  }

  function Published(rows: seq<Device>, tx: Tx): seq<Device> {
    (if tx.row.Some? then Deactivate(rows, tx.row.value) else rows) + [Device(tx.owner, tx.token, true)]
  }

  function Set(s: System, t: nat, tx: Tx): System {
    s.(txs := s.txs[t := tx])
  }

  function End(s: System, t: nat): System {
    s.(txs := s.txs - {t})
  }

  function NextOf(s: System, step: Step, tx: Tx): System
    requires !step.Begin? && !step.Revoke? && step.t in s.txs && tx == s.txs[step.t]
  {
    match step
    case StartFind(t) => if tx.stage.Locked? then Set(s, t, tx.(stage := Finding(ActiveRow(s.rows, tx.token)))) else s
    case FinishFind(t) =>
      if !tx.stage.Finding? then s
      else
        var candidate := tx.stage.candidate;
        if candidate.None? then Set(s, t, tx.(stage := Found))
        else if LockedByOther(s, candidate.value, t) then s
        else
          var active := candidate.value < |s.rows| && s.rows[candidate.value].active;
          Set(s, t, tx.(stage := Found, row := if active then candidate else None))
    case Refresh(t) => if tx.stage.Found? && SameOwner(s, tx) then End(s, t) else s
    case Move(t) => if tx.stage.Found? && !SameOwner(s, tx) then Set(s, t, tx.(stage := Moved)) else s
    case Count(t) =>
      if !tx.stage.Moved? then s
      else
        var n := ActiveCount(s.rows, tx.owner);
        if n >= MAX_ACTIVE_DEVICES then End(s, t) else Set(s, t, tx.(stage := Counted(n)))
    case Insert(t) =>
      if !tx.stage.Counted? || MustWait(s, t) then s
      else if Conflicting(s, tx) then End(s, t)
      else Set(s, t, tx.(stage := Inserted(tx.stage.count)))
    case Commit(t) => if tx.stage.Inserted? then End(s.(rows := Published(s.rows, tx)), t) else s
    case Rollback(t) => End(s, t)
  }

  function Next(s: System, step: Step): System {
    match step
    case Begin(t, owner, token) =>
      if t !in s.txs && (forall u | u in s.txs :: s.txs[u].owner != owner) then
        Set(s, t, Tx(owner, token, None, Locked)) else s
    case Revoke(owner, i) =>
      if i < |s.rows| && s.rows[i].owner == owner && (forall u | u in s.txs :: s.txs[u].row != Some(i)) then
        s.(rows := Deactivate(s.rows, i))
      else s
    case _ => if step.t in s.txs then NextOf(s, step, s.txs[step.t]) else s
  }

  function Run(s: System, steps: seq<Step>): System
    decreases |steps|
  {
    if steps == [] then s else Run(Next(s, steps[0]), steps[1..])
  }

  // ---------------------------------------------------------------- the invariant

  predicate OneActivePerToken(rows: seq<Device>) {
    forall i, j | 0 <= i < j < |rows| && rows[i].active && rows[j].active :: rows[i].token != rows[j].token
  }

  ghost predicate Capped(rows: seq<Device>) {
    forall owner :: ActiveCount(rows, owner) <= MAX_ACTIVE_DEVICES
  }

  predicate TxInv(rows: seq<Device>, tx: Tx) {
    && (tx.row.Some? ==>
          && !tx.stage.Locked? && !tx.stage.Finding?
          && tx.row.value < |rows| && rows[tx.row.value].active && rows[tx.row.value].token == tx.token)
    && (tx.stage.Finding? && tx.stage.candidate.Some? ==>
          tx.stage.candidate.value < |rows| && rows[tx.stage.candidate.value].token == tx.token)
    && (Writing(tx) && tx.row.Some? ==> rows[tx.row.value].owner != tx.owner)
    && (tx.stage.Counted? || tx.stage.Inserted? ==> ActiveCount(rows, tx.owner) <= tx.stage.count < MAX_ACTIVE_DEVICES)
    && (tx.stage.Inserted? ==> forall j | 0 <= j < |rows| && rows[j].active && rows[j].token == tx.token ::
      tx.row == Some(j))
  }

  predicate Apart(a: Tx, b: Tx) {
    && a.owner != b.owner
    && (a.row.Some? ==> a.row != b.row)
    && (a.stage.Inserted? && b.stage.Inserted? ==> a.token != b.token)
  }

  ghost predicate Inv(s: System) {
    && OneActivePerToken(s.rows) && Capped(s.rows)
    && (forall t | t in s.txs :: TxInv(s.rows, s.txs[t]))
    && (forall t, u | t in s.txs && u in s.txs && t != u :: Apart(s.txs[t], s.txs[u]))
  }

  // ---------------------------------------------------------------- counting

  lemma {:induction false} DeactivateCounts(rows: seq<Device>, i: nat, owner: Owner)
    requires i < |rows|
    ensures ActiveCount(Deactivate(rows, i), owner) ==
      ActiveCount(rows, owner) - if rows[i].owner == owner && rows[i].active then 1 else 0
    decreases |rows|
  {
    var n := |rows| - 1;
    if i < n {
      assert Deactivate(rows, i)[..n] == Deactivate(rows[..n], i);
      DeactivateCounts(rows[..n], i, owner);
    } else {
      assert Deactivate(rows, i)[..n] == rows[..n];
    }
  }

  lemma AppendCounts(rows: seq<Device>, d: Device, owner: Owner)
    ensures ActiveCount(rows + [d], owner) == ActiveCount(rows, owner) + if d.owner == owner && d.active then 1 else 0
  {
    assert (rows + [d])[..|rows|] == rows;
  }

  lemma {:induction false} ActiveRowFinds(rows: seq<Device>, token: string)
    ensures var found := ActiveRow(rows, token);
      && (found.Some? ==> found.value < |rows| && rows[found.value].active && rows[found.value].token == token)
      && (found.None? ==> forall j | 0 <= j < |rows| :: !(rows[j].active && rows[j].token == token))
  {
    if rows != [] {
      ActiveRowFinds(rows[..|rows| - 1], token);
      assert forall j | 0 <= j < |rows| - 1 :: rows[..|rows| - 1][j] == rows[j];
    }
  }

  // ---------------------------------------------------------------- every step keeps the invariant

  /** One transaction moves on, or ends, and no row changes. */
  lemma SetKeepsInv(s: System, t: nat, tx: Tx)
    requires Inv(s) && TxInv(s.rows, tx)
    requires forall u | u in s.txs && u != t :: Apart(tx, s.txs[u]) && Apart(s.txs[u], tx)
    ensures Inv(Set(s, t, tx))
  {
    hide TxInv, Apart, OneActivePerToken, Capped;
  }

  lemma EndKeepsInv(s: System, t: nat)
    requires Inv(s)
    ensures Inv(End(s, t))
  {
    hide TxInv, Apart, OneActivePerToken, Capped;
  }

  /** Revoking a row that no other transaction holds. */
  lemma DeactivationKeepsInv(s: System, i: nat)
    requires Inv(s) && i < |s.rows|
    requires forall u | u in s.txs :: s.txs[u].row != Some(i)
    ensures Inv(s.(rows := Deactivate(s.rows, i)))
  {
    hide Apart;
    var rows' := Deactivate(s.rows, i);
    forall owner ensures ActiveCount(rows', owner) <= ActiveCount(s.rows, owner) {
      DeactivateCounts(s.rows, i, owner);
    }
    forall t | t in s.txs ensures TxInv(rows', s.txs[t]) {
      DeactivationKeepsTxInv(s.rows, i, s.txs[t]);
    }
  }

  lemma DeactivationKeepsTxInv(rows: seq<Device>, i: nat, tx: Tx)
    requires TxInv(rows, tx) && i < |rows| && tx.row != Some(i)
    requires ActiveCount(Deactivate(rows, i), tx.owner) <= ActiveCount(rows, tx.owner)
    ensures TxInv(Deactivate(rows, i), tx)
  {
    hide ActiveCount;
  }

  /** Publishing a new active row of an owner and a token that no other transaction holds. */
  lemma AppendKeepsInv(s: System, owner: Owner, token: string)
    requires Inv(s) && ActiveCount(s.rows, owner) < MAX_ACTIVE_DEVICES
    requires forall j | 0 <= j < |s.rows| && s.rows[j].active :: s.rows[j].token != token
    requires forall u | u in s.txs :: s.txs[u].owner != owner && (s.txs[u].stage.Inserted? ==> s.txs[u].token != token)
    ensures Inv(s.(rows := s.rows + [Device(owner, token, true)]))
  {
    hide Apart;
    var d := Device(owner, token, true);
    forall o ensures ActiveCount(s.rows + [d], o) <= MAX_ACTIVE_DEVICES {
      AppendCounts(s.rows, d, o);
    }
    forall t | t in s.txs ensures TxInv(s.rows + [d], s.txs[t]) {
      AppendCounts(s.rows, d, s.txs[t].owner);
      AppendKeepsTxInv(s.rows, d, s.txs[t]);
    }
  }

  lemma AppendKeepsTxInv(rows: seq<Device>, d: Device, tx: Tx)
    requires TxInv(rows, tx) && d.owner != tx.owner && (tx.stage.Inserted? ==> d.token != tx.token)
    requires ActiveCount(rows + [d], tx.owner) == ActiveCount(rows, tx.owner)
    ensures TxInv(rows + [d], tx)
  {
    hide ActiveCount;
  }

  lemma CommitKeepsInv(s: System, t: nat)
    requires Inv(s) && t in s.txs && s.txs[t].stage.Inserted?
    ensures Inv(Next(s, Commit(t)))
  {
    var tx := s.txs[t];
    assert TxInv(s.rows, tx);
    forall u | u in s.txs && u != t ensures Apart(tx, s.txs[u]) && Apart(s.txs[u], tx) {
    }
    var ended := End(s, t);
    EndKeepsInv(s, t);
    if tx.row.Some? {
      DeactivateCounts(s.rows, tx.row.value, tx.owner);
      DeactivationKeepsInv(ended, tx.row.value);
      AppendKeepsInv(ended.(rows := Deactivate(s.rows, tx.row.value)), tx.owner, tx.token);
    } else {
      AppendKeepsInv(ended, tx.owner, tx.token);
    }
  }

  lemma StatementKeepsInv(s: System, step: Step)
    requires Inv(s) && !step.Begin? && !step.Revoke? && !step.Commit? && step.t in s.txs
    ensures Inv(Next(s, step))
  {
    var t, tx := step.t, s.txs[step.t];
    var s' := Next(s, step);
    assert TxInv(s.rows, tx);
    ActiveRowFinds(s.rows, tx.token);
    if s' != s && t in s'.txs {
      var tx' := s'.txs[t];
      StatementKeepsTx(s, step, tx');
      SetKeepsInv(s, t, tx');
    } else {
      EndKeepsInv(s, t);
    }
  }

  lemma StatementKeepsTx(s: System, step: Step, tx': Tx)
    requires Inv(s) && !step.Begin? && !step.Revoke? && !step.Commit? && step.t in s.txs
    requires Next(s, step) == Set(s, step.t, tx') && Next(s, step) != s
    ensures TxInv(s.rows, tx')
    ensures forall u | u in s.txs && u != step.t :: Apart(tx', s.txs[u]) && Apart(s.txs[u], tx')
  {
    hide ActiveCount, Capped, OneActivePerToken;
    var t, tx := step.t, s.txs[step.t];
    assert tx' == Next(s, step).txs[t];
    assert TxInv(s.rows, tx);
    ActiveRowFinds(s.rows, tx.token);
    forall u | u in s.txs && u != t ensures Apart(tx', s.txs[u]) && Apart(s.txs[u], tx') {
      assert Apart(tx, s.txs[u]) && Apart(s.txs[u], tx);
    }
  }

  lemma NextKeepsInv(s: System, step: Step)
    requires Inv(s)
    ensures Inv(Next(s, step))
  {
    match step
    case Begin(t, owner, token) =>
      if t !in s.txs && (forall u | u in s.txs :: s.txs[u].owner != owner) {
        SetKeepsInv(s, t, Tx(owner, token, None, Locked));
      }
    case Revoke(owner, i) =>
      if i < |s.rows| && (forall u | u in s.txs :: s.txs[u].row != Some(i)) {
        DeactivationKeepsInv(s, i);
      }
    case Commit(t) => if t in s.txs && s.txs[t].stage.Inserted? { CommitKeepsInv(s, t); }
    case _ => if step.t in s.txs { StatementKeepsInv(s, step); }
  }

  lemma {:induction false} RunKeepsInv(s: System, steps: seq<Step>)
    requires Inv(s)
    ensures Inv(Run(s, steps))
    decreases |steps|
  {
    if steps != [] {
      NextKeepsInv(s, steps[0]);
      RunKeepsInv(Next(s, steps[0]), steps[1..]);
    }
  }

  // ---------------------------------------------------------------- what holds of every run

  /** However transactions interleave, an owner has at most ten active devices and a token one active row. */
  lemma CapAndBindingHold(steps: seq<Step>, owner: Owner)
    ensures ActiveCount(Run(EMPTY, steps).rows, owner) <= MAX_ACTIVE_DEVICES
    ensures OneActivePerToken(Run(EMPTY, steps).rows)
  {
    EmptyHasInv();
    RunKeepsInv(EMPTY, steps);
  }

  lemma EmptyHasInv()
    ensures Inv(EMPTY)
  {
  }

  /** The transaction is open in every state from `s` to the end of the steps. */
  predicate StaysOpen(s: System, steps: seq<Step>, t: nat)
    decreases |steps|
  {
    t in s.txs && (steps == [] || StaysOpen(Next(s, steps[0]), steps[1..], t))
  }

  /** While an owner's transaction is open, no step but its own commit adds to the owner's active devices. */
  lemma StepOnlyLowersCount(s: System, step: Step, t: nat)
    requires Inv(s) && t in s.txs && t in Next(s, step).txs
    ensures Next(s, step).txs[t].owner == s.txs[t].owner && Next(s, step).txs[t].token == s.txs[t].token
    ensures ActiveCount(Next(s, step).rows, s.txs[t].owner) <= ActiveCount(s.rows, s.txs[t].owner)
  {
    var owner := s.txs[t].owner;
    if step.Revoke? && step.i < |s.rows| {
      DeactivateCounts(s.rows, step.i, owner);
    }
    if step.Commit? && step.t in s.txs && s.txs[step.t].stage.Inserted? {
      PublishingLowersCount(s, step.t, t);
    }
  }

  lemma PublishingLowersCount(s: System, u: nat, t: nat)
    requires Inv(s) && t in s.txs && u in s.txs && u != t && s.txs[u].stage.Inserted?
    ensures ActiveCount(Published(s.rows, s.txs[u]), s.txs[t].owner) <= ActiveCount(s.rows, s.txs[t].owner)
  {
    var tx, owner := s.txs[u], s.txs[t].owner;
    assert TxInv(s.rows, tx) && Apart(tx, s.txs[t]);
    var freed := if tx.row.Some? then Deactivate(s.rows, tx.row.value) else s.rows;
    if tx.row.Some? {
      DeactivateCounts(s.rows, tx.row.value, owner);
    }
    AppendCounts(freed, Device(tx.owner, tx.token, true), owner);
  }

  /** So from its begin to its end, other transactions can only lower an owner's number of active devices. */
  lemma {:induction false} CountOnlyFalls(s: System, steps: seq<Step>, t: nat)
    requires Inv(s) && StaysOpen(s, steps, t)
    ensures var s' := Run(s, steps);
      && t in s'.txs && s'.txs[t].owner == s.txs[t].owner && s'.txs[t].token == s.txs[t].token
      && ActiveCount(s'.rows, s.txs[t].owner) <= ActiveCount(s.rows, s.txs[t].owner)
    decreases |steps|
  {
    hide Inv, Next, ActiveCount;
    if steps != [] {
      StepOnlyLowersCount(s, steps[0], t);
      NextKeepsInv(s, steps[0]);
      CountOnlyFalls(Next(s, steps[0]), steps[1..], t);
    }
  }

  /** The number an open transaction counted bounds its owner's active devices until it commits. */
  lemma CountedBoundsActive(steps: seq<Step>, t: nat)
    requires t in Run(EMPTY, steps).txs
    requires var stage := Run(EMPTY, steps).txs[t].stage; stage.Counted? || stage.Inserted?
    ensures var s := Run(EMPTY, steps);
      ActiveCount(s.rows, s.txs[t].owner) <= s.txs[t].stage.count < MAX_ACTIVE_DEVICES
  {
    EmptyHasInv();
    RunKeepsInv(EMPTY, steps);
    assert TxInv(Run(EMPTY, steps).rows, Run(EMPTY, steps).txs[t]);
  }

  /** Rows are only added or revoked: no row's owner or token changes and no revoked row becomes active again. */
  predicate OnlyRevoked(rows: seq<Device>, rows': seq<Device>) {
    && |rows| <= |rows'|
    && forall i | 0 <= i < |rows| :: rows'[i] == rows[i] || rows'[i] == rows[i].(active := false)
  }

  lemma {:induction false} RowsOnlyRevoked(s: System, steps: seq<Step>)
    requires Inv(s)
    ensures OnlyRevoked(s.rows, Run(s, steps).rows)
    decreases |steps|
  {
    if steps != [] {
      StepOnlyRevokes(s, steps[0]);
      NextKeepsInv(s, steps[0]);
      RowsOnlyRevoked(Next(s, steps[0]), steps[1..]);
    }
  }

  lemma StepOnlyRevokes(s: System, step: Step)
    ensures OnlyRevoked(s.rows, Next(s, step).rows)
    ensures !step.Commit? && !step.Revoke? ==> Next(s, step).rows == s.rows
  {
  }

  /** Rows change only by a commit of another transaction or a revocation: `t` has published nothing yet. */
  ghost predicate OthersOnly(s: System, steps: seq<Step>, t: nat)
    decreases |steps|
  {
    steps != [] ==>
      && (Next(s, steps[0]).rows != s.rows ==> steps[0].Revoke? || (steps[0].Commit? && steps[0].t != t))
      && OthersOnly(Next(s, steps[0]), steps[1..], t)
  }

  /** The row that an open transaction has selected stays as it is: nobody else can write it, and it has not yet. */
  lemma StepKeepsSelected(s: System, step: Step, t: nat)
    requires Inv(s) && t in s.txs && s.txs[t].row.Some? && step != Commit(t)
    ensures var i := s.txs[t].row.value; i < |s.rows| && s.rows[i].active && Next(s, step).rows[i] == s.rows[i]
    ensures t in Next(s, step).txs ==> Next(s, step).txs[t].row == s.txs[t].row
  {
    assert TxInv(s.rows, s.txs[t]);
    if step.Commit? && step.t in s.txs {
      assert Apart(s.txs[t], s.txs[step.t]);
    }
  }

  lemma {:induction false} OpenKeepsSelected(s: System, steps: seq<Step>, t: nat)
    requires Inv(s) && StaysOpen(s, steps, t)
    ensures OthersOnly(s, steps, t)
    ensures s.txs[t].row.Some? ==>
      && var i, s' := s.txs[t].row.value, Run(s, steps);
      i < |s.rows| <= |s'.rows| && t in s'.txs && s'.txs[t].row == Some(i) && s'.rows[i] == s.rows[i]
        && s.rows[i].active
    decreases |steps|
  {
    if steps == [] {
      assert TxInv(s.rows, s.txs[t]);
    } else {
      var s1 := Next(s, steps[0]);
      assert steps[0] != Commit(t) || s1 == s;
      if s.txs[t].row.Some? && s1 != s {
        StepKeepsSelected(s, steps[0], t);
      }
      StepOnlyRevokes(s, steps[0]);
      NextKeepsInv(s, steps[0]);
      OpenKeepsSelected(s1, steps[1..], t);
    }
  }

  /**
   A registration that ends without committing, at whatever statement and however others interleave, has
   changed no row from its begin on, and the binding it had selected is as it was.
   */
  lemma FailureLeavesBindings(s: System, steps: seq<Step>, t: nat, last: Step)
    requires Inv(s) && StaysOpen(s, steps, t)
    requires t !in Next(Run(s, steps), last).txs && last != Commit(t)
    ensures OthersOnly(s, steps, t) && Next(Run(s, steps), last).rows == Run(s, steps).rows
    ensures s.txs[t].row.Some? ==>
      && var i, rows := s.txs[t].row.value, Next(Run(s, steps), last).rows;
      i < |s.rows| && i < |rows| && rows[i] == s.rows[i] && rows[i].active && rows[i].token == s.txs[t].token
  {
    OpenKeepsSelected(s, steps, t);
    assert TxInv(s.rows, s.txs[t]);
    CountOnlyFalls(s, steps, t);
    EndingWritesNothing(Run(s, steps), last, t);
  }

  lemma EndingWritesNothing(s: System, last: Step, t: nat)
    requires t in s.txs && t !in Next(s, last).txs && last != Commit(t)
    ensures Next(s, last).rows == s.rows
  {
  }

  /** A commit rebinds the token to the registering owner and revokes nothing but the token's earlier row. */
  lemma CommitBindsToken(s: System, t: nat)
    requires Inv(s) && t in s.txs && s.txs[t].stage.Inserted?
    ensures var rows := Next(s, Commit(t)).rows;
      && ActiveRow(rows, s.txs[t].token) == Some(|s.rows|) && |rows| == |s.rows| + 1
      && rows[|s.rows|] == Device(s.txs[t].owner, s.txs[t].token, true)
      && forall i | 0 <= i < |s.rows| :: rows[i] == if s.rows[i].token == s.txs[t].token then
        s.rows[i].(active := false) else s.rows[i]
  {
    assert TxInv(s.rows, s.txs[t]);
  }

  /** What a transaction that found `candidate` when its select began has made of it. */
  ghost predicate Selected(s: System, t: nat, candidate: Option<nat>) {
    && t in s.txs
    && var tx := s.txs[t];
    if tx.stage.Finding? then tx.stage.candidate == candidate
    else
      && !tx.stage.Locked?
      && (tx.row == candidate
          || (tx.row.None? && candidate.Some? && candidate.value < |s.rows| && !s.rows[candidate.value].active))
  }

  lemma StepKeepsSelection(s: System, step: Step, t: nat, candidate: Option<nat>)
    requires Inv(s) && Selected(s, t, candidate) && t in Next(s, step).txs
    ensures Selected(Next(s, step), t, candidate)
  {
    assert TxInv(s.rows, s.txs[t]);
    StepOnlyRevokes(s, step);
  }

  lemma {:induction false} OpenKeepsSelection(s: System, steps: seq<Step>, t: nat, candidate: Option<nat>)
    requires Inv(s) && Selected(s, t, candidate) && StaysOpen(s, steps, t)
    ensures Selected(Run(s, steps), t, candidate)
    decreases |steps|
  {
    hide Inv, Next, Selected;
    if steps != [] {
      StepKeepsSelection(s, steps[0], t, candidate);
      NextKeepsInv(s, steps[0]);
      OpenKeepsSelection(Next(s, steps[0]), steps[1..], t, candidate);
    }
  }

  /** Some row with the token is active that the table did not have when the select began. */
  predicate BoundSince(rows: seq<Device>, before: nat, token: string) {
    exists j | before <= j < |rows| :: rows[j].active && rows[j].token == token
  }

  /**
   The token-conflict refusal is exactly the race it is for: an insert that need not wait is refused if and only
   if another transaction has bound the token since this one began its select.
   */
  lemma ConflictIffBoundSince(s: System, steps: seq<Step>, t: nat)
    requires Inv(s) && t in s.txs && s.txs[t].stage.Locked?
    requires StaysOpen(Next(s, StartFind(t)), steps, t)
    requires var s' := Run(Next(s, StartFind(t)), steps); t in s'.txs && s'.txs[t].stage.Counted? && !MustWait(s', t)
    ensures var s' := Run(Next(s, StartFind(t)), steps);
      t !in Next(s', Insert(t)).txs <==> BoundSince(s'.rows, |s.rows|, s.txs[t].token)
  {
    var s1 := Next(s, StartFind(t));
    var s2 := Run(s1, steps);
    var candidate := ActiveRow(s.rows, s.txs[t].token);
    assert s1 == Set(s, t, s.txs[t].(stage := Finding(candidate)));
    assert Selected(s1, t, candidate);
    NextKeepsInv(s, StartFind(t));
    OpenKeepsSelection(s1, steps, t, candidate);
    CountOnlyFalls(s1, steps, t);
    RowsOnlyRevoked(s1, steps);
    ConflictingIffBound(s.rows, s2, t, candidate);
  }

  lemma ConflictingIffBound(rows: seq<Device>, s: System, t: nat, candidate: Option<nat>)
    requires OnlyRevoked(rows, s.rows) && OneActivePerToken(rows)
    requires Selected(s, t, candidate) && s.txs[t].stage.Counted? && candidate == ActiveRow(rows, s.txs[t].token)
    ensures Conflicting(s, s.txs[t]) <==> BoundSince(s.rows, |rows|, s.txs[t].token)
  {
    var tx := s.txs[t];
    ActiveRowFinds(rows, tx.token);
    forall j | 0 <= j < |s.rows| && s.rows[j].active && s.rows[j].token == tx.token && tx.row != Some(j)
      ensures j >= |rows|
    {
    }
  }
}
