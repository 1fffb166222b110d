/**
 Who may stop the one foreground location service: the process-memory authority state, call by
 call, and what holds over every sequence of calls.  Each call carries what it saw of the service.
 */
module ServiceAuthority {
  import opened Domain

  const REMEMBERED := 32

  datatype Order = Order(engineSequence: int, runtimeSequence: int)

  predicate Before(a: Order, b: Order) {
    a.engineSequence < b.engineSequence
      || (a.engineSequence == b.engineSequence && a.runtimeSequence < b.runtimeSequence)
  }

  datatype StopDecision = Requested | AlreadyStopped | StaleCaller

  datatype PendingStop = ByGeneration(generation: string) | ByZeroAuthority(stopRequest: string)

  /** The two remembered sets keep their insertion order, oldest first. */
  datatype Authority = Authority(
    epoch: int,
    runtimeId: Option<string>,
    order: Order,
    generation: Option<string>,
    pendingStop: Option<PendingStop>,
    lastSeenRunning: bool,
    stoppedGenerations: seq<string>,
    completedStops: seq<string>)

  const INITIAL := Authority(0, None, Order(-1, -1), None, None, false, [], [])

  datatype Call =
    | BeginRuntime(runtimeId: string, order: Order)
    | Claim(runtimeId: string, epoch: int, generation: string, running: bool)
    | Release(generation: string)
    | StopGeneration(generation: string, running: bool)
    | StopForZeroAuthority(runtimeId: string, epoch: int, stopRequest: string, running: bool)
    | TaskDestroyed(running: bool)

  datatype Reply = Epoch(value: int) | Granted(ok: bool) | Decided(decision: StopDecision) | Nothing

  datatype Result = Result(state: Authority, reply: Reply, dispatched: bool)

  // ---------------------------------------------------------------- one call

  function LastOf(history: seq<string>): seq<string> {
    if |history| > REMEMBERED then history[|history| - REMEMBERED..] else history
  }

  function Remember(remembered: seq<string>, value: string): seq<string> {
    LastOf(if value in remembered then remembered else remembered + [value])
  }

  function Observe(s: Authority, running: bool): Authority {
    if running && !s.lastSeenRunning then s.(stoppedGenerations := [], completedStops := [], lastSeenRunning := true)
    else s.(lastSeenRunning := running)
  }

  predicate Current(s: Authority, runtimeId: string, epoch: int) {
    s.runtimeId == Some(runtimeId) && s.epoch == epoch
  }

  function Begin(s: Authority, runtimeId: string, order: Order): Result {
    if Before(order, s.order) || (order == s.order && Some(runtimeId) != s.runtimeId) then Result(s, Epoch(-1), false)
    else if order == s.order then Result(s, Epoch(s.epoch), false)
    else Result(s.(epoch := s.epoch + 1, runtimeId := Some(runtimeId), order := order), Epoch(s.epoch + 1), false)
  }

  function ClaimFor(s: Authority, runtimeId: string, epoch: int, generation: string, running: bool): Result {
    if !Current(s, runtimeId, epoch) || (s.pendingStop.Some? && running) then Result(s, Granted(false), false)
    else Result(s.(generation := Some(generation), pendingStop := None), Granted(true), false)
  }

  function StopOwned(s: Authority, generation: string, running: bool): Result {
    if s.generation != Some(generation) then
      Result(s, Decided(if generation in s.stoppedGenerations then AlreadyStopped else StaleCaller), false)
    else if s.pendingStop.Some? then Result(s, Decided(AlreadyStopped), false)
    else
      var stopped := s.(generation := None, stoppedGenerations := Remember(s.stoppedGenerations, generation));
      if !running then Result(stopped, Decided(AlreadyStopped), false)
      else Result(stopped.(pendingStop := Some(ByGeneration(generation))), Decided(Requested), true)
  }

  function StopAll(s: Authority, runtimeId: string, epoch: int, stopRequest: string, running: bool): Result {
    if !Current(s, runtimeId, epoch) then Result(s, Decided(StaleCaller), false)
    else if stopRequest in s.completedStops || s.pendingStop.Some? then Result(s, Decided(AlreadyStopped), false)
    else
      var stopped := s.(generation := None, completedStops := Remember(s.completedStops, stopRequest));
      if !running then Result(stopped, Decided(AlreadyStopped), false)
      else Result(stopped.(pendingStop := Some(ByZeroAuthority(stopRequest))), Decided(Requested), true)
  }

  function Handle(s: Authority, call: Call): Result {
    match call
    case BeginRuntime(runtimeId, order) => Begin(s, runtimeId, order)
    case Claim(runtimeId, epoch, generation, running) => ClaimFor(Observe(s, running), runtimeId, epoch, generation,
      running)
    case Release(generation) => Result(if s.generation == Some(generation) then
      s.(generation := None) else s, Nothing, false)
    case StopGeneration(generation, running) => StopOwned(Observe(s, running), generation, running)
    case StopForZeroAuthority(runtimeId, epoch, stopRequest, running) => StopAll(Observe(s, running), runtimeId,
      epoch, stopRequest, running)
    case TaskDestroyed(running) =>
      var seen := Observe(s, running);
      Result(if running then seen else seen.(pendingStop := None), Nothing, false)
  }

  function Run(s: Authority, calls: seq<Call>): Authority {
    if calls == [] then s else Handle(Run(s, calls[..|calls| - 1]), calls[|calls| - 1]).state
  }

  /** Whether the n-th call of a run asks Android to stop the service. */
  predicate Dispatches(calls: seq<Call>, n: nat)
    requires n < |calls|
  {
    Handle(Run(INITIAL, calls[..n]), calls[n]).dispatched
  }

  predicate SeesStopped(call: Call) {
    match call
    case Claim(_, _, _, running) => !running
    case StopGeneration(_, running) => !running
    case StopForZeroAuthority(_, _, _, running) => !running
    case TaskDestroyed(running) => !running
    case _ => false
  }

  // ---------------------------------------------------------------- every state

  predicate Distinct(s: seq<string>) {
    forall i, j | 0 <= i < j < |s| :: s[i] != s[j]
  }

  predicate Inv(s: Authority) {
    && (s.pendingStop.Some? ==> s.generation.None?)
    && s.epoch >= 0 && (s.runtimeId.None? ==> s.epoch == 0)
    && |s.stoppedGenerations| <= REMEMBERED && Distinct(s.stoppedGenerations)
    && |s.completedStops| <= REMEMBERED && Distinct(s.completedStops)
  }

  lemma RememberKeepsCap(remembered: seq<string>, value: string)
    requires |remembered| <= REMEMBERED && Distinct(remembered)
    ensures |Remember(remembered, value)| <= REMEMBERED && Distinct(Remember(remembered, value))
    ensures value in Remember(remembered, value)
  {
    var after := Remember(remembered, value);
    if value !in remembered {
      assert after[|after| - 1] == value;
    }
  }

  lemma HandleKeepsInv(s: Authority, call: Call)
    requires Inv(s)
    ensures Inv(Handle(s, call).state)
  {
    hide Remember, Distinct;
    assert Distinct([]) by { NothingRemembered(); }
    if call.StopGeneration? {
      RememberKeepsCap(Observe(s, call.running).stoppedGenerations, call.generation);
    } else if call.StopForZeroAuthority? {
      RememberKeepsCap(Observe(s, call.running).completedStops, call.stopRequest);
    }
  }

  lemma NothingRemembered()
    ensures Distinct([])
  {
  }

  lemma {:induction false} RunKeepsInv(calls: seq<Call>)
    ensures Inv(Run(INITIAL, calls))
    ensures |Run(INITIAL, calls).stoppedGenerations| <= 32 && |Run(INITIAL, calls).completedStops| <= 32
  {
    if calls != [] {
      RunKeepsInv(calls[..|calls| - 1]);
      HandleKeepsInv(Run(INITIAL, calls[..|calls| - 1]), calls[|calls| - 1]);
    }
  }

  /** A pending stop leaves no generation current, so stopping the current generation never finds one pending. */
  lemma PendingMeansNoGeneration(calls: seq<Call>, generation: string, running: bool)
    ensures var s := Observe(Run(INITIAL, calls), running);
      s.generation == Some(generation) ==>
        && s.pendingStop.None?
        && StopOwned(s, generation, running).dispatched == running
  {
    RunKeepsInv(calls);
  }

  // ---------------------------------------------------------------- stops

  /** A pending stop is cleared only by a call that sees the service stopped. */
  lemma PendingPersists(s: Authority, call: Call)
    requires s.pendingStop.Some? && !SeesStopped(call)
    ensures Handle(s, call).state.pendingStop == s.pendingStop && !Handle(s, call).dispatched
  {
  }

  lemma {:induction false} PendingUntilSeenStopped(calls: seq<Call>, i: nat, j: nat)
    requires i < j <= |calls| && Dispatches(calls, i)
    requires forall k | i < k < j :: !SeesStopped(calls[k])
    ensures Run(INITIAL, calls[..j]).pendingStop.Some?
    decreases j
  {
    assert calls[..j][..j - 1] == calls[..j - 1];
    if j > i + 1 {
      PendingUntilSeenStopped(calls, i, j - 1);
      PendingPersists(Run(INITIAL, calls[..j - 1]), calls[j - 1]);
    }
  }

  /** Between any two dispatched stops some call saw the service not running. */
  lemma StopsAreSeparated(calls: seq<Call>, i: nat, j: nat)
    requires i < j < |calls| && Dispatches(calls, i) && Dispatches(calls, j)
    ensures exists k :: i < k < j && SeesStopped(calls[k])
  {
    if forall k | i < k < j :: !SeesStopped(calls[k]) {
      PendingUntilSeenStopped(calls, i, j);
      NoDispatchWhilePending(Run(INITIAL, calls[..j]), calls[j]);
    }
  }

  lemma NoDispatchWhilePending(s: Authority, call: Call)
    requires s.pendingStop.Some?
    ensures !Handle(s, call).dispatched
  {
  }

  /** A dispatch leaves its caller without authority and is made only by the owner or the current runtime. */
  lemma OnlyTheAuthorityStops(s: Authority, call: Call)
    requires Handle(s, call).dispatched
    ensures call.StopGeneration? || call.StopForZeroAuthority?
    ensures call.running && s.pendingStop.None?
    ensures call.StopGeneration? ==> s.generation == Some(call.generation)
    ensures call.StopForZeroAuthority? ==> Current(s, call.runtimeId, call.epoch)
    ensures Handle(s, call).state.generation.None? && Handle(s, call).state.pendingStop.Some?
  {
  }

  /** Repeating any call changes nothing more and dispatches nothing more. */
  lemma RepeatingChangesNothing(s: Authority, call: Call)
    requires Inv(s)
    ensures var first := Handle(s, call);
      && Handle(first.state, call).state == first.state
      && !Handle(first.state, call).dispatched
      && Handle(first.state, call).reply == if first.dispatched then Decided(AlreadyStopped) else first.reply
  {
    hide Remember, Distinct;
    assert Distinct([]) by { NothingRemembered(); }
    if call.StopGeneration? {
      RememberKeepsCap(Observe(s, call.running).stoppedGenerations, call.generation);
    } else if call.StopForZeroAuthority? {
      RememberKeepsCap(Observe(s, call.running).completedStops, call.stopRequest);
    }
  }

  // ---------------------------------------------------------------- ownership

  /** The calls that end the current generation, from the state before the call alone. */
  predicate EndsGeneration(s: Authority, call: Call)
    requires s.generation.Some?
  {
    match call
    case Release(generation) => Some(generation) == s.generation
    case StopGeneration(generation, _) => Some(generation) == s.generation
    case Claim(runtimeId, epoch, generation, _) => Current(s, runtimeId, epoch) && Some(generation) != s.generation
    case StopForZeroAuthority(runtimeId, epoch, stopRequest, running) =>
      Current(s, runtimeId, epoch) && (stopRequest !in s.completedStops || (running && !s.lastSeenRunning))
    case _ => false
  }

  /** A generation is lost exactly to those calls. */
  lemma GenerationEndsExactly(s: Authority, call: Call)
    requires Inv(s) && s.generation.Some?
    ensures Handle(s, call).state.generation != s.generation <==> EndsGeneration(s, call)
  {
  }

  /** A superseded runtime changes nothing but the last observation, and is told so. */
  lemma SupersededRuntimeIsPowerless(s: Authority, call: Call)
    requires call.Claim? || call.StopForZeroAuthority?
    requires !Current(s, call.runtimeId, call.epoch)
    ensures Handle(s, call).state == Observe(s, call.running) && !Handle(s, call).dispatched
    ensures Handle(s, call).reply == if call.Claim? then Granted(false) else Decided(StaleCaller)
  {
  }

  // ---------------------------------------------------------------- runtimes

  predicate Later(a: Authority, b: Authority) {
    || (a.epoch == b.epoch && a.order == b.order && a.runtimeId == b.runtimeId)
    || (a.epoch < b.epoch && Before(a.order, b.order))
  }

  lemma HandleMovesOn(s: Authority, call: Call)
    ensures Later(s, Handle(s, call).state)
  {
  }

  lemma LaterIsTransitive(a: Authority, b: Authority, c: Authority)
    requires Later(a, b) && Later(b, c)
    ensures Later(a, c)
  {
  }

  lemma LaterIsReflexive(a: Authority)
    ensures Later(a, a)
  {
  }

  lemma RunsOn(calls: seq<Call>, j: nat)
    requires 0 < j <= |calls|
    ensures Run(INITIAL, calls[..j]) == Handle(Run(INITIAL, calls[..j - 1]), calls[j - 1]).state
  {
    assert calls[..j][..j - 1] == calls[..j - 1];
  }

  lemma {:induction false} RunMovesOn(calls: seq<Call>, i: nat, j: nat)
    requires i <= j <= |calls|
    ensures Later(Run(INITIAL, calls[..i]), Run(INITIAL, calls[..j]))
    decreases j
  {
    hide Handle, Later;
    if i < j {
      RunMovesOn(calls, i, j - 1);
      RunsOn(calls, j);
      HandleMovesOn(Run(INITIAL, calls[..j - 1]), calls[j - 1]);
      LaterIsTransitive(Run(INITIAL, calls[..i]), Run(INITIAL, calls[..j - 1]), Run(INITIAL, calls[..j]));
    } else {
      LaterIsReflexive(Run(INITIAL, calls[..i]));
    }
  }

  /** Epochs only grow and each names one runtime: a superseded (runtime, epoch) never becomes current again. */
  lemma SupersededForever(calls: seq<Call>, i: nat, j: nat, k: nat, runtimeId: string, epoch: int)
    requires i <= j <= k <= |calls|
    requires Current(Run(INITIAL, calls[..i]), runtimeId, epoch)
    requires !Current(Run(INITIAL, calls[..j]), runtimeId, epoch)
    ensures !Current(Run(INITIAL, calls[..k]), runtimeId, epoch)
  {
    RunMovesOn(calls, i, j);
    RunMovesOn(calls, j, k);
  }

  /** A runtime that begins gets the current epoch exactly unless a later one, or another of the same order, is
      known. */
  lemma BeginReplies(calls: seq<Call>, runtimeId: string, order: Order)
    ensures var s := Run(INITIAL, calls);
      var r := Handle(s, BeginRuntime(runtimeId, order));
      && (r.reply == Epoch(-1) <==> Before(order, s.order) || (order == s.order && s.runtimeId != Some(runtimeId)))
      && (r.reply != Epoch(-1) ==> Current(r.state, runtimeId, r.reply.value))
  {
    RunKeepsInv(calls);
  }

  // ---------------------------------------------------------------- what each call writes

  predicate Observes(call: Call) {
    call.Claim? || call.StopGeneration? || call.StopForZeroAuthority? || call.TaskDestroyed?
  }

  predicate LaterOrder(a: Order, b: Order) {
    a.engineSequence > b.engineSequence
      || (a.engineSequence == b.engineSequence && a.runtimeSequence > b.runtimeSequence)
  }

  /** The runtime is the current one, and no stop is pending for a running service. */
  predicate Grants(s: Authority, call: Call) {
    && call.Claim? && s.runtimeId == Some(call.runtimeId) && s.epoch == call.epoch
    && !(s.pendingStop.Some? && call.running)
  }

  predicate StopsOwn(s: Authority, call: Call) {
    call.StopGeneration? && s.generation == Some(call.generation)
  }

  /** The current runtime asks, no stop is pending, and the request is not one it made since the service started. */
  predicate StopsAll(s: Authority, call: Call) {
    && call.StopForZeroAuthority? && s.runtimeId == Some(call.runtimeId) && s.epoch == call.epoch
    && s.pendingStop.None?
    && (call.stopRequest !in s.completedStops || (call.running && !s.lastSeenRunning))
  }

  /** Which fields a call writes besides the memories, with what, and when it asks Android to stop the service. */
  lemma EveryCallWrites(s: Authority, call: Call)
    requires Inv(s)
    ensures var s' := Handle(s, call).state;
      && s'.lastSeenRunning == (if Observes(call) then call.running else s.lastSeenRunning)
      && (s'.epoch, s'.runtimeId, s'.order) == (
           if call.BeginRuntime? && LaterOrder(call.order, s.order) then
             (s.epoch + 1, Some(call.runtimeId), call.order)
           else (s.epoch, s.runtimeId, s.order))
      && s'.generation == (
           if call.Claim? && Grants(s, call) then Some(call.generation)
           else if StopsOwn(s, call) || StopsAll(s, call) then None
           else if call.Release? && s.generation == Some(call.generation) then None
           else s.generation)
      && s'.pendingStop == (
           if Grants(s, call) || call == TaskDestroyed(false) then None
           else if StopsOwn(s, call) && call.running then Some(ByGeneration(call.generation))
           else if StopsAll(s, call) && call.running then Some(ByZeroAuthority(call.stopRequest))
           else s.pendingStop)
      && (Handle(s, call).dispatched <==> (StopsOwn(s, call) || StopsAll(s, call)) && call.running)
      && (Handle(s, call).dispatched <==> Handle(s, call).reply == Decided(Requested))
  {
  }

  lemma ClaimAnswers(s: Authority, call: Call)
    requires call.Claim?
    ensures var r := Handle(s, call);
      && r.reply == Granted(Grants(s, call)) && !r.dispatched
      && (Grants(s, call) ==> r.state.generation == Some(call.generation) && r.state.pendingStop.None?)
      && (!Grants(s, call) ==> r.state.generation == s.generation && r.state.pendingStop == s.pendingStop)
      && r.state == s.(
           generation := r.state.generation, pendingStop := r.state.pendingStop, lastSeenRunning := call.running,
           stoppedGenerations := if call.running && !s.lastSeenRunning then [] else s.stoppedGenerations,
           completedStops := if call.running && !s.lastSeenRunning then [] else s.completedStops)
  {
  }

  // ---------------------------------------------------------------- owner and pending stop, from the history

  predicate GrantedAt(calls: seq<Call>, i: nat, generation: string)
    requires i < |calls|
  {
    calls[i].Claim? && Grants(Run(INITIAL, calls[..i]), calls[i]) && calls[i].generation == generation
  }

  predicate KeptAt(calls: seq<Call>, k: nat)
    requires k < |calls|
  {
    var s := Run(INITIAL, calls[..k]);
    s.generation.None? || !EndsGeneration(s, calls[k])
  }

  /** A generation is current exactly when it has been granted and no call since then has ended it. */
  ghost predicate Owns(calls: seq<Call>, generation: string) {
    exists i: nat | i < |calls| ::
      GrantedAt(calls, i, generation) && forall k: nat | i < k < |calls| :: KeptAt(calls, k)
  }

  lemma StepOwns(s: Authority, call: Call, generation: string)
    requires Inv(s)
    ensures Handle(s, call).state.generation == Some(generation) <==>
      || (call.Claim? && Grants(s, call) && call.generation == generation)
      || (s.generation == Some(generation) && !EndsGeneration(s, call))
  {
  }

  lemma FrontSame(calls: seq<Call>, i: nat, generation: string)
    requires i + 1 < |calls|
    ensures GrantedAt(calls[..|calls| - 1], i, generation) == GrantedAt(calls, i, generation)
    ensures KeptAt(calls[..|calls| - 1], i) == KeptAt(calls, i)
  {
    assert calls[..|calls| - 1][..i] == calls[..i];
  }

  lemma OwnsOneMore(calls: seq<Call>, generation: string)
    requires calls != []
    ensures Owns(calls, generation) <==>
      || GrantedAt(calls, |calls| - 1, generation)
      || (Owns(calls[..|calls| - 1], generation) && KeptAt(calls, |calls| - 1))
  {
    hide Handle, EndsGeneration, Grants, Run, GrantedAt, KeptAt;
    var n := |calls| - 1;
    var front := calls[..n];
    forall i: nat | i < n
      ensures GrantedAt(front, i, generation) == GrantedAt(calls, i, generation) && KeptAt(front, i) == KeptAt(calls, i)
    {
      FrontSame(calls, i, generation);
    }
    if Owns(front, generation) && KeptAt(calls, n) {
      var i: nat :| i < n && GrantedAt(front, i, generation) && forall k: nat | i < k < n :: KeptAt(front, k);
      assert GrantedAt(calls, i, generation);
    }
  }

  lemma {:induction false} OwnsExactly(calls: seq<Call>, generation: string)
    ensures Run(INITIAL, calls).generation == Some(generation) <==> Owns(calls, generation)
  {
    hide Handle, EndsGeneration, Grants, Inv, Owns;
    if calls == [] {
      NobodyOwns(generation);
    } else {
      var front := calls[..|calls| - 1];
      OwnsExactly(front, generation);
      RunKeepsInv(front);
      StepOwns(Run(INITIAL, front), calls[|calls| - 1], generation);
      OwnsOneMore(calls, generation);
    }
  }

  lemma NobodyOwns(generation: string)
    ensures !Owns([], generation) && !Awaits([])
  {
  }

  predicate ClearsAt(calls: seq<Call>, k: nat)
    requires k < |calls|
  {
    calls[k] == TaskDestroyed(false) || Grants(Run(INITIAL, calls[..k]), calls[k])
  }

  /** A stop is pending exactly when one has been dispatched and neither a destroyed task of a stopped service nor a
      granted claim has followed. */
  ghost predicate Awaits(calls: seq<Call>) {
    exists i: nat | i < |calls| :: Dispatches(calls, i) && forall k: nat | i < k < |calls| :: !ClearsAt(calls, k)
  }

  lemma StepAwaits(s: Authority, call: Call)
    requires Inv(s)
    ensures Handle(s, call).state.pendingStop.Some? <==>
      || Handle(s, call).dispatched
      || (s.pendingStop.Some? && !Grants(s, call) && call != TaskDestroyed(false))
  {
  }

  lemma FrontAwaits(calls: seq<Call>, i: nat)
    requires i + 1 < |calls|
    ensures Dispatches(calls[..|calls| - 1], i) == Dispatches(calls, i)
    ensures ClearsAt(calls[..|calls| - 1], i) == ClearsAt(calls, i)
  {
    assert calls[..|calls| - 1][..i] == calls[..i];
  }

  lemma AwaitsOneMore(calls: seq<Call>)
    requires calls != []
    ensures Awaits(calls) <==>
      || Dispatches(calls, |calls| - 1)
      || (Awaits(calls[..|calls| - 1]) && !ClearsAt(calls, |calls| - 1))
  {
    hide Handle, Grants, Run, Dispatches, ClearsAt;
    var n := |calls| - 1;
    var front := calls[..n];
    forall i: nat | i < n
      ensures Dispatches(front, i) == Dispatches(calls, i) && ClearsAt(front, i) == ClearsAt(calls, i)
    {
      FrontAwaits(calls, i);
    }
    if Awaits(front) && !ClearsAt(calls, n) {
      var i: nat :| i < n && Dispatches(front, i) && forall k: nat | i < k < n :: !ClearsAt(front, k);
      assert Dispatches(calls, i);
    }
  }

  lemma {:induction false} PendingExactly(calls: seq<Call>)
    ensures Run(INITIAL, calls).pendingStop.Some? <==> Awaits(calls)
  {
    hide Handle, Grants, Inv, Awaits;
    if calls == [] {
      NobodyOwns("");
    } else {
      var front := calls[..|calls| - 1];
      PendingExactly(front);
      RunKeepsInv(front);
      StepAwaits(Run(INITIAL, front), calls[|calls| - 1]);
      AwaitsOneMore(calls);
    }
  }

  /** Over every run a claim is granted exactly to the current runtime, unless a dispatched stop still awaits a
      running service's end. */
  lemma ClaimAnswersFromHistory(calls: seq<Call>, runtimeId: string, epoch: int, generation: string, running: bool)
    ensures var s := Run(INITIAL, calls);
      var r := Handle(s, Claim(runtimeId, epoch, generation, running));
      && r.reply == Granted(s.runtimeId == Some(runtimeId) && s.epoch == epoch && !(Awaits(calls) && running))
      && (r.reply == Granted(true) ==> r.state.generation == Some(generation) && r.state.pendingStop.None?)
  {
    PendingExactly(calls);
    ClaimAnswers(Run(INITIAL, calls), Claim(runtimeId, epoch, generation, running));
  }

  // ---------------------------------------------------------------- the memory of stops

  /** Everything ever newly remembered, in order, were nothing forgotten. */
  function Unbounded(values: seq<string>): seq<string> {
    if values == [] then []
    else
      var history, v := Unbounded(values[..|values| - 1]), values[|values| - 1];
      if v in LastOf(history) then history else history + [v]
  }

  function Remembered(values: seq<string>): seq<string> {
    if values == [] then [] else Remember(Remembered(values[..|values| - 1]), values[|values| - 1])
  }

  lemma WindowSlides(history: seq<string>, v: string)
    ensures Remember(LastOf(history), v) == LastOf(if v in LastOf(history) then history else history + [v])
  {
  }

  /** The bounded memory is the window of the last 32 entries: an entry is forgotten only after 32 newer ones. */
  lemma {:induction false} MemoryIsTheLastWindow(values: seq<string>)
    ensures Remembered(values) == LastOf(Unbounded(values))
  {
    if values != [] {
      MemoryIsTheLastWindow(values[..|values| - 1]);
      WindowSlides(Unbounded(values[..|values| - 1]), values[|values| - 1]);
    }
  }

  predicate SeesRunning(call: Call) {
    match call
    case Claim(_, _, _, running) => running
    case StopGeneration(_, running) => running
    case StopForZeroAuthority(_, _, _, running) => running
    case TaskDestroyed(running) => running
    case _ => false
  }

  /** A call that sees the service start empties the memory before anything else. */
  predicate SeesStart(calls: seq<Call>, call: Call) {
    SeesRunning(call) && !Run(INITIAL, calls).lastSeenRunning
  }

  /** The generations that their owner has stopped since the service was last seen to start, in order. */
  function StoppedSinceStart(calls: seq<Call>): seq<string> {
    if calls == [] then []
    else
      var front, call := calls[..|calls| - 1], calls[|calls| - 1];
      var kept := if SeesStart(front, call) then [] else StoppedSinceStart(front);
      if call.StopGeneration? && Run(INITIAL, front).generation == Some(call.generation) then
        kept + [call.generation] else kept
  }

  /** The zero-authority requests that the current runtime made since then while no stop was pending, in order. */
  function CompletedSinceStart(calls: seq<Call>): seq<string> {
    if calls == [] then []
    else
      var front, call := calls[..|calls| - 1], calls[|calls| - 1];
      var kept := if SeesStart(front, call) then [] else CompletedSinceStart(front);
      if TakesEffect(Run(INITIAL, front), call) then kept + [call.stopRequest] else kept
  }

  predicate TakesEffect(s: Authority, call: Call) {
    call.StopForZeroAuthority? && Current(s, call.runtimeId, call.epoch) && s.pendingStop.None?
  }

  /** Remembering is appending to those histories and keeping their windows. */
  lemma {:induction false} MemoryHoldsStopsSinceStart(calls: seq<Call>)
    ensures Run(INITIAL, calls).stoppedGenerations == Remembered(StoppedSinceStart(calls))
    ensures Run(INITIAL, calls).completedStops == Remembered(CompletedSinceStart(calls))
  {
    hide Handle, Remember, Remembered, Run, StoppedSinceStart, CompletedSinceStart;
    if calls == [] {
      NothingToRemember();
    } else {
      var front, call := calls[..|calls| - 1], calls[|calls| - 1];
      MemoryHoldsStopsSinceStart(front);
      NextRemembers(front, call);
      assert front + [call] == calls;
    }
  }

  lemma NothingToRemember()
    ensures Run(INITIAL, []) == INITIAL && Remembered([]) == []
    ensures StoppedSinceStart([]) == [] && CompletedSinceStart([]) == []
  {
  }

  lemma NextRemembers(calls: seq<Call>, call: Call)
    requires Run(INITIAL, calls).stoppedGenerations == Remembered(StoppedSinceStart(calls))
    requires Run(INITIAL, calls).completedStops == Remembered(CompletedSinceStart(calls))
    ensures Run(INITIAL, calls + [call]).stoppedGenerations == Remembered(StoppedSinceStart(calls + [call]))
    ensures Run(INITIAL, calls + [call]).completedStops == Remembered(CompletedSinceStart(calls + [call]))
  {
    hide Remembered, StoppedSinceStart, CompletedSinceStart, Handle, Inv;
    assert (calls + [call])[..|calls|] == calls;
    RunKeepsInv(calls);
    StepRemembersStops(calls, call);
    StepRemembersRequests(calls, call);
  }

  lemma RememberedOneMore(values: seq<string>, v: string)
    ensures Remembered(values + [v]) == Remember(Remembered(values), v)
  {
    assert (values + [v])[..|values|] == values;
  }

  lemma HistoriesOneMore(calls: seq<Call>, call: Call)
    ensures var kept := if SeesStart(calls, call) then [] else StoppedSinceStart(calls);
      StoppedSinceStart(calls + [call]) ==
        if call.StopGeneration? && Run(INITIAL, calls).generation == Some(call.generation) then
          kept + [call.generation] else kept
    ensures var kept := if SeesStart(calls, call) then [] else CompletedSinceStart(calls);
      CompletedSinceStart(calls + [call]) == if TakesEffect(Run(INITIAL, calls), call) then
        kept + [call.stopRequest] else kept
  {
    assert (calls + [call])[..|calls|] == calls;
  }

  lemma StepRemembersStops(calls: seq<Call>, call: Call)
    requires Inv(Run(INITIAL, calls)) && Run(INITIAL, calls).stoppedGenerations == Remembered(StoppedSinceStart(calls))
    ensures Handle(Run(INITIAL, calls), call).state.stoppedGenerations == Remembered(StoppedSinceStart(calls + [call]))
  {
    hide Remember, Distinct, Run, StoppedSinceStart, CompletedSinceStart;
    HistoriesOneMore(calls, call);
    if call.StopGeneration? {
      RememberedOneMore(if SeesStart(calls, call) then [] else StoppedSinceStart(calls), call.generation);
    }
  }

  lemma RememberAgain(remembered: seq<string>, v: string)
    requires |remembered| <= REMEMBERED && v in remembered
    ensures Remember(remembered, v) == remembered
  {
  }

  lemma StepRemembersRequests(calls: seq<Call>, call: Call)
    requires Inv(Run(INITIAL, calls)) && Run(INITIAL, calls).completedStops == Remembered(CompletedSinceStart(calls))
    ensures Handle(Run(INITIAL, calls), call).state.completedStops == Remembered(CompletedSinceStart(calls + [call]))
  {
    hide Remember, Distinct, Run, StoppedSinceStart, CompletedSinceStart;
    HistoriesOneMore(calls, call);
    if call.StopForZeroAuthority? {
      var kept := if SeesStart(calls, call) then [] else CompletedSinceStart(calls);
      RememberedOneMore(kept, call.stopRequest);
      if call.stopRequest in Remembered(kept) {
        RememberAgain(Remembered(kept), call.stopRequest);
      }
    }
  }

  /**
   Every stop of a generation is answered from the whole history: "requested" exactly for the current
   generation of a running service; otherwise "already stopped" exactly when its owner has stopped it, by this
   call or before, since the service was last seen to start and within the window of 32; otherwise "stale".
   */
  lemma StopAnswersFromHistory(calls: seq<Call>, generation: string, running: bool)
    ensures var s, stop := Run(INITIAL, calls), StopGeneration(generation, running);
      Handle(s, stop).reply == Decided(
        if s.generation == Some(generation) && running then Requested
        else if generation in LastOf(Unbounded(StoppedSinceStart(calls + [stop]))) then AlreadyStopped
        else StaleCaller)
  {
    hide Remember, Distinct, Unbounded, LastOf, StoppedSinceStart, CompletedSinceStart;
    var stop := StopGeneration(generation, running);
    var s := Run(INITIAL, calls);
    RunKeepsInv(calls);
    RememberKeepsCap(Observe(s, running).stoppedGenerations, generation) by { NothingRemembered(); }
    MemoryHoldsStopsSinceStart(calls + [stop]);
    MemoryIsTheLastWindow(StoppedSinceStart(calls + [stop]));
    assert (calls + [stop])[..|calls|] == calls;
  }

  /**
   A zero-authority stop of the current runtime is requested exactly when the service runs, no stop is pending
   and the request is not in the window of those made since the service was last seen to start; every other one
   of the current runtime is answered "already stopped".
   */
  lemma ZeroAuthorityAnswersFromHistory(calls: seq<Call>, runtimeId: string, epoch: int, stopRequest: string,
                                        running: bool)
    ensures var s, stop := Run(INITIAL, calls), StopForZeroAuthority(runtimeId, epoch, stopRequest, running);
      var made := if SeesStart(calls, stop) then [] else CompletedSinceStart(calls);
      Handle(s, stop).reply == Decided(
        if !Current(s, runtimeId, epoch) then StaleCaller
        else if running && s.pendingStop.None? && stopRequest !in LastOf(Unbounded(made)) then Requested
        else AlreadyStopped)
  {
    hide Unbounded, LastOf, StoppedSinceStart, CompletedSinceStart;
    MemoryHoldsStopsSinceStart(calls);
    MemoryIsTheLastWindow(CompletedSinceStart(calls));
    MemoryIsTheLastWindow([]);
  }

  // ---------------------------------------------------------------- the class

  class ProviderTrackingServiceAuthorityState {
    var latestRuntimeEpoch: int
    var latestRuntimeId: Option<string>
    var latestRuntimeOrder: Order
    var currentGeneration: Option<string>
    var pendingStopId: Option<PendingStop>
    var lastObservedServiceRunning: bool
    var stoppedGenerations: seq<string>
    var completedZeroAuthorityStops: seq<string>

    function State(): Authority
      reads this
    {
      Authority(latestRuntimeEpoch, latestRuntimeId, latestRuntimeOrder, currentGeneration, pendingStopId,
                lastObservedServiceRunning, stoppedGenerations, completedZeroAuthorityStops)
    }

    constructor ()
      ensures State() == INITIAL
    {
      latestRuntimeEpoch, latestRuntimeId, latestRuntimeOrder := 0, None, Order(-1, -1);
      currentGeneration, pendingStopId, lastObservedServiceRunning := None, None, false;
      stoppedGenerations, completedZeroAuthorityStops := [], [];
    }

    method BeginRuntime(runtimeId: string, order: Order) returns (epoch: int)
      modifies this
      ensures State() == Handle(old(State()), Call.BeginRuntime(runtimeId, order)).state
      ensures Epoch(epoch) == Handle(old(State()), Call.BeginRuntime(runtimeId, order)).reply
    {
      if Before(order, latestRuntimeOrder) { return -1; }
      if order == latestRuntimeOrder && Some(runtimeId) != latestRuntimeId { return -1; }
      if Some(runtimeId) == latestRuntimeId && order == latestRuntimeOrder { return latestRuntimeEpoch; }
      latestRuntimeEpoch := latestRuntimeEpoch + 1;
      latestRuntimeId := Some(runtimeId);
      latestRuntimeOrder := order;
      return latestRuntimeEpoch;
    }

    method ClaimGeneration(runtimeId: string, runtimeEpoch: int, generation: string, serviceRunning: bool)
      returns (ok: bool)
      modifies this
      ensures State() == Handle(old(State()), Claim(runtimeId, runtimeEpoch, generation, serviceRunning)).state
      ensures Granted(ok) == Handle(old(State()), Claim(runtimeId, runtimeEpoch, generation, serviceRunning)).reply
    {
      ObserveServiceState(serviceRunning);
      if Some(runtimeId) != latestRuntimeId || runtimeEpoch != latestRuntimeEpoch { return false; }
      if pendingStopId.Some? && serviceRunning { return false; }
      currentGeneration := Some(generation);
      pendingStopId := None;
      return true;
    }

    method ReleaseGeneration(generation: string)
      modifies this
      ensures State() == Handle(old(State()), Release(generation)).state
    {
      if currentGeneration == Some(generation) { currentGeneration := None; }
    }

    method StopGeneration(generation: string, serviceRunning: bool) returns (decision: StopDecision, dispatched: bool)
      modifies this
      ensures Result(State(), Decided(decision), dispatched) ==
        Handle(old(State()), Call.StopGeneration(generation, serviceRunning))
    {
      ObserveServiceState(serviceRunning);
      if currentGeneration != Some(generation) {
        return if generation in stoppedGenerations then AlreadyStopped else StaleCaller, false;
      }
      if pendingStopId.Some? { return AlreadyStopped, false; }
      currentGeneration := None;
      if serviceRunning { pendingStopId := Some(ByGeneration(generation)); }
      stoppedGenerations := Add(stoppedGenerations, generation);
      return if serviceRunning then Requested else AlreadyStopped, serviceRunning;
    }

    method StopForZeroAuthority(runtimeId: string, runtimeEpoch: int, stopRequestId: string, serviceRunning: bool)
      returns (decision: StopDecision, dispatched: bool)
      modifies this
      ensures Result(State(), Decided(decision), dispatched)
              == Handle(old(State()), Call.StopForZeroAuthority(runtimeId, runtimeEpoch, stopRequestId, serviceRunning))
    {
      ObserveServiceState(serviceRunning);
      if Some(runtimeId) != latestRuntimeId || runtimeEpoch != latestRuntimeEpoch { return StaleCaller, false; }
      if stopRequestId in completedZeroAuthorityStops { return AlreadyStopped, false; }
      if pendingStopId.Some? { return AlreadyStopped, false; }
      currentGeneration := None;
      if serviceRunning { pendingStopId := Some(ByZeroAuthority(stopRequestId)); }
      completedZeroAuthorityStops := Add(completedZeroAuthorityStops, stopRequestId);
      return if serviceRunning then Requested else AlreadyStopped, serviceRunning;
    }

    method OnForegroundTaskDestroyed(serviceRunning: bool)
      modifies this
      ensures State() == Handle(old(State()), TaskDestroyed(serviceRunning)).state
    {
      ObserveServiceState(serviceRunning);
      if !serviceRunning { pendingStopId := None; }
    }

    method ObserveServiceState(serviceRunning: bool)
      modifies this
      ensures State() == Observe(old(State()), serviceRunning)
    {
      if serviceRunning && !lastObservedServiceRunning {
        stoppedGenerations := [];
        completedZeroAuthorityStops := [];
      }
      lastObservedServiceRunning := serviceRunning;
    }

    /** Adds to an insertion-ordered set and drops the oldest while it is too large. */
    static method Add(remembered: seq<string>, value: string) returns (after: seq<string>)
      ensures after == Remember(remembered, value)
    {
      after := if value in remembered then remembered else remembered + [value];
      ghost var all := after;
      while |after| > REMEMBERED
        invariant |after| <= |all| && after == all[|all| - |after|..]
        invariant |after| >= REMEMBERED || after == all
        decreases |after|
      {
        after := after[1..];
      }
    }
  }
}
