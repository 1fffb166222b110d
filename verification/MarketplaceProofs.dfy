/** Every transaction keeps the invariant of the request it locks. */
module MarketplaceProofs {
  import opened Domain
  import opened EventLog
  import opened Marketplace
  import opened MarketplaceInvariants
  import Tracking

  // ---------------------------------------------------------------- building blocks

  lemma AppendedEventMember(events: seq<Event>, e: Event, f: Event)
    ensures f in events + [e] <==> f in events || f == e
  {
  }

  lemma RepeatedEventMember(events: seq<Event>, e: Event, n: nat)
    requires !e.kind.StatusUpdated?
    ensures forall s :: Event(StatusUpdated, s) in events + Repeat(e, n) <==> Event(StatusUpdated, s) in events
  {
    assert forall f :: f in Repeat(e, n) ==> f == e;
  }

  /** A notice that was not sent before adds exactly one row. */
  lemma InsertedOnce(outbox: map<Notice, nat>, n: Notice, attempts: nat)
    requires n !in outbox
    ensures var outbox' := Insert(outbox, n, attempts);
      && |outbox'| == |outbox| + 1
      && outbox'.Keys == outbox.Keys + {n}
      && forall x | x in outbox :: outbox'[x] == outbox[x]
  {
  }

  lemma InsertedAllOnce(outbox: map<Notice, nat>, ns: set<Notice>)
    requires ns !! outbox.Keys
    ensures var outbox' := InsertAll(outbox, ns);
      && |outbox'| == |outbox| + |ns|
      && outbox'.Keys == outbox.Keys + ns
      && forall x | x in outbox :: outbox'[x] == outbox[x]
  {
    var outbox' := InsertAll(outbox, ns);
    assert outbox'.Keys == outbox.Keys + ns;
    assert |outbox'.Keys| == |outbox.Keys| + |ns|;
    assert |outbox.Keys| == |outbox| && |outbox'.Keys| == |outbox'|;
  }

  lemma {:induction false} InvitationsCount(ps: set<ProviderId>)
    ensures |InvitationsTo(ps)| == |ps|
  {
    if ps != {} {
      var p :| p in ps;
      InvitationsCount(ps - {p});
      assert InvitationsTo(ps) == InvitationsTo(ps - {p}) + {Invitation(p)};
    }
  }

  // ---------------------------------------------------------------- creation and invitation

  lemma InvitedOpportunities(o: map<ProviderId, OpportunityStatus>, added: set<ProviderId>)
    requires added !! o.Keys
    ensures var o' := o + InvitedAll(added);
      && |o'| == |o| + |added|
      && o'.Keys == o.Keys + added
      && ClosedOnes(o') == ClosedOnes(o)
      && (forall p | p in o :: o'[p] == o[p])
      && (forall p | p in added :: o'[p] == Invited)
  {
    var o' := o + InvitedAll(added);
    assert o'.Keys == o.Keys + added;
    assert |o'.Keys| == |o.Keys| + |added| && |o'| == |o'.Keys| && |o| == |o.Keys|;
  }

  /** The outbox invariant while a creation has yet to announce the request itself. */
  ghost predicate OutboxInvBut(r: Request) {
    && |r.outbox| == r.announced
    && (forall n: Notice :: n == RequestReceived || Accounted(n, r))
    && EnteredInOrder(r)
  }

  lemma InvitationsKeepQuotes(r: Request, chosen: set<ProviderId>)
    requires QuoteInv(r) && PaymentInv(r) && TrackingInv(r)
    ensures var r' := AddInvitations(r, chosen); QuoteInv(r') && PaymentInv(r') && TrackingInv(r')
  {
    var r' := AddInvitations(r, chosen);
    InvitedOpportunities(r.opportunities, chosen - r.opportunities.Keys);
    assert OpportunitiesMatch(r') by {
      forall i | 0 <= i < |r.quotes| ensures QuoteMatchesOpportunity(r'.quotes[i], r'.opportunities) {
        assert QuoteMatchesOpportunity(r.quotes[i], r.opportunities);
      }
    }
  }

  lemma InvitationsKeepLog(r: Request, chosen: set<ProviderId>)
    requires LogInv(r)
    ensures LogInv(AddInvitations(r, chosen))
  {
    var added := chosen - r.opportunities.Keys;
    InvitedOpportunities(r.opportunities, added);
    InvitationsBalance(r, AddInvitations(r, chosen), |added|);
  }

  lemma InvitationsBalance(r: Request, r': Request, n: nat)
    requires LogInv(r)
    requires r'.events == r.events + Repeat(Event(OpportunityInvited, r.status), n)
    requires |r'.opportunities| == |r.opportunities| + n && ClosedOnes(r'.opportunities) == ClosedOnes(r.opportunities)
    requires r'.quotes == r.quotes && r'.status == r.status
    ensures LogInv(r')
  {
    hide Count, Replay, CountQuotes, Repeat, ClosedOnes;
    AppendRepeated(r.events, Event(OpportunityInvited, r.status), n);
  }

  lemma InvitationsStayAccounted(r: Request, r': Request, added: set<ProviderId>, n: Notice)
    requires Accounted(n, r)
    requires r'.outbox.Keys == r.outbox.Keys + InvitationsTo(added)
    requires r'.opportunities.Keys == r.opportunities.Keys + added
    requires forall p | p in r.opportunities :: r'.opportunities[p] == r.opportunities[p]
    requires r'.quotes == r.quotes && r'.assignee == r.assignee
    requires forall s :: Event(StatusUpdated, s) in r'.events <==> Event(StatusUpdated, s) in r.events
    ensures Accounted(n, r')
  {
  }

  lemma InvitationsKeepOutbox(r: Request, chosen: set<ProviderId>)
    requires OutboxInvBut(r)
    ensures var r' := AddInvitations(r, chosen);
      && OutboxInvBut(r')
      && (RequestReceived in r'.outbox <==> RequestReceived in r.outbox)
  {
    var added := chosen - r.opportunities.Keys;
    var r' := AddInvitations(r, chosen);
    InvitationsCount(added);
    InvitedOpportunities(r.opportunities, added);
    forall n | n in InvitationsTo(added) ensures n !in r.outbox {
      assert Accounted(n, r);
    }
    InsertedAllOnce(r.outbox, InvitationsTo(added));
    RepeatedEventMember(r.events, Event(OpportunityInvited, r.status), |added|);
    forall n: Notice | n != RequestReceived ensures Accounted(n, r') {
      InvitationsStayAccounted(r, r', added, n);
    }
  }

  lemma InvitationsKeepInv(r: Request, chosen: set<ProviderId>)
    requires Inv(r)
    ensures Inv(AddInvitations(r, chosen))
  {
    InvitationsKeepQuotes(r, chosen);
    InvitationsKeepLog(r, chosen);
    InvitationsKeepOutbox(r, chosen);
    assert Accounted(RequestReceived, r);
    assert Accounted(RequestReceived, AddInvitations(r, chosen));
  }

  lemma NewRequestInv(customer: nat, serviceId: string)
    ensures var r := NewRequest(customer, serviceId);
      QuoteInv(r) && PaymentInv(r) && LogInv(r) && OutboxInvBut(r) && TrackingInv(r) && r.outbox == map[]
  {
    AppendOne([], Event(RequestCreated, PendingDispatch));
    assert [] + [Event(RequestCreated, PendingDispatch)] == NewRequest(customer, serviceId).events;
  }

  lemma AnnouncingReceiptCompletes(r: Request, attempts: nat)
    requires QuoteInv(r) && PaymentInv(r) && LogInv(r) && OutboxInvBut(r) && TrackingInv(r)
    requires RequestReceived !in r.outbox
    ensures Inv(Announce(r, RequestReceived, attempts))
  {
    var r' := Announce(r, RequestReceived, attempts);
    InsertedOnce(r.outbox, RequestReceived, attempts);
    assert OutboxInv(r') by {
      forall n: Notice ensures Accounted(n, r') {
        assert n == RequestReceived || Accounted(n, r);
      }
    }
    AnnouncingKeepsRest(r, r');
  }

  /** The other tables do not read the outbox. */
  lemma AnnouncingKeepsRest(r: Request, r': Request)
    requires QuoteInv(r) && PaymentInv(r) && LogInv(r) && TrackingInv(r)
    requires r' == r.(outbox := r'.outbox, announced := r'.announced)
    ensures QuoteInv(r') && PaymentInv(r') && LogInv(r') && TrackingInv(r')
  {
  }

  lemma InviteKeepsInv(r: Request, ids: set<ProviderId>, providers: map<ProviderId, Provider>)
    requires Inv(r)
    ensures Inv(After(r, Invite(r, ids, providers)))
  {
    hide Inv;
    hide AddInvitations;
    hide EligibleAmong;
    InvitationsKeepInv(r, EligibleAmong(ids, providers, r.serviceId));
  }

  lemma CreateEstablishesInv(customer: nat, serviceId: string, providers: map<ProviderId, Provider>)
    ensures Inv(Create(customer, serviceId, providers))
  {
    var first, chosen := NewRequest(customer, serviceId), EligibleOnes(providers, serviceId);
    NewRequestInv(customer, serviceId);
    InvitationsKeepQuotes(first, chosen);
    InvitationsKeepLog(first, chosen);
    InvitationsKeepOutbox(first, chosen);
    AnnouncingReceiptCompletes(AddInvitations(first, chosen), MAX_DELIVERY_ATTEMPTS - 1);
  }

  // ---------------------------------------------------------------- settling on a winner

  /** The quote rows when a winner is settled on: nothing decided yet, except perhaps the winner's quote. */
  ghost predicate ReadyToSettle(r: Request, winner: ProviderId) {
    && OneQuoteEver(r)
    && forall i | 0 <= i < |r.quotes| ::
      && r.quotes[i].provider.Some?
      && QuoteMatchesOpportunity(r.quotes[i], r.opportunities)
      && (r.quotes[i].status.Approved? ==> r.quotes[i].provider == Some(winner))
  }

  /** What is left of a settled marketplace: no open opportunity and no proposed quote. */
  ghost predicate Settled(r: Request, winner: ProviderId) {
    && r.assignee == Some(winner)
    && r.status == Assigned
    && (forall p | p in r.opportunities :: !Open(r.opportunities[p]))
    && (forall i | 0 <= i < |r.quotes| :: !ProposedByProvider(r.quotes[i]))
  }

  lemma SettleSettles(r: Request, winner: ProviderId)
    ensures var r' := Settle(r, winner);
      && Settled(r', winner)
      && r'.quotes == RejectProposed(r.quotes)
      && r'.opportunities == CloseOpen(r.opportunities)
      && r'.payments == r.payments && r'.tracking == r.tracking && r'.customer == r.customer
  {
  }

  lemma SettleKeepsQuotes(r: Request, winner: ProviderId)
    requires ReadyToSettle(r, winner)
    ensures QuoteInv(Settle(r, winner))
  {
    var r' := Settle(r, winner);
    SettleSettles(r, winner);
    forall i | 0 <= i < |r'.quotes| ensures QuoteMatchesOpportunity(r'.quotes[i], r'.opportunities) {
      assert QuoteMatchesOpportunity(r.quotes[i], r.opportunities);
    }
  }

  lemma SettleKeepsPayments(r: Request, winner: ProviderId)
    requires PaymentInv(r) && r.status.PendingDispatch?
    ensures PaymentInv(Settle(r, winner))
  {
    SettleSettles(r, winner);
    forall i | 0 <= i < |r.quotes| && Settle(r, winner).quotes[i].status.Approved? ensures HasPayment(r.payments, i) {
      assert r.quotes[i].status.Approved?;
    }
  }

  lemma SettleKeepsTracking(r: Request, winner: ProviderId)
    requires TrackingInv(r) && r.status.PendingDispatch?
    ensures TrackingInv(Settle(r, winner))
  {
    SettleSettles(r, winner);
  }

  /** The log invariant while `owed` approvals have yet to be logged. */
  ghost predicate LogInvOwing(r: Request, owed: nat) {
    && Replay(r.events) == r.status
    && Count(r.events, OpportunityInvited) == |r.opportunities|
    && Count(r.events, ProviderQuoteSubmitted) == CountQuotes(r.quotes, FromProvider)
    && Count(r.events, QuoteProposed) == CountQuotes(r.quotes, FromStaff)
    && Count(r.events, QuoteApproved) + owed == CountQuotes(r.quotes, HasStatus(Approved))
    && Count(r.events, QuoteRejected) == CountQuotes(r.quotes, HasStatus(Rejected))
    && Count(r.events, ProviderQuoteWithdrawn) == CountQuotes(r.quotes, HasStatus(Withdrawn))
    && Count(r.events, OpportunityClosed) >= |ClosedOnes(r.opportunities)|
  }

  lemma ClosingAll(o: map<ProviderId, OpportunityStatus>)
    ensures |ClosedOnes(CloseOpen(o))| == |ClosedOnes(o)| + |OpenOnes(o)|
    ensures |CloseOpen(o)| == |o|
  {
    assert ClosedOnes(CloseOpen(o)) == ClosedOnes(o) + OpenOnes(o);
    assert ClosedOnes(o) !! OpenOnes(o);
    assert CloseOpen(o).Keys == o.Keys;
    assert |CloseOpen(o).Keys| == |CloseOpen(o)| && |o.Keys| == |o|;
  }

  /** The events that settling appends. */
  function SettlementEvents(r: Request): seq<Event> {
    r.events + Repeat(Event(QuoteRejected, Assigned), CountQuotes(r.quotes, FromProviderProposed))
      + Repeat(Event(OpportunityClosed, Assigned), |OpenOnes(r.opportunities)|) + [Event(ProviderAssigned, Assigned)]
  }

  lemma SettlementBalances(r: Request, r': Request, owed: nat)
    requires LogInvOwing(r, owed)
    requires r'.events == SettlementEvents(r) && r'.status == Assigned
    requires r'.quotes == RejectProposed(r.quotes) && r'.opportunities == CloseOpen(r.opportunities)
    ensures LogInvOwing(r', owed)
  {
    hide Count, Replay, CountQuotes, Repeat, ClosedOnes, OpenOnes, CloseOpen, RejectProposed;
    var n, m := CountQuotes(r.quotes, FromProviderProposed), |OpenOnes(r.opportunities)|;
    var e1, e2 := Event(QuoteRejected, Assigned), Event(OpportunityClosed, Assigned);
    AppendRepeated(r.events, e1, n);
    AppendRepeated(r.events + Repeat(e1, n), e2, m);
    AppendOne(r.events + Repeat(e1, n) + Repeat(e2, m), Event(ProviderAssigned, Assigned));
    CountAfterRejection(r.quotes);
    ClosingAll(r.opportunities);
  }

  lemma SettleKeepsLog(r: Request, winner: ProviderId, owed: nat)
    requires LogInvOwing(r, owed)
    ensures LogInvOwing(Settle(r, winner), owed)
  {
    SettlementBalances(r, Settle(r, winner), owed);
  }

  lemma SettleAddsNoStatusEvent(r: Request, winner: ProviderId)
    ensures forall s :: Event(StatusUpdated, s) in Settle(r, winner).events <==> Event(StatusUpdated, s) in r.events
  {
    var n, m := CountQuotes(r.quotes, FromProviderProposed), |OpenOnes(r.opportunities)|;
    var e1, e2 := Event(QuoteRejected, Assigned), Event(OpportunityClosed, Assigned);
    RepeatedEventMember(r.events, e1, n);
    RepeatedEventMember(r.events + Repeat(e1, n), e2, m);
    assert Settle(r, winner).events == SettlementEvents(r);
  }

  /** The notices of a settlement: the winner, the customer, and each loser once. */
  function SettlementNotices(r: Request, winner: ProviderId): set<Notice> {
    Settlement(winner, Losers(OpenOnes(r.opportunities), winner))
  }

  lemma SettlementNoticesAreNew(r: Request, winner: ProviderId)
    requires OutboxInv(r) && r.assignee.None?
    ensures SettlementNotices(r, winner) !! r.outbox.Keys
  {
    forall n | n in SettlementNotices(r, winner) ensures n !in r.outbox {
      assert Accounted(n, r);
    }
  }

  lemma InsertedTwo(outbox: map<Notice, nat>, a: Notice, b: Notice)
    requires a != b && a !in outbox && b !in outbox
    ensures var outbox' := Insert(Insert(outbox, a, 0), b, 0);
      && |outbox'| == |outbox| + 2
      && outbox'.Keys == outbox.Keys + {a, b}
      && forall x | x in outbox :: outbox'[x] == outbox[x]
  {
    InsertedOnce(outbox, a, 0);
    InsertedOnce(Insert(outbox, a, 0), b, 0);
  }

  lemma InsertedTwoAndAll(outbox: map<Notice, nat>, a: Notice, b: Notice, ns: set<Notice>)
    requires a != b && a !in ns && b !in ns
    requires a !in outbox && b !in outbox && ns !! outbox.Keys
    ensures var outbox' := InsertAll(Insert(Insert(outbox, a, 0), b, 0), ns);
      && |outbox'| == |outbox| + 2 + |ns|
      && outbox'.Keys == outbox.Keys + {a, b} + ns
      && forall x | x in outbox :: outbox'[x] == outbox[x]
  {
    InsertedTwo(outbox, a, b);
    InsertedAllOnce(Insert(Insert(outbox, a, 0), b, 0), ns);
  }

  function Settlement(winner: ProviderId, losers: set<Notice>): set<Notice> {
    {AssignedProvider(winner), AssignmentConfirmed} + losers
  }

  lemma SettleSendsEachOnce(r: Request, r': Request, winner: ProviderId, losers: set<Notice>)
    requires |r.outbox| == r.announced
    requires Settlement(winner, losers) !! r.outbox.Keys
    requires forall n | n in losers :: n.LostOpportunity?
    requires r'.outbox ==
      InsertAll(Insert(Insert(r.outbox, AssignedProvider(winner), 0), AssignmentConfirmed, 0), losers)
    requires r'.announced == r.announced + 2 + |losers|
    ensures |r'.outbox| == r'.announced
    ensures r'.outbox.Keys == r.outbox.Keys + Settlement(winner, losers)
    ensures forall n | n in r.outbox :: r'.outbox[n] == r.outbox[n]
  {
    hide Insert, InsertAll;
    assert Settlement(winner, losers) == {AssignedProvider(winner), AssignmentConfirmed} + losers;
    UnionAssociates(r.outbox.Keys, {AssignedProvider(winner), AssignmentConfirmed}, losers);
    SettlementIsApart(r.outbox, winner, losers);
    hide Settlement;
    InsertedTwoAndAll(r.outbox, AssignedProvider(winner), AssignmentConfirmed, losers);
  }

  lemma UnionAssociates<T>(a: set<T>, b: set<T>, c: set<T>)
    ensures a + b + c == a + (b + c)
  {
  }

  lemma SettlementIsApart(outbox: map<Notice, nat>, winner: ProviderId, losers: set<Notice>)
    requires Settlement(winner, losers) !! outbox.Keys
    ensures AssignedProvider(winner) !in outbox && AssignmentConfirmed !in outbox && losers !! outbox.Keys
  {
    assert AssignedProvider(winner) in Settlement(winner, losers) && AssignmentConfirmed in Settlement(winner, losers);
    assert losers <= Settlement(winner, losers);
  }

  lemma SettlementStaysAccounted(r: Request, r': Request, winner: ProviderId, n: Notice)
    requires Accounted(n, r) && r.assignee.None? && r'.assignee == Some(winner)
    requires r'.outbox.Keys == r.outbox.Keys + SettlementNotices(r, winner)
    requires r'.opportunities == CloseOpen(r.opportunities) && |r'.quotes| == |r.quotes|
    requires forall s :: Event(StatusUpdated, s) in r'.events <==> Event(StatusUpdated, s) in r.events
    ensures Accounted(n, r')
  {
  }

  lemma SettleKeepsOutbox(r: Request, winner: ProviderId)
    requires OutboxInv(r) && r.assignee.None? && r.status.PendingDispatch?
    ensures OutboxInv(Settle(r, winner))
  {
    var r' := Settle(r, winner);
    SettlementNoticesAreNew(r, winner);
    SettleSendsEachOnce(r, r', winner, Losers(OpenOnes(r.opportunities), winner));
    SettleAddsNoStatusEvent(r, winner);
    SettleSettles(r, winner);
    forall n: Notice ensures Accounted(n, r') {
      SettlementStaysAccounted(r, r', winner, n);
    }
  }

  lemma AssignKeepsInv(r: Request, p: ProviderId, providers: map<ProviderId, Provider>)
    requires Inv(r)
    ensures Inv(After(r, Assign(r, p, providers)))
    ensures Assign(r, p, providers).Committed? ==> Settled(After(r, Assign(r, p, providers)), p)
  {
    if Assign(r, p, providers).Committed? {
      SettleKeepsQuotes(r, p);
      SettleKeepsPayments(r, p);
      SettleKeepsLog(r, p, 0);
      SettleKeepsOutbox(r, p);
      SettleKeepsTracking(r, p);
      SettleSettles(r, p);
    }
  }

  // ---------------------------------------------------------------- status changes

  /** A request that entered a new status, whatever its tracking rows became. */
  function Moved(r: Request, target: Status, tracking: Tracking.Tables): Request {
    Announce(Enter(r, target).(tracking := tracking), StatusChanged(target), 0)
  }

  lemma StartingSettlesStaff(r: Request)
    requires QuoteInv(r) && ServiceMayStart(r.quotes)
    ensures StaffSettled(r.(status := InProgress))
  {
    CountZero(r.quotes, FromStaff);
    if CountQuotes(r.quotes, FromStaff) > 0 {
      var w :| 0 <= w < |r.quotes| && r.quotes[w].provider.None? && r.quotes[w].status.Approved?;
      assert forall i | 0 <= i < |r.quotes| :: r.quotes[i].provider.None? && (i != w ==> !Standing(r.quotes[i]));
    } else {
      assert forall i | 0 <= i < |r.quotes| :: !Passes(r.quotes[i], FromStaff);
    }
  }

  lemma MoveKeepsQuotes(r: Request, r': Request)
    requires QuoteInv(r) && Precedes(r.status, r'.status)
    requires r'.status.InProgress? ==> ServiceMayStart(r.quotes)
    requires r'.quotes == r.quotes && r'.opportunities == r.opportunities && r'.assignee == r.assignee
    ensures QuoteInv(r')
  {
    if r'.status.InProgress? {
      StartingSettlesStaff(r);
    }
    assert StaffSettled(r');
  }

  lemma MoveKeepsPayments(r: Request, r': Request)
    requires PaymentInv(r) && Precedes(r.status, r'.status)
    requires r'.quotes == r.quotes && r'.payments == r.payments
    ensures PaymentInv(r')
  {
  }

  lemma MoveKeepsLog(r: Request, target: Status, tracking: Tracking.Tables)
    requires LogInv(r)
    ensures LogInv(Moved(r, target, tracking))
  {
    AppendOne(r.events, Event(StatusUpdated, target));
  }

  lemma MoveKeepsOutbox(r: Request, target: Status, tracking: Tracking.Tables)
    requires OutboxInv(r) && Precedes(r.status, target)
    ensures OutboxInv(Moved(r, target, tracking))
  {
    var r' := Moved(r, target, tracking);
    assert Accounted(StatusChanged(target), r);
    InsertedOnce(r.outbox, StatusChanged(target), 0);
    forall s ensures Event(StatusUpdated, s) in r'.events <==> Event(StatusUpdated, s) in r.events || s == target {
      AppendedEventMember(r.events, Event(StatusUpdated, target), Event(StatusUpdated, s));
    }
    forall n: Notice ensures Accounted(n, r') {
      MoveStaysAccounted(r, r', target, n);
    }
  }

  lemma MoveStaysAccounted(r: Request, r': Request, target: Status, n: Notice)
    requires Accounted(n, r)
    requires r'.outbox.Keys == r.outbox.Keys + {StatusChanged(target)}
    requires r'.opportunities == r.opportunities && r'.quotes == r.quotes && r'.assignee == r.assignee
    requires forall s :: Event(StatusUpdated, s) in r'.events <==> Event(StatusUpdated, s) in r.events || s == target
    ensures Accounted(n, r')
  {
  }

  lemma UpdateStatusKeepsInv(r: Request, target: Status, trackingEnabled: bool, now: int)
    requires Inv(r)
    ensures Inv(After(r, UpdateStatus(r, target, trackingEnabled, now)))
  {
    var result := UpdateStatus(r, target, trackingEnabled, now);
    if result.Committed? {
      var t := result.request.tracking;
      assert result.request == Moved(r, target, t);
      MoveKeepsQuotes(r, result.request);
      MoveKeepsPayments(r, result.request);
      MoveKeepsLog(r, target, t);
      MoveKeepsOutbox(r, target, t);
      StopKeepsTracking(r, result.request, now);
    }
  }

  lemma StopKeepsTracking(r: Request, r': Request, now: int)
    requires TrackingInv(r) && Precedes(r.status, r'.status) && r'.assignee == r.assignee
    requires r'.tracking == if r'.status.Completed? then Tracking.Stop(r.tracking, Tracking.ByCompletion, now)
                            else if r'.status.Cancelled? then Tracking.Stop(r.tracking, Tracking.ByCancellation, now)
                            else r.tracking
    ensures TrackingInv(r')
  {
    Tracking.StopKeepsInv(r.tracking, Tracking.ByCompletion, now);
    Tracking.StopKeepsInv(r.tracking, Tracking.ByCancellation, now);
  }

  /** The session insert never meets a row: the request leaves `Assigned` only once. */
  lemma TrackingAlwaysStarts(r: Request, p: ProviderId, now: int)
    requires TrackingInv(r) && r.status.Assigned?
    ensures Tracking.Start(r.tracking, p, now).Some?
  {
  }

  lemma ProviderStatusKeepsInv(r: Request, p: ProviderId, target: Status, providers: map<ProviderId, Provider>,
                               trackingEnabled: bool, now: int)
    requires Inv(r)
    ensures var result := UpdateStatusForProvider(r, p, target, providers, trackingEnabled, now);
      && result != Refused(TrackingNotStarted)
      && Inv(After(r, result))
  {
    var result := UpdateStatusForProvider(r, p, target, providers, trackingEnabled, now);
    if result.Committed? {
      var t := result.request.tracking;
      assert result.request == Moved(r, target, t);
      MoveKeepsQuotes(r, result.request);
      MoveKeepsPayments(r, result.request);
      MoveKeepsLog(r, target, t);
      MoveKeepsOutbox(r, target, t);
      if target.OnTheWay? && trackingEnabled {
        Tracking.StartKeepsInv(r.tracking, p, now);
      } else {
        StopKeepsTracking(r, result.request, now);
      }
    }
  }

  // ---------------------------------------------------------------- quotes

  lemma AppendedQuoteKeepsLog(r: Request, r': Request, q: Quote)
    requires LogInv(r) && q.status.Proposed?
    requires r'.quotes == r.quotes + [q] && r'.status == r.status
    requires r'.events == r.events +
      [Event(if q.provider.Some? then ProviderQuoteSubmitted else QuoteProposed, r.status)]
    requires |r'.opportunities| == |r.opportunities| && ClosedOnes(r'.opportunities) == ClosedOnes(r.opportunities)
    ensures LogInv(r')
  {
    AppendOne(r.events, r'.events[|r.events|]);
    CountAppended(r.quotes, q);
  }

  lemma AppendedQuoteKeepsOutbox(r: Request, r': Request, kind: EventKind)
    requires OutboxInv(r) && !kind.StatusUpdated?
    requires |r'.quotes| == |r.quotes| + 1 && r'.status == r.status && r'.assignee == r.assignee
    requires r'.events == r.events + [Event(kind, r.status)]
    requires r'.outbox == Insert(r.outbox, QuoteReceived(|r.quotes|), 0) && r'.announced == r.announced + 1
    requires r'.opportunities.Keys == r.opportunities.Keys
    requires ClosedOnes(r'.opportunities) == ClosedOnes(r.opportunities)
    ensures OutboxInv(r')
  {
    assert Accounted(QuoteReceived(|r.quotes|), r);
    InsertedOnce(r.outbox, QuoteReceived(|r.quotes|), 0);
    forall s ensures Event(StatusUpdated, s) in r'.events <==> Event(StatusUpdated, s) in r.events {
      AppendedEventMember(r.events, Event(kind, r.status), Event(StatusUpdated, s));
    }
    forall n: Notice ensures Accounted(n, r') {
      QuoteStaysAccounted(r, r', n);
    }
  }

  lemma AppendedQuoteKeepsPayments(r: Request, r': Request, q: Quote)
    requires PaymentInv(r) && q.status.Proposed?
    requires r'.quotes == r.quotes + [q] && r'.payments == r.payments && r'.status == r.status
    ensures PaymentInv(r')
  {
  }

  lemma QuoteStaysAccounted(r: Request, r': Request, n: Notice)
    requires Accounted(n, r)
    requires r'.outbox.Keys == r.outbox.Keys + {QuoteReceived(|r.quotes|)} && |r'.quotes| == |r.quotes| + 1
    requires r'.opportunities.Keys == r.opportunities.Keys && r'.assignee == r.assignee
    requires ClosedOnes(r'.opportunities) == ClosedOnes(r.opportunities)
    requires forall s :: Event(StatusUpdated, s) in r'.events <==> Event(StatusUpdated, s) in r.events
    ensures Accounted(n, r')
  {
    if n.LostOpportunity? && n in r.outbox {
      assert n.provider in ClosedOnes(r.opportunities);
    }
  }

  lemma ProposeKeepsInv(r: Request, amount: int)
    requires Inv(r)
    ensures Inv(After(r, ProposeQuote(r, amount)))
  {
    var result := ProposeQuote(r, amount);
    if result.Committed? {
      var r' := result.request;
      var q := Quote(None, amount, Proposed);
      AppendedQuoteKeepsLog(r, r', q);
      AppendedQuoteKeepsOutbox(r, r', QuoteProposed);
      AppendedQuoteKeepsPayments(r, r', q);
      ProposeKeepsQuotes(r, r', amount);
      assert TrackingInv(r');
    }
  }

  lemma ProposeKeepsQuotes(r: Request, r': Request, amount: int)
    requires QuoteInv(r) && !AnyStanding(r.quotes) && r.opportunities == map[]
    requires r.status.Assigned? || r.status.OnTheWay?
    requires r'.quotes == r.quotes + [Quote(None, amount, Proposed)]
    requires r'.opportunities == r.opportunities && r'.status == r.status && r'.assignee == r.assignee
    ensures QuoteInv(r')
  {
    forall i | 0 <= i < |r.quotes| ensures r.quotes[i].provider.None? && !Standing(r.quotes[i]) {
      assert QuoteMatchesOpportunity(r.quotes[i], r.opportunities);
    }
    assert forall i | 0 <= i < |r'.quotes| :: r'.quotes[i].provider.None?;
  }

  lemma SubmitKeepsInv(r: Request, p: ProviderId, amount: int)
    requires Inv(r)
    ensures Inv(After(r, SubmitQuote(r, p, amount)))
  {
    var result := SubmitQuote(r, p, amount);
    if result.Committed? {
      var r' := result.request;
      assert r'.opportunities.Keys == r.opportunities.Keys;
      assert ClosedOnes(r'.opportunities) == ClosedOnes(r.opportunities);
      assert |r'.opportunities.Keys| == |r'.opportunities| && |r.opportunities.Keys| == |r.opportunities|;
      var q := Quote(Some(p), amount, Proposed);
      AppendedQuoteKeepsLog(r, r', q);
      AppendedQuoteKeepsOutbox(r, r', ProviderQuoteSubmitted);
      AppendedQuoteKeepsPayments(r, r', q);
      SubmitKeepsQuotes(r, r', p, amount);
    }
  }

  /** An open opportunity whose provider has no standing quote has no quote by that provider at all. */
  lemma OpenMeansUnquoted(r: Request, p: ProviderId)
    requires QuoteInv(r) && p in r.opportunities && Open(r.opportunities[p]) && !OwnStanding(r.quotes, p)
    ensures r.opportunities[p].Invited?
    ensures forall i | 0 <= i < |r.quotes| :: r.quotes[i].provider != Some(p)
  {
    forall i | 0 <= i < |r.quotes| ensures r.quotes[i].provider != Some(p) {
      assert QuoteMatchesOpportunity(r.quotes[i], r.opportunities);
    }
  }

  lemma SubmitKeepsQuotes(r: Request, r': Request, p: ProviderId, amount: int)
    requires QuoteInv(r) && r.status.PendingDispatch?
    requires p in r.opportunities && Open(r.opportunities[p]) && !OwnStanding(r.quotes, p)
    requires r'.quotes == r.quotes + [Quote(Some(p), amount, Proposed)]
    requires r'.opportunities == r.opportunities[p := Quoted]
    requires r'.status == r.status && r'.assignee == r.assignee
    ensures QuoteInv(r')
  {
    OpenMeansUnquoted(r, p);
    var q := r'.quotes[|r.quotes|];
    assert q == Quote(Some(p), amount, Proposed);
    forall i | 0 <= i < |r'.quotes| ensures QuoteMatchesOpportunity(r'.quotes[i], r'.opportunities) {
      if i < |r.quotes| {
        assert QuoteMatchesOpportunity(r.quotes[i], r.opportunities);
      }
    }
    forall x | x in r'.opportunities && r'.opportunities[x].Quoted? ensures HasProposed(r'.quotes, x) {
      if x == p {
        assert r'.quotes[|r.quotes|].provider == Some(x);
      } else {
        assert HasProposed(r.quotes, x);
        var i :| 0 <= i < |r.quotes| && r.quotes[i].provider == Some(x) && r.quotes[i].status.Proposed?;
        assert r'.quotes[i] == r.quotes[i];
      }
    }
  }

  // ---------------------------------------------------------------- one decided quote

  /** Quote `k` left `Proposed` and its opportunity, if any, moved with it. */
  ghost predicate DecidedOne(r: Request, r': Request, k: nat, status: QuoteStatus) {
    && k < |r.quotes| && r.quotes[k].status.Proposed?
    && r'.quotes == r.quotes[k := r.quotes[k].(status := status)]
    && r'.status == r.status && r'.assignee == r.assignee && r'.payments == r.payments
    && r'.tracking == r.tracking && r'.outbox == r.outbox && r'.announced == r.announced
  }

  /** Only the decided quote's opportunity changed: away from `Quoted`, and never back to `Invited`. */
  ghost predicate OneOpportunityMoved(o: map<ProviderId, OpportunityStatus>, o': map<ProviderId, OpportunityStatus>,
                                      p: Option<ProviderId>)
  {
    && o'.Keys == o.Keys
    && (forall x | x in o && p != Some(x) :: o'[x] == o[x])
    && (p.Some? && p.value in o ==> !o'[p.value].Quoted? && !o'[p.value].Invited?)
  }

  lemma DroppedQuoteKeepsQuotes(r: Request, r': Request, k: nat, status: QuoteStatus)
    requires QuoteInv(r) && DecidedOne(r, r', k, status) && (status.Rejected? || status.Withdrawn?)
    requires OneOpportunityMoved(r.opportunities, r'.opportunities, r.quotes[k].provider)
    ensures QuoteInv(r')
  {
    var p := r.quotes[k].provider;
    forall i | 0 <= i < |r'.quotes| ensures QuoteMatchesOpportunity(r'.quotes[i], r'.opportunities) {
      assert QuoteMatchesOpportunity(r.quotes[i], r.opportunities);
    }
    forall x | x in r'.opportunities && r'.opportunities[x].Quoted? ensures HasProposed(r'.quotes, x) {
      assert HasProposed(r.quotes, x);
      var i :| 0 <= i < |r.quotes| && r.quotes[i].provider == Some(x) && r.quotes[i].status.Proposed?;
      assert r'.quotes[i] == r.quotes[i];
    }
    if r.status.InProgress? || r.status.Completed? {
      DroppedQuoteKeepsStaffSettled(r, r', k, status);
    }
  }

  lemma DroppedQuoteKeepsStaffSettled(r: Request, r': Request, k: nat, status: QuoteStatus)
    requires StaffSettled(r) && DecidedOne(r, r', k, status)
    ensures StaffSettled(r')
  {
  }

  lemma DroppedQuoteKeepsPayments(r: Request, r': Request, k: nat, status: QuoteStatus)
    requires PaymentInv(r) && DecidedOne(r, r', k, status) && (status.Rejected? || status.Withdrawn?)
    ensures PaymentInv(r')
  {
    assert r'.payments == r.payments;
    forall i | 0 <= i < |r'.quotes| && r'.quotes[i].status.Approved? ensures HasPayment(r'.payments, i) {
      assert r.quotes[i].status.Approved?;
    }
  }

  lemma MovingOneClosesNone(o: map<ProviderId, OpportunityStatus>, o': map<ProviderId, OpportunityStatus>)
    requires o'.Keys == o.Keys
    requires forall p | p in o :: o'[p].Closed? ==> o[p].Closed?
    ensures |ClosedOnes(o')| <= |ClosedOnes(o)| && |o'| == |o|
  {
    assert ClosedOnes(o') <= ClosedOnes(o);
    SubsetSize(ClosedOnes(o'), ClosedOnes(o));
    assert |o'.Keys| == |o'| && |o.Keys| == |o|;
  }

  lemma DroppedQuoteKeepsLog(r: Request, r': Request, k: nat, status: QuoteStatus, e: Event)
    requires LogInv(r) && DecidedOne(r, r', k, status)
    requires (status.Rejected? && e.kind.QuoteRejected?) || (status.Withdrawn? && e.kind.ProviderQuoteWithdrawn?)
    requires r'.events == r.events + [e]
    requires r'.opportunities.Keys == r.opportunities.Keys
    requires forall p | p in r.opportunities :: r'.opportunities[p].Closed? ==> r.opportunities[p].Closed?
    ensures LogInv(r')
  {
    AppendOne(r.events, e);
    CountUpdated(r.quotes, k, r.quotes[k].(status := status));
    MovingOneClosesNone(r.opportunities, r'.opportunities);
  }

  /** Decisions that send nothing: the outbox still accounts for the rows. */
  lemma SilentStepKeepsOutbox(r: Request, r': Request, e: Event)
    requires OutboxInv(r) && !e.kind.StatusUpdated?
    requires r'.events == r.events + [e] && r'.outbox == r.outbox && r'.announced == r.announced
    requires |r'.quotes| == |r.quotes| && r'.assignee == r.assignee && r'.status == r.status
    requires r'.opportunities.Keys == r.opportunities.Keys
    requires r.assignee.Some? ==>
      forall p | p in r.opportunities && r.opportunities[p].Closed? :: r'.opportunities[p].Closed?
    ensures OutboxInv(r')
  {
    forall s ensures Event(StatusUpdated, s) in r'.events <==> Event(StatusUpdated, s) in r.events {
      AppendedEventMember(r.events, e, Event(StatusUpdated, s));
    }
    forall n: Notice ensures Accounted(n, r') {
      assert Accounted(n, r);
    }
  }

  lemma WithdrawKeepsInv(r: Request, k: nat, p: ProviderId)
    requires Inv(r)
    ensures Inv(After(r, WithdrawQuote(r, k, p)))
  {
    var result := WithdrawQuote(r, k, p);
    if result.Committed? {
      var r' := result.request;
      assert QuoteMatchesOpportunity(r.quotes[k], r.opportunities);
      assert r'.opportunities == r.opportunities[p := Retracted];
      assert r'.opportunities.Keys == r.opportunities.Keys;
      DroppedQuoteKeepsQuotes(r, r', k, Withdrawn);
      DroppedQuoteKeepsPayments(r, r', k, Withdrawn);
      DroppedQuoteKeepsLog(r, r', k, Withdrawn, Event(ProviderQuoteWithdrawn, PendingDispatch));
      SilentStepKeepsOutbox(r, r', Event(ProviderQuoteWithdrawn, PendingDispatch));
      assert TrackingInv(r');
    }
  }

  lemma RejectKeepsInv(r: Request, customer: nat, k: nat, providers: map<ProviderId, Provider>)
    requires Inv(r)
    ensures Inv(After(r, DecideQuote(r, customer, k, false, providers)))
  {
    var result := DecideQuote(r, customer, k, false, providers);
    if result.Committed? {
      var r' := result.request;
      assert QuoteMatchesOpportunity(r.quotes[k], r.opportunities);
      assert r'.opportunities.Keys == r.opportunities.Keys;
      DroppedQuoteKeepsQuotes(r, r', k, Rejected);
      DroppedQuoteKeepsPayments(r, r', k, Rejected);
      DroppedQuoteKeepsLog(r, r', k, Rejected, Event(QuoteRejected, r.status));
      SilentStepKeepsOutbox(r, r', Event(QuoteRejected, r.status));
      assert TrackingInv(r');
    }
  }

  // ---------------------------------------------------------------- approval

  /** The rows right after the approved quote and its payment were written. */
  function Paid(r: Request, k: nat): Request
    requires k < |r.quotes|
  {
    r.(quotes := r.quotes[k := r.quotes[k].(status := Approved)],
       payments := AddPayment(r.payments, k, r.quotes[k].amount))
  }

  /** An approval always creates its payment: the conflict clause on the quote id never applies. */
  lemma ApprovalPaysOnce(r: Request, k: nat)
    requires PaymentInv(r) && k < |r.quotes| && r.quotes[k].status.Proposed?
    ensures !HasPayment(r.payments, k)
    ensures PaymentInv(Paid(r, k))
    ensures Paid(r, k).payments == r.payments + [Payment(k, r.quotes[k].amount, CashDue)]
  {
    var r' := Paid(r, k);
    assert !HasPayment(r.payments, k);
    forall i | 0 <= i < |r'.quotes| && r'.quotes[i].status.Approved? ensures HasPayment(r'.payments, i) {
      if i == k {
        assert r'.payments[|r.payments|].quote == k;
      } else {
        assert HasPayment(r.payments, i);
        var m :| 0 <= m < |r.payments| && r.payments[m].quote == i;
        assert r'.payments[m].quote == i;
      }
    }
  }

  lemma ApprovalOwesOneEvent(r: Request, k: nat)
    requires LogInv(r) && k < |r.quotes| && r.quotes[k].status.Proposed?
    ensures LogInvOwing(Paid(r, k), 1)
  {
    CountUpdated(r.quotes, k, r.quotes[k].(status := Approved));
  }

  lemma LoggingPaysTheDebt(r: Request, r': Request, status: Status)
    requires LogInvOwing(r, 1)
    requires r' == Log(r, QuoteApproved, status)
    ensures LogInv(r')
  {
    AppendOne(r.events, Event(QuoteApproved, status));
  }

  lemma PaidKeepsOutbox(r: Request, k: nat)
    requires OutboxInv(r) && k < |r.quotes|
    ensures OutboxInv(Paid(r, k))
  {
    forall n: Notice ensures Accounted(n, Paid(r, k)) {
      assert Accounted(n, r);
    }
  }

  lemma PaidIsReady(r: Request, k: nat, winner: ProviderId)
    requires QuoteInv(r) && r.status.PendingDispatch?
    requires k < |r.quotes| && r.quotes[k].provider == Some(winner)
    ensures ReadyToSettle(Paid(r, k), winner)
  {
    forall i | 0 <= i < |r.quotes| ensures QuoteMatchesOpportunity(Paid(r, k).quotes[i], r.opportunities) {
      assert QuoteMatchesOpportunity(r.quotes[i], r.opportunities);
    }
  }

  lemma ApproveProviderKeepsInv(r: Request, k: nat, winner: ProviderId)
    requires Inv(r) && r.status.PendingDispatch?
    requires k < |r.quotes| && r.quotes[k] == Quote(Some(winner), r.quotes[k].amount, Proposed)
    ensures Inv(Log(Settle(Paid(r, k), winner), QuoteApproved, r.status))
  {
    var paid := Paid(r, k);
    var settled := Settle(paid, winner);
    PaidIsReady(r, k, winner);
    ApprovalPaysOnce(r, k);
    ApprovalOwesOneEvent(r, k);
    PaidKeepsOutbox(r, k);
    SettleKeepsQuotes(paid, winner);
    SettleKeepsPayments(paid, winner);
    SettleKeepsLog(paid, winner, 1);
    SettleKeepsOutbox(paid, winner);
    SettleKeepsTracking(paid, winner);
    ApprovalLogged(settled, Log(settled, QuoteApproved, r.status), r.status);
  }

  lemma ApprovalLogged(r: Request, r': Request, status: Status)
    requires QuoteInv(r) && PaymentInv(r) && LogInvOwing(r, 1) && OutboxInv(r) && TrackingInv(r)
    requires r' == Log(r, QuoteApproved, status)
    ensures Inv(r')
  {
    LoggingPaysTheDebt(r, r', status);
    SilentStepKeepsOutbox(r, r', Event(QuoteApproved, status));
    assert QuoteInv(r') && PaymentInv(r') && TrackingInv(r');
  }

  lemma ApproveStaffKeepsInv(r: Request, k: nat)
    requires Inv(r)
    requires k < |r.quotes| && r.quotes[k].provider.None? && r.quotes[k].status.Proposed?
    ensures Inv(Log(Paid(r, k), QuoteApproved, r.status))
  {
    var paid := Paid(r, k);
    ApprovalPaysOnce(r, k);
    ApprovalOwesOneEvent(r, k);
    PaidKeepsOutbox(r, k);
    ApproveStaffKeepsQuotes(r, k);
    assert TrackingInv(paid);
    ApprovalLogged(paid, Log(paid, QuoteApproved, r.status), r.status);
  }

  lemma ApproveStaffKeepsQuotes(r: Request, k: nat)
    requires QuoteInv(r)
    requires k < |r.quotes| && r.quotes[k].provider.None? && r.quotes[k].status.Proposed?
    ensures QuoteInv(Paid(r, k))
  {
    var paid := Paid(r, k);
    forall i | 0 <= i < |r.quotes| ensures paid.quotes[i].provider.None? && (i != k ==> !Standing(paid.quotes[i])) {
      assert r.quotes[i].provider.None?;
    }
    forall p | p in r.opportunities ensures !r.opportunities[p].Quoted? {
    }
    DroppedStaffSettled(r, k);
  }

  /** While service runs no staff quote is proposed, so none can be approved then. */
  lemma DroppedStaffSettled(r: Request, k: nat)
    requires StaffSettled(r) && k < |r.quotes| && r.quotes[k].provider.None? && r.quotes[k].status.Proposed?
    ensures !r.status.InProgress? && !r.status.Completed?
  {
  }

  lemma DecideKeepsInv(r: Request, customer: nat, k: nat, approve: bool, providers: map<ProviderId, Provider>)
    requires Inv(r)
    ensures Inv(After(r, DecideQuote(r, customer, k, approve, providers)))
  {
    var result := DecideQuote(r, customer, k, approve, providers);
    if result.Committed? {
      if !approve {
        RejectKeepsInv(r, customer, k, providers);
      } else if r.quotes[k].provider.Some? {
        ApproveProviderKeepsInv(r, k, r.quotes[k].provider.value);
      } else {
        ApproveStaffKeepsInv(r, k);
      }
    }
  }

  // ---------------------------------------------------------------- closing, cash and tracking

  lemma CloseKeepsLog(r: Request, r': Request, p: ProviderId)
    requires LogInv(r) && p in r.opportunities && Open(r.opportunities[p])
    requires r'.opportunities == r.opportunities[p := Closed] && r'.quotes == r.quotes && r'.status == r.status
    requires r'.events == r.events + [Event(OpportunityClosed, r.status)]
    ensures LogInv(r')
  {
    assert |r'.opportunities.Keys| == |r'.opportunities| && |r.opportunities.Keys| == |r.opportunities|;
    assert r'.opportunities.Keys == r.opportunities.Keys;
    assert ClosedOnes(r'.opportunities) == ClosedOnes(r.opportunities) + {p};
    AppendOne(r.events, Event(OpportunityClosed, r.status));
  }

  lemma CloseKeepsInv(r: Request, p: ProviderId)
    requires Inv(r)
    ensures Inv(After(r, CloseOpportunity(r, p)))
  {
    var result := CloseOpportunity(r, p);
    if result.Committed? {
      var r' := result.request;
      assert r'.opportunities.Keys == r.opportunities.Keys;
      CloseKeepsLog(r, r', p);
      SilentStepKeepsOutbox(r, r', Event(OpportunityClosed, r.status));
      CloseKeepsQuotes(r, r', p);
      assert PaymentInv(r') && TrackingInv(r');
    }
  }

  lemma CloseKeepsQuotes(r: Request, r': Request, p: ProviderId)
    requires QuoteInv(r) && p in r.opportunities
    requires r'.opportunities == r.opportunities[p := Closed]
    requires r'.quotes == r.quotes && r'.status == r.status && r'.assignee == r.assignee
    ensures QuoteInv(r')
  {
    forall i | 0 <= i < |r.quotes| ensures QuoteMatchesOpportunity(r'.quotes[i], r'.opportunities) {
      assert QuoteMatchesOpportunity(r.quotes[i], r.opportunities);
    }
    forall x | x in r'.opportunities && r'.opportunities[x].Quoted? ensures HasProposed(r'.quotes, x) {
      assert HasProposed(r.quotes, x);
    }
  }

  lemma CashKeepsInv(r: Request)
    requires Inv(r)
    ensures Inv(After(r, CollectCash(r)))
    ensures Inv(After(r, RefundCash(r)))
  {
    if CollectCash(r).Committed? {
      PaymentStatusKeepsInv(r, CollectCash(r).request, CashCollected);
    }
    if RefundCash(r).Committed? {
      PaymentStatusKeepsInv(r, RefundCash(r).request, Refunded);
    }
  }

  lemma PaymentStatusKeepsInv(r: Request, r': Request, status: PaymentStatus)
    requires Inv(r) && r.payments != [] && r.status.Completed?
    requires r' == r.(payments := r.payments[0 := r.payments[0].(status := status)])
    ensures Inv(r')
  {
    forall i | 0 <= i < |r.quotes| && r.quotes[i].status.Approved? ensures HasPayment(r'.payments, i) {
      var m :| 0 <= m < |r.payments| && r.payments[m].quote == i;
      assert r'.payments[m].quote == i;
    }
    assert PaymentInv(r') && QuoteInv(r') && LogInv(r') && TrackingInv(r');
    forall n: Notice ensures Accounted(n, r') {
      assert Accounted(n, r);
    }
  }

  lemma TrackingRowsKeepRest(r: Request, tracking: Tracking.Tables)
    requires Inv(r)
    ensures var r' := r.(tracking := tracking); QuoteInv(r') && PaymentInv(r') && LogInv(r') && OutboxInv(r')
  {
    var r' := r.(tracking := tracking);
    forall n: Notice ensures Accounted(n, r') {
      assert Accounted(n, r);
    }
  }

  lemma SampleKeepsInv(r: Request, p: ProviderId, s: Tracking.Sample, distance: Option<real>, at: int, enabled: bool)
    requires Inv(r)
    ensures Inv(After(r, SubmitSample(r, p, s, distance, at, enabled)))
  {
    hide Inv, Tracking.Inv, Tracking.Submit;
    if SubmitSample(r, p, s, distance, at, enabled).Committed? {
      SampleKeepsRows(r, p, s, distance, at);
    }
  }

  lemma SampleKeepsRows(r: Request, p: ProviderId, s: Tracking.Sample, distance: Option<real>, at: int)
    requires Inv(r) && Tracking.Judge(r.tracking, p, s).Accepted? && (r.status.OnTheWay? || r.status.InProgress?)
    ensures Inv(r.(tracking := Tracking.Submit(r.tracking, p, s, distance, at)))
  {
    Tracking.SubmitKeepsInv(r.tracking, p, s, distance, at);
    TrackingRowsKeepRest(r, Tracking.Submit(r.tracking, p, s, distance, at));
  }

  lemma StoppingKeepsInv(r: Request, reason: Tracking.StopReason, now: int)
    requires Inv(r)
    ensures Inv(r.(tracking := Tracking.Stop(r.tracking, reason, now)))
  {
    Tracking.StopKeepsInv(r.tracking, reason, now);
    TrackingRowsKeepRest(r, Tracking.Stop(r.tracking, reason, now));
  }

  lemma EmergencyKeepsInv(r: Request, enabled: bool, now: int)
    requires Inv(r)
    ensures Inv(After(r, StopForOperations(r, enabled, now)))
  {
    StoppingKeepsInv(r, Tracking.OperationsEmergency, now);
  }

  lemma SuspendKeepsInv(r: Request, p: ProviderId, now: int)
    requires Inv(r)
    ensures Inv(SuspendIn(r, p, now))
  {
    StoppingKeepsInv(r, Tracking.ProviderSuspended, now);
    assert SuspendIn(r, p, now) == r
      || SuspendIn(r, p, now) == r.(tracking := Tracking.Stop(r.tracking, Tracking.ProviderSuspended, now));
  }

  lemma PruneKeepsInv(r: Request, id: nat, victims: map<nat, set<int>>, rawBefore: int, evidenceBefore: int)
    requires Inv(r)
    ensures Inv(PruneRequest(r, id, victims, rawBefore, evidenceBefore))
  {
    if id in victims {
      Tracking.PruneKeepsInv(r.tracking, victims[id], rawBefore, evidenceBefore, true);
      TrackingRowsKeepRest(r, Tracking.Prune(r.tracking, victims[id], rawBefore, evidenceBefore, true));
    }
  }

  // ---------------------------------------------------------------- every action

  lemma ActKeepsInv(r: Request, a: Action, providers: map<ProviderId, Provider>, trackingEnabled: bool)
    requires Inv(r)
    ensures Inv(After(r, Act(r, a, providers, trackingEnabled)))
  {
    hide Inv;
    match a
    case DoInvite(ids) => InviteKeepsInv(r, ids, providers);
    case DoAssign(p) => AssignKeepsInv(r, p, providers);
    case DoUpdateStatus(target, now) => UpdateStatusKeepsInv(r, target, trackingEnabled, now);
    case DoProviderStatus(p, target, now) => ProviderStatusKeepsInv(r, p, target, providers, trackingEnabled, now);
    case DoPropose(amount) => ProposeKeepsInv(r, amount);
    case DoSubmit(p, amount) => SubmitKeepsInv(r, p, amount);
    case DoWithdraw(k, p) => WithdrawKeepsInv(r, k, p);
    case DoDecide(customer, k, approve) => DecideKeepsInv(r, customer, k, approve, providers);
    case DoClose(p) => CloseKeepsInv(r, p);
    case DoCollect => CashKeepsInv(r);
    case DoRefund => CashKeepsInv(r);
    case DoSample(p, s, distance, at) => SampleKeepsInv(r, p, s, distance, at, trackingEnabled);
    case DoStopTracking(now) => EmergencyKeepsInv(r, trackingEnabled, now);
  }
}
