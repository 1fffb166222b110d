/** Which single moves the rows of a request can make, and on whose behalf; whole runs are paths of such moves. */
module MarketplaceSteps {
  import opened Domain
  import opened EventLog
  import opened Marketplace
  import opened MarketplaceInvariants
  import opened MarketplaceProofs
  import opened MarketplaceRuns

  // ---------------------------------------------------------------- the life cycles, as tables of edges

  const REQUEST_EDGES: set<(Status, Status)> := {
    (PendingDispatch, Assigned), (Assigned, OnTheWay), (OnTheWay, InProgress), (InProgress, Completed),
    (PendingDispatch, Cancelled), (Assigned, Cancelled), (OnTheWay, Cancelled)
  }

  const OPPORTUNITY_EDGES: set<(OpportunityStatus, OpportunityStatus)> := {
    (Invited, Quoted), (Invited, Closed), (Quoted, Closed), (Quoted, Declined), (Quoted, Retracted), (Closed, Retracted)
  }

  const QUOTE_EDGES: set<(QuoteStatus, QuoteStatus)> := {
    (Proposed, Approved), (Proposed, Rejected), (Proposed, Withdrawn)
  }

  const PAYMENT_EDGES: set<(PaymentStatus, PaymentStatus)> := {(CashDue, CashCollected), (CashCollected, Refunded)}

  // ---------------------------------------------------------------- one transaction

  /** The request moves along at most one edge, logged by exactly one moving event. */
  ghost predicate StatusMove(r: Request, r': Request, a: Action, trackingEnabled: bool) {
    && Itinerary(r'.events) == Itinerary(r.events) + (if r'.status == r.status then [] else [r'.status])
    && (r'.status != r.status ==>
          && (r.status, r'.status) in REQUEST_EDGES
          && (r'.status.Assigned? ==> a.DoAssign? || (a.DoDecide? && a.approve))
          && (a.DoProviderStatus? ==> r.assignee == Some(a.p))
          && (r'.status.OnTheWay? && trackingEnabled ==> a.DoProviderStatus?)
          && (r'.status.InProgress? ==> ServiceMayStart(r.quotes)))
  }

  /** A provider is assigned only while verified and available, by staff or by winning the request. */
  ghost predicate AssigneeMove(r: Request, r': Request, a: Action, providers: map<ProviderId, Provider>) {
    r'.assignee != r.assignee ==>
      && r.status.PendingDispatch? && r'.assignee.Some?
      && var p := r'.assignee.value;
      && p in providers && providers[p].verification.Verified? && providers[p].available
      && (if a.DoAssign? then a.p == p && r.serviceId in providers[p].specialties
          else a.DoDecide? && a.quote < |r.quotes| && r.quotes[a.quote].provider == Some(p))
  }

  /** New opportunities are invitations of eligible providers while nothing stands; old ones follow their edges. */
  ghost predicate OpportunityMove(r: Request, r': Request, a: Action, providers: map<ProviderId, Provider>) {
    && (forall p | p in r'.opportunities && p !in r.opportunities ::
          && a.DoInvite? && p in a.ids && Eligible(p, providers, r.serviceId) && r'.opportunities[p].Invited?
          && !r.status.Completed? && !r.status.Cancelled? && !AnyStanding(r.quotes))
    && (forall p | p in r.opportunities ::
          && p in r'.opportunities
          && (r'.opportunities[p] == r.opportunities[p]
            || (r.opportunities[p], r'.opportunities[p]) in OPPORTUNITY_EDGES))
  }

  /**
   A new quote is a proposal, a provider's only on its open invitation, staff's only outside the marketplace;
   only its customer approves one, only its provider withdraws it.
   */
  ghost predicate QuoteMove(r: Request, r': Request, a: Action) {
    && |r.quotes| <= |r'.quotes|
    && (forall i | |r.quotes| <= i < |r'.quotes| ::
          if r'.quotes[i].provider.Some? then
            && a.DoSubmit? && r'.quotes[i] == Quote(Some(a.p), a.amount, Proposed)
            && r.status.PendingDispatch? && a.p in r.opportunities && r.opportunities[a.p].Invited?
          else
            && a.DoPropose? && r'.quotes[i] == Quote(None, a.amount, Proposed)
            && (r.status.Assigned? || r.status.OnTheWay?) && r.opportunities == map[] && !AnyStanding(r.quotes))
    && (forall i | 0 <= i < |r.quotes| :: QuoteRowMove(r, r.quotes[i], r'.quotes[i], i, r'.assignee, a))
  }

  ghost predicate QuoteRowMove(r: Request, q: Quote, q': Quote, i: nat, assignee': Option<ProviderId>, a: Action) {
    && q'.provider == q.provider && q'.amount == q.amount
    && (q'.status != q.status ==>
          && (q.status, q'.status) in QUOTE_EDGES
          && (q'.status.Approved? ==> a.DoDecide? && a.approve && a.customer == r.customer && a.quote == i)
          && (q'.status.Withdrawn? ==> a.DoWithdraw? && q.provider == Some(a.p) && a.quote == i)
          && (q'.status.Rejected? ==>
                || (a.DoDecide? && !a.approve && a.customer == r.customer && a.quote == i)
                || (q.provider.Some? && assignee' != r.assignee)))
  }

  /** A payment is made by an approval, for the amount quoted; cash is collected once, after completion, then
      refunded once. */
  ghost predicate PaymentMove(r: Request, r': Request, a: Action) {
    && |r.payments| <= |r'.payments| <= |r.payments| + 1
    && (|r'.payments| > |r.payments| ==>
          && a.DoDecide? && a.approve && a.quote < |r.quotes|
          && r'.payments[|r.payments|] == Payment(a.quote, r.quotes[a.quote].amount, CashDue))
    && (forall m | 0 <= m < |r.payments| ::
          && r'.payments[m].quote == r.payments[m].quote && r'.payments[m].amount == r.payments[m].amount
          && (r'.payments[m].status != r.payments[m].status ==>
                && (r.payments[m].status, r'.payments[m].status) in PAYMENT_EDGES
                && (r'.payments[m].status.CashCollected? ==> a.DoCollect? && r.status.Completed?)
                && (r'.payments[m].status.Refunded? ==> a.DoRefund?)))
  }

  ghost predicate LegalMove(r: Request, r': Request, a: Action, providers: map<ProviderId, Provider>,
                            trackingEnabled: bool) {
    && StatusMove(r, r', a, trackingEnabled)
    && AssigneeMove(r, r', a, providers)
    && OpportunityMove(r, r', a, providers)
    && QuoteMove(r, r', a)
    && PaymentMove(r, r', a)
  }

  /** The statuses a request has entered, in order. */
  function Itinerary(events: seq<Event>): seq<Status> {
    if events == [] then []
    else
      var last := events[|events| - 1];
      Itinerary(events[..|events| - 1]) + if Moves(last.kind) then [last.status] else []
  }

  lemma OneMoreEvent(events: seq<Event>, e: Event)
    ensures Itinerary(events + [e]) == Itinerary(events) + if Moves(e.kind) then [e.status] else []
  {
    assert (events + [e])[..|events|] == events;
  }

  lemma {:induction false} QuietEvents(events: seq<Event>, e: Event, n: nat)
    requires !Moves(e.kind)
    ensures Itinerary(events + Repeat(e, n)) == Itinerary(events)
  {
    hide Itinerary;
    if n == 0 {
      assert events + Repeat(e, n) == events;
    } else {
      QuietEvents(events, e, n - 1);
      OneMoreEvent(events + Repeat(e, n - 1), e);
      RepeatOneMore(events, e, n - 1);
    }
  }

  // ---------------------------------------------------------------- every transaction makes a legal move

  lemma NoMove(r: Request, a: Action, providers: map<ProviderId, Provider>, trackingEnabled: bool)
    ensures LegalMove(r, r, a, providers, trackingEnabled)
  {
  }

  lemma InviteMoves(r: Request, a: Action, providers: map<ProviderId, Provider>, trackingEnabled: bool)
    requires a.DoInvite?
    ensures LegalMove(r, After(r, Act(r, a, providers, trackingEnabled)), a, providers, trackingEnabled)
  {
    hide AssigneeMove, PaymentMove, QuoteMove, OpportunityMove, Itinerary, InvitationsTo, InsertAll, Repeat;
    var r' := After(r, Invite(r, a.ids, providers));
    var added := EligibleAmong(a.ids, providers, r.serviceId) - r.opportunities.Keys;
    RestUnmoved(r, r', a, providers);
    QuietEvents(r.events, Event(OpportunityInvited, r.status), |added|);
    if r' != r {
      InvitedMoves(r, r', a, providers, added);
    }
  }

  lemma InvitedMoves(r: Request, r': Request, a: Action, providers: map<ProviderId, Provider>, added: set<ProviderId>)
    requires a.DoInvite? && r'.opportunities == r.opportunities + InvitedAll(added) && added !! r.opportunities.Keys
    requires forall p | p in added :: p in a.ids && Eligible(p, providers, r.serviceId)
    requires !r.status.Completed? && !r.status.Cancelled? && !AnyStanding(r.quotes)
    ensures OpportunityMove(r, r', a, providers)
  {
  }

  lemma SettleMoves(r: Request, winner: ProviderId)
    ensures Itinerary(Settle(r, winner).events) == Itinerary(r.events) + [Assigned]
  {
    var n, m := CountQuotes(r.quotes, FromProviderProposed), |OpenOnes(r.opportunities)|;
    var e1, e2 := Event(QuoteRejected, Assigned), Event(OpportunityClosed, Assigned);
    QuietEvents(r.events, e1, n);
    QuietEvents(r.events + Repeat(e1, n), e2, m);
    OneMoreEvent(r.events + Repeat(e1, n) + Repeat(e2, m), Event(ProviderAssigned, Assigned));
  }

  /** Rows that a transaction leaves alone make no move. */
  lemma RestUnmoved(r: Request, r': Request, a: Action, providers: map<ProviderId, Provider>)
    ensures r'.assignee == r.assignee ==> AssigneeMove(r, r', a, providers)
    ensures r'.opportunities == r.opportunities ==> OpportunityMove(r, r', a, providers)
    ensures r'.quotes == r.quotes ==> QuoteMove(r, r', a)
    ensures r'.payments == r.payments ==> PaymentMove(r, r', a)
  {
  }

  lemma ClosingMoves(r: Request, r': Request, a: Action, providers: map<ProviderId, Provider>)
    requires r'.opportunities == CloseOpen(r.opportunities)
    ensures OpportunityMove(r, r', a, providers)
  {
  }

  lemma RejectionMoves(r: Request, r': Request, a: Action)
    requires r'.quotes == RejectProposed(r.quotes) && r'.assignee != r.assignee
    ensures QuoteMove(r, r', a)
  {
  }

  lemma AssignMoves(r: Request, a: Action, providers: map<ProviderId, Provider>, trackingEnabled: bool)
    requires a.DoAssign? && Inv(r)
    ensures LegalMove(r, After(r, Act(r, a, providers, trackingEnabled)), a, providers, trackingEnabled)
  {
    hide OpportunityMove, QuoteMove, PaymentMove, Settle, CloseOpen, RejectProposed, Itinerary;
    var r' := After(r, Assign(r, a.p, providers));
    SettleMoves(r, a.p);
    SettleSettles(r, a.p);
    RestUnmoved(r, r', a, providers);
    if r' == r {
      NoMove(r, a, providers, trackingEnabled);
    } else {
      ClosingMoves(r, r', a, providers);
      RejectionMoves(r, r', a);
    }
  }

  lemma StatusChangeMoves(r: Request, a: Action, providers: map<ProviderId, Provider>, trackingEnabled: bool)
    requires a.DoUpdateStatus? || a.DoProviderStatus?
    ensures LegalMove(r, After(r, Act(r, a, providers, trackingEnabled)), a, providers, trackingEnabled)
  {
    hide AssigneeMove, OpportunityMove, QuoteMove, PaymentMove, Itinerary, ServiceMayStart;
    var r' := After(r, Act(r, a, providers, trackingEnabled));
    OneMoreEvent(r.events, Event(StatusUpdated, a.target));
    RestUnmoved(r, r', a, providers);
    if a.DoUpdateStatus? {
      StaffStatusMoves(r, a.target, a.now, trackingEnabled);
    } else {
      ProviderStatusMoves(r, a.p, a.target, providers, trackingEnabled, a.now);
    }
  }

  /** What an accepted status change writes, and what it has checked. */
  ghost predicate Entered(r: Request, r': Request, target: Status) {
    && Precedes(r.status, target) && (target.InProgress? ==> ServiceMayStart(r.quotes))
    && r' == r.(status := target, events := r.events + [Event(StatusUpdated, target)], tracking := r'.tracking,
                outbox := r'.outbox, announced := r'.announced)
  }

  lemma StaffStatusMoves(r: Request, target: Status, now: int, trackingEnabled: bool)
    ensures var result := UpdateStatus(r, target, trackingEnabled, now);
      result.Committed? ==> Entered(r, result.request, target) && !(target.OnTheWay? && trackingEnabled)
  {
  }

  lemma ProviderStatusMoves(r: Request, p: ProviderId, target: Status, providers: map<ProviderId, Provider>,
                            trackingEnabled: bool, now: int)
    ensures var result := UpdateStatusForProvider(r, p, target, providers, trackingEnabled, now);
      result.Committed? ==> Entered(r, result.request, target) && r.assignee == Some(p)
  {
  }

  lemma ProposeMoves(r: Request, a: Action, providers: map<ProviderId, Provider>, trackingEnabled: bool)
    requires a.DoPropose?
    ensures LegalMove(r, After(r, Act(r, a, providers, trackingEnabled)), a, providers, trackingEnabled)
  {
    hide AssigneeMove, OpportunityMove, PaymentMove, Itinerary, AnyStanding;
    RestUnmoved(r, After(r, ProposeQuote(r, a.amount)), a, providers);
    OneMoreEvent(r.events, Event(QuoteProposed, r.status));
  }

  lemma SubmitMoves(r: Request, a: Action, providers: map<ProviderId, Provider>, trackingEnabled: bool)
    requires a.DoSubmit? && Inv(r)
    ensures LegalMove(r, After(r, Act(r, a, providers, trackingEnabled)), a, providers, trackingEnabled)
  {
    hide AssigneeMove, PaymentMove, QuoteMove, OpportunityMove, Itinerary, StaffStanding, OwnStanding, Inv;
    var r' := After(r, SubmitQuote(r, a.p, a.amount));
    RestUnmoved(r, r', a, providers);
    OneMoreEvent(r.events, Event(ProviderQuoteSubmitted, PendingDispatch));
    QuotedMeansStanding(r, a.p);
    if r' != r {
      AppendedQuoteMoves(r, r', a);
      OpportunityRowMoves(r, r', a, providers, a.p);
    }
  }

  lemma AppendedQuoteMoves(r: Request, r': Request, a: Action)
    requires a.DoSubmit? && r'.quotes == r.quotes + [Quote(Some(a.p), a.amount, Proposed)]
    requires r.status.PendingDispatch? && a.p in r.opportunities && r.opportunities[a.p].Invited?
    ensures QuoteMove(r, r', a)
  {
  }

  /** A provider whose opportunity is already quoted has a standing quote, so it cannot quote again. */
  lemma QuotedMeansStanding(r: Request, p: ProviderId)
    requires Inv(r)
    ensures p in r.opportunities && r.opportunities[p].Quoted? ==> OwnStanding(r.quotes, p)
  {
    hide LogInv, OutboxInv, PaymentInv, TrackingInv;
    if p in r.opportunities && r.opportunities[p].Quoted? {
      assert HasProposed(r.quotes, p);
    }
  }

  /** One decided quote row. */
  lemma QuoteRowMoves(r: Request, r': Request, a: Action, k: nat, status: QuoteStatus)
    requires k < |r.quotes| && r'.quotes == r.quotes[k := r.quotes[k].(status := status)]
    requires QuoteRowMove(r, r.quotes[k], r'.quotes[k], k, r'.assignee, a)
    ensures QuoteMove(r, r', a)
  {
  }

  /** One opportunity row that moves along an edge. */
  lemma OpportunityRowMoves(r: Request, r': Request, a: Action, providers: map<ProviderId, Provider>, p: ProviderId)
    requires p in r.opportunities && p in r'.opportunities
      && r'.opportunities == r.opportunities[p := r'.opportunities[p]]
    requires (r.opportunities[p], r'.opportunities[p]) in OPPORTUNITY_EDGES
    ensures OpportunityMove(r, r', a, providers)
  {
  }

  lemma WithdrawMoves(r: Request, a: Action, providers: map<ProviderId, Provider>, trackingEnabled: bool)
    requires a.DoWithdraw? && Inv(r)
    ensures LegalMove(r, After(r, Act(r, a, providers, trackingEnabled)), a, providers, trackingEnabled)
  {
    hide OpportunityMove, QuoteMove, PaymentMove, AssigneeMove, Itinerary, Inv;
    var r' := After(r, WithdrawQuote(r, a.quote, a.p));
    RestUnmoved(r, r', a, providers);
    OneMoreEvent(r.events, Event(ProviderQuoteWithdrawn, PendingDispatch));
    if r' != r {
      StandingOpportunity(r, a.quote);
      QuoteRowMoves(r, r', a, a.quote, Withdrawn);
      OpportunityRowMoves(r, r', a, providers, a.p);
    }
  }

  /** A proposed provider quote has its opportunity, quoted or closed. */
  lemma StandingOpportunity(r: Request, k: nat)
    requires Inv(r) && k < |r.quotes| && ProposedByProvider(r.quotes[k])
    ensures var p := r.quotes[k].provider.value;
      p in r.opportunities && (r.opportunities[p].Quoted? || r.opportunities[p].Closed?)
  {
    assert QuoteMatchesOpportunity(r.quotes[k], r.opportunities);
  }

  lemma CloseMoves(r: Request, a: Action, providers: map<ProviderId, Provider>, trackingEnabled: bool)
    requires a.DoClose?
    ensures LegalMove(r, After(r, Act(r, a, providers, trackingEnabled)), a, providers, trackingEnabled)
  {
    hide OpportunityMove, QuoteMove, PaymentMove, AssigneeMove, Itinerary;
    var r' := After(r, CloseOpportunity(r, a.p));
    RestUnmoved(r, r', a, providers);
    OneMoreEvent(r.events, Event(OpportunityClosed, r.status));
    if r' != r {
      OpportunityRowMoves(r, r', a, providers, a.p);
    }
  }

  lemma RejectMoves(r: Request, a: Action, providers: map<ProviderId, Provider>, trackingEnabled: bool)
    requires a.DoDecide? && !a.approve
    ensures LegalMove(r, After(r, Act(r, a, providers, trackingEnabled)), a, providers, trackingEnabled)
  {
    hide OpportunityMove, QuoteMove, PaymentMove, AssigneeMove, Itinerary;
    var r' := After(r, DecideQuote(r, a.customer, a.quote, a.approve, providers));
    RestUnmoved(r, r', a, providers);
    OneMoreEvent(r.events, Event(QuoteRejected, r.status));
    if r' == r {
      NoMove(r, a, providers, trackingEnabled);
    } else {
      QuoteRowMoves(r, r', a, a.quote, Rejected);
      if r'.opportunities != r.opportunities {
        OpportunityRowMoves(r, r', a, providers, r.quotes[a.quote].provider.value);
      }
    }
  }

  lemma ApproveMoves(r: Request, a: Action, providers: map<ProviderId, Provider>, trackingEnabled: bool)
    requires a.DoDecide? && a.approve && Inv(r)
    ensures LegalMove(r, After(r, Act(r, a, providers, trackingEnabled)), a, providers, trackingEnabled)
  {
    hide OpportunityMove, QuoteMove, PaymentMove, Settle, CloseOpen, RejectProposed, Itinerary, Paid, QuoteInv,
    LogInv, OutboxInv, TrackingInv;
    var r' := After(r, DecideQuote(r, a.customer, a.quote, a.approve, providers));
    if r' == r {
      NoMove(r, a, providers, trackingEnabled);
    } else {
      var paid, p := Paid(r, a.quote), r.quotes[a.quote].provider;
      ApprovalPaysOnce(r, a.quote);
      PaidIsPaid(r, a.quote);
      if p.Some? {
        PendingIsUnassigned(r);
        SettleMoves(paid, p.value);
        SettleSettles(paid, p.value);
        OneMoreEvent(Settle(paid, p.value).events, Event(QuoteApproved, r.status));
        ClosingMoves(r, r', a, providers);
        WinningMoves(r, paid, r', a);
      } else {
        OneMoreEvent(r.events, Event(QuoteApproved, r.status));
        RestUnmoved(r, r', a, providers);
        ApprovalMoves(r, r', a);
      }
      PayingMoves(r, r', a);
    }
  }

  lemma PendingIsUnassigned(r: Request)
    requires Inv(r)
    ensures r.status.PendingDispatch? ==> r.assignee.None?
  {
  }

  lemma PayingMoves(r: Request, r': Request, a: Action)
    requires a.DoDecide? && a.approve && a.quote < |r.quotes|
    requires r'.payments == r.payments + [Payment(a.quote, r.quotes[a.quote].amount, CashDue)]
    ensures PaymentMove(r, r', a)
  {
  }

  lemma ApprovalMoves(r: Request, r': Request, a: Action)
    requires a.DoDecide? && a.approve && a.quote < |r.quotes| && r.quotes[a.quote].status.Proposed?
      && a.customer == r.customer
    requires r'.quotes == r.quotes[a.quote := r.quotes[a.quote].(status := Approved)]
    ensures QuoteMove(r, r', a)
  {
  }

  lemma WinningMoves(r: Request, paid: Request, r': Request, a: Action)
    requires a.DoDecide? && a.approve && a.quote < |r.quotes| && r.quotes[a.quote].status.Proposed?
      && a.customer == r.customer
    requires paid.quotes == r.quotes[a.quote := r.quotes[a.quote].(status := Approved)]
    requires r'.quotes == RejectProposed(paid.quotes) && r'.assignee != r.assignee
    ensures QuoteMove(r, r', a)
  {
  }

  lemma CashAndTrackingMove(r: Request, a: Action, providers: map<ProviderId, Provider>, trackingEnabled: bool)
    requires a.DoCollect? || a.DoRefund? || a.DoSample? || a.DoStopTracking?
    ensures LegalMove(r, After(r, Act(r, a, providers, trackingEnabled)), a, providers, trackingEnabled)
  {
    hide OpportunityMove, QuoteMove, AssigneeMove;
    RestUnmoved(r, After(r, Act(r, a, providers, trackingEnabled)), a, providers);
  }

  /** Whatever the action, the rows make legal moves only, each on behalf of whoever may cause it. */
  lemma EveryMoveIsLegal(r: Request, a: Action, providers: map<ProviderId, Provider>, trackingEnabled: bool)
    requires Inv(r)
    ensures LegalMove(r, After(r, Act(r, a, providers, trackingEnabled)), a, providers, trackingEnabled)
  {
    hide LegalMove, Act, Inv;
    match a
    case DoInvite(_) => InviteMoves(r, a, providers, trackingEnabled);
    case DoAssign(_) => AssignMoves(r, a, providers, trackingEnabled);
    case DoUpdateStatus(_, _) => StatusChangeMoves(r, a, providers, trackingEnabled);
    case DoProviderStatus(_, _, _) => StatusChangeMoves(r, a, providers, trackingEnabled);
    case DoPropose(_) => ProposeMoves(r, a, providers, trackingEnabled);
    case DoSubmit(_, _) => SubmitMoves(r, a, providers, trackingEnabled);
    case DoWithdraw(_, _) => WithdrawMoves(r, a, providers, trackingEnabled);
    case DoDecide(_, _, approve) =>
      if approve {
        ApproveMoves(r, a, providers, trackingEnabled);
      } else {
        RejectMoves(r, a, providers, trackingEnabled);
      }
    case DoClose(_) => CloseMoves(r, a, providers, trackingEnabled);
    case _ => CashAndTrackingMove(r, a, providers, trackingEnabled);
  }

  // ---------------------------------------------------------------- whole runs

  predicate IsPath(path: seq<Status>) {
    && path != [] && path[0] == PendingDispatch
    && forall i | 0 <= i < |path| - 1 :: (path[i], path[i + 1]) in REQUEST_EDGES
  }

  /** What every reachable request's log tells: a path of the life cycle that ends at the status. */
  predicate Travelled(r: Request) {
    IsPath(Itinerary(r.events)) && Itinerary(r.events)[|Itinerary(r.events)| - 1] == r.status
  }

  lemma CreatedTravelled(customer: nat, serviceId: string, providers: map<ProviderId, Provider>)
    ensures Travelled(Create(customer, serviceId, providers))
  {
    var first := [Event(RequestCreated, PendingDispatch)];
    var blank := NewRequest(customer, serviceId);
    QuietEvents(first, Event(OpportunityInvited, PendingDispatch),
      |EligibleOnes(providers, serviceId) - blank.opportunities.Keys|);
    OneMoreEvent([], first[0]);
    assert [] + first == first;
  }

  lemma MoveTravels(r: Request, r': Request, a: Action, trackingEnabled: bool)
    requires Travelled(r) && StatusMove(r, r', a, trackingEnabled)
    ensures Travelled(r')
  {
  }

  lemma ApplyTravels(db: Database, c: Command)
    requires DatabaseInv(db) && forall r | r in db.requests :: Travelled(r)
    ensures forall r | r in Apply(db, c).requests :: Travelled(r)
  {
    hide Inv, Act, LegalMove, Travelled, RowInv;
    var db' := Apply(db, c);
    forall i | 0 <= i < |db'.requests| ensures Travelled(db'.requests[i]) {
      if i == |db.requests| {
        CreatedTravelled(c.customer, c.serviceId, db.providers);
      } else {
        assert db.requests[i] in db.requests;
        if c.DoRequest? && c.id < |db.requests| {
          RequestTravels(db, c, i);
        } else {
          SameEventsTravelled(db.requests[i], db'.requests[i]);
        }
      }
    }
  }

  lemma RequestTravels(db: Database, c: Command, i: nat)
    requires c.DoRequest? && i < |db.requests| && c.id < |db.requests|
    requires RowInv(db, db.requests[i]) && Travelled(db.requests[i])
    ensures i < |Apply(db, c).requests| && Travelled(Apply(db, c).requests[i])
  {
    hide Inv, Act, Travelled;
    StoredRow(db.requests, c.id, Act(db.requests[c.id], c.action, db.providers, db.trackingEnabled), i);
    if i == c.id {
      EveryMoveIsLegal(db.requests[i], c.action, db.providers, db.trackingEnabled);
      MoveTravels(db.requests[i], Apply(db, c).requests[i], c.action, db.trackingEnabled);
    }
  }

  lemma SameEventsTravelled(r: Request, r': Request)
    requires Travelled(r) && r'.events == r.events && r'.status == r.status
    ensures Travelled(r')
  {
  }

  lemma {:induction false} RunTravels(db: Database, cs: seq<Command>)
    requires DatabaseInv(db) && forall r | r in db.requests :: Travelled(r)
    ensures forall r | r in Run(db, cs).requests :: Travelled(r)
    decreases |cs|
  {
    hide DatabaseInv, Travelled;
    if cs != [] {
      ApplyTravels(db, cs[0]);
      ApplyKeepsInv(db, cs[0]);
      RunTravels(Apply(db, cs[0]), cs[1..]);
    }
  }

  /** Over every run, each request's log is a path of the life cycle from `pending_dispatch` to its status. */
  lemma EveryLogIsALifeCycle(trackingEnabled: bool, cs: seq<Command>)
    ensures forall r | r in Run(Fresh(trackingEnabled), cs).requests :: Travelled(r)
  {
    RunTravels(Fresh(trackingEnabled), cs);
  }
}
