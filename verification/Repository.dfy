/** The repository: each transaction works on the locked rows step by step and stores them at its commit. */
module Repository {
  import opened Domain
  import opened EventLog
  import opened Marketplace
  import MarketplaceRuns
  import Tracking

  // ---------------------------------------------------------------- one step more of a bulk statement

  lemma InsertOneMore(outbox: map<Notice, nat>, ns: set<Notice>, n: Notice)
    ensures Insert(InsertAll(outbox, ns), n, 0) == InsertAll(outbox, ns + {n})
  {
  }

  lemma InvitationsOneMore(ps: set<ProviderId>, p: ProviderId)
    ensures InvitationsTo(ps + {p}) == InvitationsTo(ps) + {Invitation(p)}
    ensures p !in ps ==> Invitation(p) !in InvitationsTo(ps) && |InvitationsTo(ps + {p})| == |InvitationsTo(ps)| + 1
  {
    assert InvitationsTo(ps + {p}) == InvitationsTo(ps) + {Invitation(p)};
  }

  lemma LosersOneMore(ps: set<ProviderId>, p: ProviderId, winner: ProviderId)
    requires p !in ps
    ensures p == winner ==> Losers(ps + {p}, winner) == Losers(ps, winner)
    ensures p != winner ==>
      && LostOpportunity(p) !in Losers(ps, winner)
      && Losers(ps + {p}, winner) == Losers(ps, winner) + {LostOpportunity(p)}
      && |Losers(ps + {p}, winner)| == |Losers(ps, winner)| + 1
  {
    if p == winner {
      assert Losers(ps + {p}, winner) == Losers(ps, winner);
    } else {
      assert Losers(ps + {p}, winner) == Losers(ps, winner) + {LostOpportunity(p)};
    }
  }

  lemma OpportunitiesOneMore(o: map<ProviderId, OpportunityStatus>, ps: set<ProviderId>, p: ProviderId)
    requires p !in o
    ensures o + InvitedAll(ps + {p}) == (o + InvitedAll(ps))[p := Invited]
  {
  }

  /** The loop over eligible providers, one provider further. */
  lemma InviteOneMore(r: Request, done: set<ProviderId>, p: ProviderId)
    requires p !in done && p !in r.opportunities
    ensures InviteNew(r, done + {p}) == InviteOne(InviteNew(r, done), r.status, p)
  {
    assert |done + {p}| == |done| + 1;
    RepeatOneMore(r.events, Event(OpportunityInvited, r.status), |done|);
    InvitationsOneMore(done, p);
    InsertOneMore(r.outbox, InvitationsTo(done), Invitation(p));
    OpportunitiesOneMore(r.opportunities, done, p);
    hide InvitationsTo;
    hide InvitedAll;
    hide InsertAll;
    hide Insert;
    hide Repeat;
  }

  // ---------------------------------------------------------------- bulk statements on the locked rows

  /** UPDATE service_quotes ... RETURNING id, then one event per returned row. */
  method RejectProposedQuotes(row: Request) returns (row': Request)
    ensures row' == LogMany(row.(quotes := RejectProposed(row.quotes)), QuoteRejected, Assigned,
                            CountQuotes(row.quotes, FromProviderProposed))
  {
    var quotes := row.quotes;
    var closed := 0;
    for i := 0 to |row.quotes|
      invariant |quotes| == |row.quotes|
      invariant closed == CountQuotes(row.quotes[..i], FromProviderProposed)
      invariant forall k | 0 <= k < i :: quotes[k] == RejectedIfProposed(row.quotes[k])
      invariant forall k | i <= k < |quotes| :: quotes[k] == row.quotes[k]
    {
      assert row.quotes[..i + 1][..i] == row.quotes[..i];
      if ProposedByProvider(quotes[i]) {
        quotes := quotes[i := quotes[i].(status := Rejected)];
        closed := closed + 1;
      }
    }
    assert row.quotes[..|row.quotes|] == row.quotes;
    assert quotes == RejectProposed(row.quotes);
    row' := row.(quotes := quotes);
    for index := 0 to closed
      invariant row' == LogMany(row.(quotes := quotes), QuoteRejected, Assigned, index)
    {
      RepeatOneMore(row.events, Event(QuoteRejected, Assigned), index);
      row' := Log(row', QuoteRejected, Assigned);
    }
  }

  /** UPDATE request_provider_opportunities ... RETURNING provider_id, then one event per returned row. */
  method CloseOpenOpportunities(row: Request) returns (row': Request, closed: set<ProviderId>)
    ensures closed == OpenOnes(row.opportunities)
    ensures row' == LogMany(row.(opportunities := CloseOpen(row.opportunities)), OpportunityClosed, Assigned, |closed|)
  {
    closed := OpenOnes(row.opportunities);
    row' := row.(opportunities := CloseOpen(row.opportunities));
    for index := 0 to |closed|
      invariant row' == LogMany(row.(opportunities := CloseOpen(row.opportunities)), OpportunityClosed, Assigned, index)
    {
      RepeatOneMore(row.events, Event(OpportunityClosed, Assigned), index);
      row' := Log(row', OpportunityClosed, Assigned);
    }
  }

  /** One notice for each provider whose opportunity was closed, except the winner. */
  method AnnounceLosers(row: Request, closed: set<ProviderId>, winner: ProviderId) returns (row': Request)
    ensures row' == AnnounceAll(row, Losers(closed, winner))
  {
    row' := row;
    var rest := closed;
    assert Losers({}, winner) == {} && InsertAll(row.outbox, {}) == row.outbox;
    assert closed - rest == {};
    hide Losers;
    hide InsertAll;
    hide Insert;
    while rest != {}
      invariant rest <= closed
      invariant row' == AnnounceAll(row, Losers(closed - rest, winner))
      decreases |rest|
    {
      var p :| p in rest;
      ghost var done := closed - rest;
      rest := rest - {p};
      assert closed - rest == done + {p};
      LosersOneMore(done, p, winner);
      if p != winner {
        InsertOneMore(row.outbox, Losers(done, winner), LostOpportunity(p));
        row' := Announce(row', LostOpportunity(p), 0);
      }
    }
    assert closed - rest == closed;
  }

  /** The insert loop shared by creation and manual invitation. */
  method InviteEach(row: Request, chosen: set<ProviderId>) returns (row': Request)
    ensures row' == AddInvitations(row, chosen)
  {
    row' := row;
    var rest := chosen;
    ghost var added: set<ProviderId> := {};
    NoneInvited(row);
    hide InviteNew;
    while rest != {}
      invariant rest <= chosen
      invariant forall x :: x in added <==> x in chosen && x !in rest && x !in row.opportunities
      invariant row' == InviteNew(row, added)
      decreases |rest|
    {
      var p :| p in rest;
      rest := rest - {p};
      InvitedKeys(row, added);
      if p !in row'.opportunities {
        row' := InviteOne(row', row.status, p);
        InviteOneMore(row, added, p);
        added := added + {p};
      }
    }
    assert added == chosen - row.opportunities.Keys;
  }

  function InviteOne(r: Request, status: Status, p: ProviderId): Request {
    Announce(Log(r.(opportunities := r.opportunities[p := Invited]), OpportunityInvited, status), Invitation(p), 0)
  }

  lemma InvitedKeys(r: Request, added: set<ProviderId>)
    ensures InviteNew(r, added).opportunities.Keys == r.opportunities.Keys + added
  {
  }

  lemma NoneInvited(r: Request)
    ensures InviteNew(r, {}) == r
  {
    assert InvitationsTo({}) == {};
    assert InsertAll(r.outbox, {}) == r.outbox;
    assert r.opportunities + InvitedAll({}) == r.opportunities;
    assert r.events + Repeat(Event(OpportunityInvited, r.status), 0) == r.events;
  }

  /** SELECT COUNT(*) FILTER ... over the quotes of the request. */
  method AssertServiceMayStart(quotes: seq<Quote>) returns (ok: bool)
    ensures ok == ServiceMayStart(quotes)
  {
    var approved, total := 0, 0;
    for i := 0 to |quotes|
      invariant total == CountQuotes(quotes[..i], FromStaff)
      invariant approved > 0 <==> exists k | 0 <= k < i :: quotes[k].provider.None? && quotes[k].status.Approved?
      invariant approved >= 0
    {
      assert quotes[..i + 1][..i] == quotes[..i];
      if quotes[i].provider.None? {
        total := total + 1;
        if quotes[i].status.Approved? {
          approved := approved + 1;
        }
      }
    }
    assert quotes[..|quotes|] == quotes;
    ok := !(total > 0 && approved == 0);
  }

  // ---------------------------------------------------------------- the repository

  function CurrentPosition(requests: seq<Request>, id: nat): Option<Tracking.SampleRow> {
    if id < |requests| then requests[id].tracking.position else None
  }

  /** The rows of the two tables that retention deletes from. */
  function SampleRows(requests: seq<Request>): nat {
    if requests == [] then 0 else SampleRows(requests[..|requests| - 1]) + |requests[|requests| - 1].tracking.samples|
  }

  function SessionRows(requests: seq<Request>): nat {
    if requests == [] then 0
    else SessionRows(requests[..|requests| - 1]) + if requests[|requests| - 1].tracking.session.Some? then 1 else 0
  }

  class ServiceRequestRepository {
    const trackingEnabled: bool
    var providers: map<ProviderId, Provider>
    var requests: seq<Request>

    function State(): Database
      reads this
    {
      Database(trackingEnabled, providers, requests)
    }

    /** Every table invariant of every request, and what providers and configuration have to do with them. */
    ghost predicate Valid()
      reads this
    {
      MarketplaceRuns.DatabaseInv(State())
    }

    constructor (trackingEnabled: bool)
      ensures Valid() && State() == Fresh(trackingEnabled)
    {
      this.trackingEnabled := trackingEnabled;
      providers := map[];
      requests := [];
    }

    /** A taken id violates the primary key. */
    method CreatePilotProvider(p: ProviderId, specialties: set<string>) returns (reply: Reply)
      requires Valid()
      modifies this
      ensures Valid() && State() == Apply(old(State()), DoCreateProvider(p, specialties))
      ensures reply == if p in old(providers) then Error(AlreadyExists) else Ok
    {
      hide MarketplaceRuns.DatabaseInv;
      MarketplaceRuns.ApplyKeepsInv(State(), DoCreateProvider(p, specialties));
      if p in providers { return Error(AlreadyExists); }
      providers := providers[p := Provider(Pending, false, specialties)];
      return Ok;
    }

    method UpdateProviderAvailability(p: ProviderId, available: bool) returns (reply: Reply)
      requires Valid()
      modifies this
      ensures Valid() && State() == Apply(old(State()), DoSetAvailable(p, available))
      ensures reply.Ok? ==> p in providers && providers[p].verification.Verified? && providers[p].available == available
      ensures reply.Error? ==> reply == Error(NotFound) && State() == old(State())
      ensures reply.Ok? <==> p in old(providers) && old(providers)[p].verification.Verified?
    {
      hide MarketplaceRuns.DatabaseInv;
      MarketplaceRuns.ApplyKeepsInv(State(), DoSetAvailable(p, available));
      if p !in providers || !providers[p].verification.Verified? { return Error(NotFound); }
      providers := providers[p := providers[p].(available := available)];
      return Ok;
    }

    method UpdatePilotProviderVerification(p: ProviderId, expected: Option<Verification>, verification: Verification,
                                           now: int)
      returns (reply: Reply)
      requires Valid()
      modifies this
      ensures Valid() && State() == Apply(old(State()), DoVerify(p, expected, verification, now))
      ensures reply.Ok? <==> p in old(providers) && (expected.None? || expected.value == old(providers)[p].verification)
      ensures reply.Ok? ==> p in providers && providers[p].verification == verification
      ensures reply.Error? ==> reply == Error(NotFound) && State() == old(State())
    {
      hide MarketplaceRuns.DatabaseInv;
      MarketplaceRuns.ApplyKeepsInv(State(), DoVerify(p, expected, verification, now));
      if p !in providers || (expected.Some? && expected.value != providers[p].verification) {
        return Error(NotFound);
      }
      providers := providers[p := providers[p].(verification := verification, available := verification.Verified?)];
      if !verification.Verified? && trackingEnabled {
        requests := StopTrackingOf(requests, p, now);
      }
      return Ok;
    }

    /** UPDATE provider_tracking_sessions ... and DELETE of the positions, wherever the provider is followed. */
    static method StopTrackingOf(requests: seq<Request>, p: ProviderId, now: int) returns (rows: seq<Request>)
      ensures rows == SuspendEverywhere(requests, p, now)
    {
      rows := requests;
      for i := 0 to |requests|
        invariant |rows| == |requests|
        invariant forall k | 0 <= k < i :: rows[k] == SuspendIn(requests[k], p, now)
        invariant forall k | i <= k < |rows| :: rows[k] == requests[k]
      {
        var t := rows[i].tracking;
        if Tracking.Active(t) && t.session.value.provider == p {
          var stopped := t.session.value.(active := false, stoppedAt := Some(now),
                                          stopReason := Some(Tracking.ProviderSuspended));
          rows := rows[i := rows[i].(tracking := t.(session := Some(stopped), position := None))];
        }
      }
    }

    method Create(customer: nat, serviceId: string) returns (id: nat)
      requires Valid()
      modifies this
      ensures Valid() && State() == Apply(old(State()), DoCreate(customer, serviceId))
      ensures id == |old(requests)|
    {
      hide MarketplaceRuns.DatabaseInv;
      MarketplaceRuns.ApplyKeepsInv(State(), DoCreate(customer, serviceId));
      var row := NewRequest(customer, serviceId);
      row := InviteEach(row, EligibleOnes(providers, serviceId));
      row := Announce(row, RequestReceived, MAX_DELIVERY_ATTEMPTS - 1);
      id := |requests|;
      requests := requests + [row];
    }

    method InviteProvidersToRequest(id: nat, ids: set<ProviderId>) returns (reply: Reply, invited: set<ProviderId>)
      requires Valid()
      modifies this
      ensures Valid() && State() == Apply(old(State()), DoRequest(id, DoInvite(ids)))
      ensures reply == ReplyTo(old(State()), id, DoInvite(ids))
      ensures reply.Ok? ==>
        && id < |old(requests)| && id < |requests|
        && invited == requests[id].opportunities.Keys - old(requests)[id].opportunities.Keys
      ensures reply.Error? ==> invited == {}
    {
      hide MarketplaceRuns.DatabaseInv, AddInvitations, EligibleAmong, AnyStanding;
      MarketplaceRuns.ApplyKeepsInv(State(), DoRequest(id, DoInvite(ids)));
      if ids == {} { return Error(EmptyInvitation), {}; }
      if id >= |requests| { return Error(InvalidTransition), {}; }
      var row := requests[id];
      if row.status.Completed? || row.status.Cancelled? { return Error(InvalidTransition), {}; }
      if AnyStanding(row.quotes) { return Error(ActiveQuoteExists), {}; }
      row := InviteEach(row, EligibleAmong(ids, providers, row.serviceId));
      invited := row.opportunities.Keys - requests[id].opportunities.Keys;
      requests := requests[id := row];
      return Ok, invited;
    }

    method AssignProvider(id: nat, p: ProviderId) returns (reply: Reply)
      requires Valid()
      modifies this
      ensures Valid() && State() == Apply(old(State()), DoRequest(id, DoAssign(p)))
      ensures reply == ReplyTo(old(State()), id, DoAssign(p))
    {
      hide MarketplaceRuns.DatabaseInv;
      MarketplaceRuns.ApplyKeepsInv(State(), DoRequest(id, DoAssign(p)));
      if id >= |requests| { return Error(NotFound); }
      var row := requests[id];
      if !row.status.PendingDispatch? { return Error(NotPendingDispatch); }
      if !Eligible(p, providers, row.serviceId) { return Error(ProviderNotAvailable); }
      row := row.(assignee := Some(p), status := Assigned);
      row := RejectProposedQuotes(row);
      var closed;
      row, closed := CloseOpenOpportunities(row);
      row := Log(row, ProviderAssigned, Assigned);
      row := Announce(row, AssignedProvider(p), 0);
      row := Announce(row, AssignmentConfirmed, 0);
      row := AnnounceLosers(row, closed, p);
      assert row == Settle(requests[id], p);
      requests := requests[id := row];
      return Ok;
    }

    method UpdateStatus(id: nat, target: Status, now: int) returns (reply: Reply)
      requires Valid()
      modifies this
      ensures Valid() && State() == Apply(old(State()), DoRequest(id, DoUpdateStatus(target, now)))
      ensures reply == ReplyTo(old(State()), id, DoUpdateStatus(target, now))
    {
      hide MarketplaceRuns.DatabaseInv;
      MarketplaceRuns.ApplyKeepsInv(State(), DoRequest(id, DoUpdateStatus(target, now)));
      if target.PendingDispatch? || target.Assigned? { return Error(UnsupportedStatus); }
      if id >= |requests| { return Error(InvalidTransition); }
      var row := requests[id];
      if !Precedes(row.status, target) { return Error(InvalidTransition); }
      if target.OnTheWay? && trackingEnabled { return Error(ProviderActionRequired); }
      if target.InProgress? {
        var mayStart := AssertServiceMayStart(row.quotes);
        if !mayStart { return Error(QuoteApprovalRequired); }
      }
      row := row.(status := target);
      row := Log(row, StatusUpdated, target);
      if target.Completed? || target.Cancelled? {
        var reason := if target.Completed? then Tracking.ByCompletion else Tracking.ByCancellation;
        row := StopProviderTracking(row, reason, now);
      }
      row := Announce(row, StatusChanged(target), 0);
      requests := requests[id := row];
      return Ok;
    }

    static method StopProviderTracking(row: Request, reason: Tracking.StopReason, now: int) returns (row': Request)
      ensures row' == row.(tracking := Tracking.Stop(row.tracking, reason, now))
    {
      row' := row;
      if row.tracking.session.Some? {
        var s := row.tracking.session.value;
        if s.active {
          s := s.(stoppedAt := Some(now), stopReason := Some(reason), active := false);
        } else if (reason.ByCompletion? || reason.ByCancellation?)
                  && (s.stopReason == Some(Tracking.ProviderSuspended)
                    || s.stopReason == Some(Tracking.OperationsEmergency)) {
          s := s.(stopReason := Some(reason));
        }
        row' := row'.(tracking := row'.tracking.(session := Some(s)));
      }
      row' := row'.(tracking := row'.tracking.(position := None));
    }

    method UpdateStatusForProvider(id: nat, p: ProviderId, target: Status, now: int) returns (reply: Reply)
      requires Valid()
      modifies this
      ensures Valid() && State() == Apply(old(State()), DoRequest(id, DoProviderStatus(p, target, now)))
      ensures reply == ReplyTo(old(State()), id, DoProviderStatus(p, target, now))
    {
      hide MarketplaceRuns.DatabaseInv;
      MarketplaceRuns.ApplyKeepsInv(State(), DoRequest(id, DoProviderStatus(p, target, now)));
      if !(target.OnTheWay? || target.InProgress? || target.Completed?) { return Error(UnsupportedStatus); }
      if id >= |requests| { return Error(NotFound); }
      var row := requests[id];
      if row.assignee != Some(p) { return Error(NotFound); }
      if !Precedes(row.status, target) { return Error(InvalidTransition); }
      if target.OnTheWay? && trackingEnabled {
        if p !in providers || !providers[p].verification.Verified? || !providers[p].available {
          return Error(NotEligibleForTracking);
        }
      }
      if target.InProgress? {
        var mayStart := AssertServiceMayStart(row.quotes);
        if !mayStart { return Error(QuoteApprovalRequired); }
      }
      row := row.(status := target);
      row := Log(row, StatusUpdated, target);
      if target.OnTheWay? && trackingEnabled {
        if row.tracking.session.None? {
          var session := Tracking.Session(p, true, now, None, None, Tracking.NO_EVIDENCE, None);
          row := row.(tracking := row.tracking.(session := Some(session), history := []));
        }
        if row.tracking.session.value.provider != p || !row.tracking.session.value.active {
          return Error(TrackingNotStarted);
        }
      }
      if target.Completed? {
        row := StopProviderTracking(row, Tracking.ByCompletion, now);
      }
      row := Announce(row, StatusChanged(target), 0);
      requests := requests[id := row];
      return Ok;
    }

    method ProposeQuote(id: nat, amount: int) returns (reply: Reply, stored: Option<Quote>)
      requires Valid()
      modifies this
      ensures Valid() && State() == Apply(old(State()), DoRequest(id, DoPropose(amount)))
      ensures reply == ReplyTo(old(State()), id, DoPropose(amount))
      ensures reply.Ok? ==>
        && id < |requests| && 0 < |requests[id].quotes|
        && stored == Some(requests[id].quotes[|requests[id].quotes| - 1])
      ensures reply.Error? ==> stored.None?
    {
      hide MarketplaceRuns.DatabaseInv;
      MarketplaceRuns.ApplyKeepsInv(State(), DoRequest(id, DoPropose(amount)));
      if id >= |requests| { return Error(InvalidTransition), None; }
      var row := requests[id];
      if !(row.status.Assigned? || row.status.OnTheWay?) { return Error(InvalidTransition), None; }
      if AnyStanding(row.quotes) { return Error(ActiveQuoteExists), None; }
      if row.opportunities != map[] { return Error(MarketplaceFlow), None; }
      var k := |row.quotes|;
      row := row.(quotes := row.quotes + [Quote(None, amount, Proposed)]);
      row := Log(row, QuoteProposed, row.status);
      row := Announce(row, QuoteReceived(k), 0);
      requests := requests[id := row];
      return Ok, Some(row.quotes[k]);
    }

    method SubmitProviderQuote(id: nat, p: ProviderId, amount: int) returns (reply: Reply, stored: Option<Quote>)
      requires Valid()
      modifies this
      ensures Valid() && State() == Apply(old(State()), DoRequest(id, DoSubmit(p, amount)))
      ensures reply == ReplyTo(old(State()), id, DoSubmit(p, amount))
      ensures reply.Ok? ==>
        && id < |requests| && 0 < |requests[id].quotes|
        && stored == Some(requests[id].quotes[|requests[id].quotes| - 1])
      ensures reply.Error? ==> stored.None?
    {
      hide MarketplaceRuns.DatabaseInv;
      MarketplaceRuns.ApplyKeepsInv(State(), DoRequest(id, DoSubmit(p, amount)));
      if id >= |requests| { return Error(NotFound), None; }
      var row := requests[id];
      if !row.status.PendingDispatch? { return Error(NotPendingDispatch), None; }
      if p !in row.opportunities || !Open(row.opportunities[p]) { return Error(OpportunityNotOpen), None; }
      if StaffStanding(row.quotes) { return Error(MarketplaceFlow), None; }
      if OwnStanding(row.quotes, p) { return Error(OwnQuoteExists), None; }
      var k := |row.quotes|;
      row := row.(quotes := row.quotes + [Quote(Some(p), amount, Proposed)]);
      row := row.(opportunities := row.opportunities[p := Quoted]);
      row := Log(row, ProviderQuoteSubmitted, PendingDispatch);
      row := Announce(row, QuoteReceived(k), 0);
      requests := requests[id := row];
      return Ok, Some(row.quotes[k]);
    }

    method WithdrawProviderQuote(id: nat, k: nat, p: ProviderId) returns (reply: Reply, stored: Option<Quote>)
      requires Valid()
      modifies this
      ensures Valid() && State() == Apply(old(State()), DoRequest(id, DoWithdraw(k, p)))
      ensures reply == ReplyTo(old(State()), id, DoWithdraw(k, p))
      ensures reply.Ok? ==> id < |requests| && k < |requests[id].quotes| && stored == Some(requests[id].quotes[k])
      ensures reply.Error? ==> stored.None?
    {
      hide MarketplaceRuns.DatabaseInv;
      MarketplaceRuns.ApplyKeepsInv(State(), DoRequest(id, DoWithdraw(k, p)));
      if id >= |requests| { return Error(QuoteNotPending), None; }
      var row := requests[id];
      if k >= |row.quotes| || row.quotes[k].provider != Some(p) || !row.quotes[k].status.Proposed? {
        return Error(QuoteNotPending), None;
      }
      row := row.(quotes := row.quotes[k := row.quotes[k].(status := Withdrawn)]);
      if p in row.opportunities {
        row := row.(opportunities := row.opportunities[p := Retracted]);
      }
      row := Log(row, ProviderQuoteWithdrawn, PendingDispatch);
      requests := requests[id := row];
      return Ok, Some(row.quotes[k]);
    }

    method DecideQuote(id: nat, customer: nat, k: nat, approve: bool) returns (reply: Reply)
      requires Valid()
      modifies this
      ensures Valid() && State() == Apply(old(State()), DoRequest(id, DoDecide(customer, k, approve)))
      ensures reply == ReplyTo(old(State()), id, DoDecide(customer, k, approve))
    {
      hide MarketplaceRuns.DatabaseInv;
      MarketplaceRuns.ApplyKeepsInv(State(), DoRequest(id, DoDecide(customer, k, approve)));
      if id >= |requests| { return Error(QuoteNotPending); }
      var row := requests[id];
      var before := row.status;
      var found := k < |row.quotes| && row.customer == customer;
      if found && approve && row.quotes[k].provider.Some?
        && !before.PendingDispatch? { return Error(NotPendingDispatch); }
      if !found || !row.quotes[k].status.Proposed? { return Error(QuoteNotPending); }
      var p := row.quotes[k].provider;
      if p.Some? && (p.value !in providers || !providers[p.value].verification.Verified?
        || !providers[p.value].available) {
        return Error(ProviderNotAvailable);
      }
      row := row.(quotes := row.quotes[k := row.quotes[k].(status := if approve then Approved else Rejected)]);
      if !approve && p.Some? {
        if p.value in row.opportunities && row.opportunities[p.value].Quoted? {
          row := row.(opportunities := row.opportunities[p.value := Declined]);
        }
      }
      if approve {
        if !HasPayment(row.payments, k) {
          row := row.(payments := row.payments + [Payment(k, row.quotes[k].amount, CashDue)]);
        }
        if p.Some? {
          ghost var paid := row;
          row := RejectProposedQuotes(row);
          var closed;
          row, closed := CloseOpenOpportunities(row);
          row := row.(assignee := p, status := if row.status.PendingDispatch? then Assigned else row.status);
          row := Log(row, ProviderAssigned, Assigned);
          row := Announce(row, AssignmentConfirmed, 0);
          row := Announce(row, AssignedProvider(p.value), 0);
          row := AnnounceLosers(row, closed, p.value);
          TwoInserts(paid.outbox, AssignmentConfirmed, AssignedProvider(p.value));
          assert row == Settle(paid, p.value);
        }
      }
      row := Log(row, if approve then QuoteApproved else QuoteRejected, before);
      requests := requests[id := row];
      return Ok;
    }

    method CloseProviderOpportunity(id: nat, p: ProviderId) returns (reply: Reply)
      requires Valid()
      modifies this
      ensures Valid() && State() == Apply(old(State()), DoRequest(id, DoClose(p)))
      ensures reply == ReplyTo(old(State()), id, DoClose(p))
    {
      hide MarketplaceRuns.DatabaseInv;
      MarketplaceRuns.ApplyKeepsInv(State(), DoRequest(id, DoClose(p)));
      if id >= |requests| { return Error(NotFound); }
      var row := requests[id];
      var closed := p in row.opportunities && Open(row.opportunities[p]);
      if !closed { return Error(Unchanged); }
      row := row.(opportunities := row.opportunities[p := Closed]);
      row := Log(row, OpportunityClosed, row.status);
      requests := requests[id := row];
      return Ok;
    }

    method CollectCashPayment(id: nat) returns (reply: Reply)
      requires Valid()
      modifies this
      ensures Valid() && State() == Apply(old(State()), DoRequest(id, DoCollect))
      ensures reply == ReplyTo(old(State()), id, DoCollect)
    {
      hide MarketplaceRuns.DatabaseInv;
      MarketplaceRuns.ApplyKeepsInv(State(), DoRequest(id, DoCollect));
      if id >= |requests| { return Error(NoPayment); }
      var row := requests[id];
      if row.payments == [] { return Error(NoPayment); }
      if !row.payments[0].status.CashDue? { return Error(NotDue); }
      if !row.status.Completed? { return Error(NotCompleted); }
      row := row.(payments := row.payments[0 := row.payments[0].(status := CashCollected)]);
      requests := requests[id := row];
      return Ok;
    }

    method RefundCashPayment(id: nat) returns (reply: Reply)
      requires Valid()
      modifies this
      ensures Valid() && State() == Apply(old(State()), DoRequest(id, DoRefund))
      ensures reply == ReplyTo(old(State()), id, DoRefund)
    {
      hide MarketplaceRuns.DatabaseInv;
      MarketplaceRuns.ApplyKeepsInv(State(), DoRequest(id, DoRefund));
      if id >= |requests| { return Error(NoPayment); }
      var row := requests[id];
      if row.payments == [] { return Error(NoPayment); }
      if !row.payments[0].status.CashCollected? { return Error(NotCollected); }
      row := row.(payments := row.payments[0 := row.payments[0].(status := Refunded)]);
      requests := requests[id := row];
      return Ok;
    }

    method SubmitProviderLocationSample(id: nat, p: ProviderId, s: Tracking.Sample, distance: Option<real>,
                                        receivedAt: int)
      returns (reply: Reply, position: Option<Tracking.SampleRow>)
      requires Valid()
      modifies this
      ensures Valid() && State() == Apply(old(State()), DoRequest(id, DoSample(p, s, distance, receivedAt)))
      ensures reply == ReplyTo(old(State()), id, DoSample(p, s, distance, receivedAt))
      ensures position == if reply.Ok? || reply == Error(Unchanged) then CurrentPosition(requests, id) else None
    {
      hide MarketplaceRuns.DatabaseInv;
      MarketplaceRuns.ApplyKeepsInv(State(), DoRequest(id, DoSample(p, s, distance, receivedAt)));
      if !trackingEnabled { return Error(TrackingDisabled), None; }
      if id >= |requests| { return Error(NotFound), None; }
      var row := requests[id];
      if row.assignee != Some(p) || !(row.status.OnTheWay? || row.status.InProgress?) { return Error(NotFound), None; }
      var t := row.tracking;
      if t.session.None? || t.session.value.provider != p || !t.session.value.active { return Error(NotTracked), None; }
      var session := t.session.value;
      if s.capturedAt < session.startedAt { return Error(SamplePredates), None; }
      if t.position.Some? {
        var current := t.position.value.sample;
        if current.capturedAt == s.capturedAt {
          if current != s { return Error(SampleConflicts), None; }
          return Error(Unchanged), t.position;
        }
        if current.capturedAt > s.capturedAt {
          var stored := Tracking.Lookup(t.samples, s.capturedAt);
          if stored.None? { return Error(SampleOutOfOrder), None; }
          if stored.value.sample != s { return Error(SampleConflicts), None; }
          return Error(Unchanged), t.position;
        }
      }
      var qualifies := Tracking.Qualifies(distance, s.accuracy);
      var count, first, last, arrival :=
        session.evidence.count, session.evidence.first, session.evidence.last, session.arrivalObservedAt;
      if qualifies {
        count := count + 1;
        if first.None? { first := Some(s.capturedAt); }
        last := Some(s.capturedAt);
        if arrival.None? && Tracking.EvaluateObservedArrival(Tracking.Evidence(count, first, last)) {
          arrival := Some(receivedAt);
        }
      }
      var stored := Tracking.SampleRow(s, receivedAt, qualifies);
      session := session.(evidence := Tracking.Evidence(count, first, last), arrivalObservedAt := arrival);
      row := row.(tracking := Tracking.Tables(Some(session), Some(stored), t.samples + [stored], t.history + [stored]));
      requests := requests[id := row];
      return Ok, Some(stored);
    }

    method StopProviderTrackingForOperations(id: nat, now: int) returns (reply: Reply)
      requires Valid()
      modifies this
      ensures Valid() && State() == Apply(old(State()), DoRequest(id, DoStopTracking(now)))
      ensures reply == ReplyTo(old(State()), id, DoStopTracking(now))
    {
      hide MarketplaceRuns.DatabaseInv;
      MarketplaceRuns.ApplyKeepsInv(State(), DoRequest(id, DoStopTracking(now)));
      if !trackingEnabled { return Error(TrackingDisabled); }
      if id >= |requests| { return Error(NotFound); }
      var row := StopProviderTracking(requests[id], Tracking.OperationsEmergency, now);
      requests := requests[id := row];
      return Ok;
    }

    /** `victims` are the rows the database selects, by request; the reply counts what is deleted. */
    method PruneProviderTrackingData(batchSize: int, victims: map<nat, set<int>>, rawBefore: int, evidenceBefore: int)
      returns (reply: Reply, samplesDeleted: nat, sessionsDeleted: nat)
      requires Valid()
      modifies this
      ensures Valid()
      ensures reply == if 1 <= batchSize <= 10_000 then Ok else Error(InvalidBatchSize)
      ensures State() == if reply.Ok? then
        Apply(old(State()), DoPrune(victims, rawBefore, evidenceBefore)) else old(State())
      ensures samplesDeleted == SampleRows(old(requests)) - SampleRows(requests)
      ensures sessionsDeleted == SessionRows(old(requests)) - SessionRows(requests)
    {
      hide MarketplaceRuns.DatabaseInv;
      if batchSize < 1 || batchSize > 10_000 { return Error(InvalidBatchSize), 0, 0; }
      MarketplaceRuns.ApplyKeepsInv(State(), DoPrune(victims, rawBefore, evidenceBefore));
      requests, samplesDeleted, sessionsDeleted := PruneRows(requests, victims, rawBefore, evidenceBefore);
      return Ok, samplesDeleted, sessionsDeleted;
    }

    static method PruneRows(requests: seq<Request>, victims: map<nat, set<int>>, rawBefore: int, evidenceBefore: int)
      returns (rows: seq<Request>, samplesDeleted: nat, sessionsDeleted: nat)
      ensures rows == PruneEverywhere(requests, victims, rawBefore, evidenceBefore)
      ensures samplesDeleted + SampleRows(rows) == SampleRows(requests)
      ensures sessionsDeleted + SessionRows(rows) == SessionRows(requests)
    {
      rows, samplesDeleted, sessionsDeleted := [], 0, 0;
      for i := 0 to |requests|
        invariant |rows| == i
        invariant forall k | 0 <= k < i :: rows[k] == PruneRequest(requests[k], k, victims, rawBefore, evidenceBefore)
        invariant samplesDeleted + SampleRows(rows) == SampleRows(requests[..i])
        invariant sessionsDeleted + SessionRows(rows) == SessionRows(requests[..i])
      {
        var row := requests[i];
        if i in victims {
          row := row.(tracking := Tracking.Prune(row.tracking, victims[i], rawBefore, evidenceBefore, true));
          KeptAreFewer(requests[i].tracking.samples, victims[i], rawBefore);
        }
        samplesDeleted := samplesDeleted + |requests[i].tracking.samples| - |row.tracking.samples|;
        if requests[i].tracking.session.Some? && row.tracking.session.None? { sessionsDeleted := sessionsDeleted + 1; }
        assert requests[..i + 1][..i] == requests[..i] && (rows + [row])[..i] == rows;
        rows := rows + [row];
      }
      assert requests[..|requests|] == requests;
    }
  }

  lemma {:induction false} KeptAreFewer(samples: seq<Tracking.SampleRow>, victims: set<int>, before: int)
    ensures |Tracking.KeepSamples(samples, victims, before)| <= |samples|
  {
    if samples != [] {
      KeptAreFewer(samples[1..], victims, before);
    }
  }

  lemma TwoInserts(outbox: map<Notice, nat>, a: Notice, b: Notice)
    ensures Insert(Insert(outbox, a, 0), b, 0) == Insert(Insert(outbox, b, 0), a, 0)
  {
  }
}
