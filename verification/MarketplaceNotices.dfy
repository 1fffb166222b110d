/** Whom each transaction tells: exactly those whose rows it has changed, each for the first and only time. */
module MarketplaceNotices {
  import opened Domain
  import opened EventLog
  import opened Marketplace
  import opened MarketplaceInvariants
  import opened MarketplaceProofs
  import opened MarketplaceRuns
  import opened MarketplaceSteps

  /** The new invitations. */
  function ToldOfInvitation(r: Request, r': Request): set<Notice> {
    InvitationsTo(r'.opportunities.Keys - r.opportunities.Keys)
  }

  /** A settlement tells the winner, the customer, and every other provider whose opportunity it closed. */
  function ToldOfSettlement(r: Request, r': Request): set<Notice> {
    if r'.assignee.Some? && r'.assignee != r.assignee then
      {AssignedProvider(r'.assignee.value), AssignmentConfirmed} + Losers(OpenOnes(r.opportunities), r'.assignee.value)
    else {}
  }

  function ToldOfStatus(r: Request, r': Request): set<Notice> {
    if r'.status != r.status && !r'.status.Assigned? then {StatusChanged(r'.status)} else {}
  }

  function ToldOfQuote(r: Request, r': Request): set<Notice> {
    if |r'.quotes| > |r.quotes| then {QuoteReceived(|r.quotes|)} else {}
  }

  function Told(r: Request, r': Request): set<Notice> {
    ToldOfInvitation(r, r') + ToldOfSettlement(r, r') + ToldOfStatus(r, r') + ToldOfQuote(r, r')
  }

  /** The outbox gains exactly these notices, none of which it had, and keeps the others as they were. */
  ghost predicate Tells(r: Request, r': Request) {
    && r'.outbox.Keys == r.outbox.Keys + Told(r, r')
    && Told(r, r') !! r.outbox.Keys
    && (forall n | n in r.outbox :: r'.outbox[n] == r.outbox[n])
  }

  // ---------------------------------------------------------------- transaction by transaction

  /** A transaction that changes none of the rows that notices are about. */
  lemma SilentlyTells(r: Request, r': Request)
    requires r'.outbox == r.outbox && r'.status == r.status && r'.assignee == r.assignee
    requires r'.opportunities.Keys == r.opportunities.Keys && |r'.quotes| == |r.quotes|
    ensures Tells(r, r')
  {
    assert r'.opportunities.Keys - r.opportunities.Keys == {};
    assert ToldOfInvitation(r, r') == {};
  }

  lemma InvitationsAreTold(r: Request, r': Request, added: set<ProviderId>)
    requires r'.opportunities.Keys == r.opportunities.Keys + added && added !! r.opportunities.Keys
    requires r'.status == r.status && r'.assignee == r.assignee && r'.quotes == r.quotes
    ensures Told(r, r') == InvitationsTo(added)
  {
    assert r'.opportunities.Keys - r.opportunities.Keys == added;
  }

  lemma InvitationsAreNew(r: Request, added: set<ProviderId>)
    requires OutboxInv(r) && added !! r.opportunities.Keys
    ensures InvitationsTo(added) !! r.outbox.Keys
  {
    forall n | n in InvitationsTo(added) ensures n !in r.outbox {
      assert Accounted(n, r);
    }
  }

  lemma InvitationsTell(r: Request, chosen: set<ProviderId>)
    requires OutboxInv(r)
    ensures Tells(r, AddInvitations(r, chosen))
  {
    hide OutboxInv, InvitationsTo, InsertAll, InvitedAll, Told;
    var added, r' := chosen - r.opportunities.Keys, AddInvitations(r, chosen);
    InvitedOpportunities(r.opportunities, added);
    InvitationsAreTold(r, r', added);
    InvitationsAreNew(r, added);
    InsertedAllOnce(r.outbox, InvitationsTo(added));
  }

  lemma SettlementTells(r: Request, winner: ProviderId)
    requires OutboxInv(r) && r.assignee.None?
    ensures Tells(r, Settle(r, winner))
  {
    hide Accounted, OutboxInv;
    var r' := Settle(r, winner);
    SettleSettles(r, winner);
    SettlementNoticesAreNew(r, winner);
    OutboxIsCounted(r);
    SettleSendsEachOnce(r, r', winner, Losers(OpenOnes(r.opportunities), winner));
    SettlementIsTold(r, r', winner);
  }

  lemma OutboxIsCounted(r: Request)
    requires OutboxInv(r)
    ensures |r.outbox| == r.announced
  {
  }

  lemma SettlementIsTold(r: Request, r': Request, winner: ProviderId)
    requires r.assignee.None? && r'.assignee == Some(winner) && r'.status.Assigned?
    requires r'.opportunities == CloseOpen(r.opportunities) && |r'.quotes| == |r.quotes|
    ensures Told(r, r') == SettlementNotices(r, winner)
  {
    assert r'.opportunities.Keys - r.opportunities.Keys == {};
    assert ToldOfInvitation(r, r') == {};
  }

  /** One notice about the request itself or its newest quote. */
  lemma OneNoticeTells(r: Request, r': Request, n: Notice)
    requires n !in r.outbox && r'.outbox == Insert(r.outbox, n, 0)
    requires r'.opportunities.Keys == r.opportunities.Keys && r'.assignee == r.assignee
    requires ToldOfStatus(r, r') + ToldOfQuote(r, r') == {n}
    ensures Tells(r, r')
  {
    assert r'.opportunities.Keys - r.opportunities.Keys == {};
    assert ToldOfInvitation(r, r') == {} && ToldOfSettlement(r, r') == {};
    assert Told(r, r') == {n};
  }

  /** A status is entered once, so its notice is new. */
  lemma StatusNoticeIsNew(r: Request, target: Status)
    requires OutboxInv(r) && Precedes(r.status, target)
    ensures StatusChanged(target) !in r.outbox
  {
    assert Accounted(StatusChanged(target), r);
  }

  lemma QuoteNoticeIsNew(r: Request)
    requires OutboxInv(r)
    ensures QuoteReceived(|r.quotes|) !in r.outbox
  {
    assert Accounted(QuoteReceived(|r.quotes|), r);
  }

  lemma StatusChangeTells(r: Request, a: Action, providers: map<ProviderId, Provider>, trackingEnabled: bool)
    requires OutboxInv(r) && (a.DoUpdateStatus? || a.DoProviderStatus?)
    ensures Tells(r, After(r, Act(r, a, providers, trackingEnabled)))
  {
    hide OutboxInv, Tells, Insert;
    var r' := After(r, Act(r, a, providers, trackingEnabled));
    if Act(r, a, providers, trackingEnabled).Refused? {
      SilentlyTells(r, r');
    } else {
      StatusNoticeIsNew(r, a.target);
      OneNoticeTells(r, r', StatusChanged(a.target));
    }
  }

  lemma QuotingTells(r: Request, a: Action, providers: map<ProviderId, Provider>, trackingEnabled: bool)
    requires OutboxInv(r) && (a.DoPropose? || a.DoSubmit?)
    ensures Tells(r, After(r, Act(r, a, providers, trackingEnabled)))
  {
    hide OutboxInv, Tells, Insert, AnyStanding, OwnStanding, StaffStanding;
    var r' := After(r, Act(r, a, providers, trackingEnabled));
    if Act(r, a, providers, trackingEnabled).Refused? {
      SilentlyTells(r, r');
    } else {
      QuoteNoticeIsNew(r);
      if a.DoSubmit? {
        assert r'.opportunities.Keys == r.opportunities.Keys + {a.p} == r.opportunities.Keys;
      }
      OneNoticeTells(r, r', QuoteReceived(|r.quotes|));
    }
  }

  lemma ApprovalTells(r: Request, a: Action, providers: map<ProviderId, Provider>, trackingEnabled: bool)
    requires Inv(r) && a.DoDecide? && a.approve
    ensures Tells(r, After(r, Act(r, a, providers, trackingEnabled)))
  {
    hide Inv, Tells, Settle, Paid, OutboxInv;
    var r' := After(r, DecideQuote(r, a.customer, a.quote, a.approve, providers));
    var result := DecideQuote(r, a.customer, a.quote, a.approve, providers);
    if result.Refused? {
      SilentlyTells(r, r');
    } else {
      var paid, p := Paid(r, a.quote), r.quotes[a.quote].provider;
      PaidIsPaid(r, a.quote);
      if p.Some? {
        PaidOutbox(r, paid);
        PendingIsUnassigned(r);
        SettlementTells(paid, p.value);
        SettleSettles(paid, p.value);
        SameTelling(r, paid, Settle(paid, p.value), r');
      } else {
        SilentlyTells(r, r');
      }
    }
  }

  lemma PaidOutbox(r: Request, paid: Request)
    requires Inv(r) && paid == r.(quotes := paid.quotes, payments := paid.payments) && |paid.quotes| == |r.quotes|
    ensures OutboxInv(paid)
  {
    forall n: Notice ensures Accounted(n, paid) {
      assert Accounted(n, r);
    }
  }

  lemma SameTelling(r: Request, paid: Request, settled: Request, r': Request)
    requires Tells(paid, settled)
    requires paid.outbox == r.outbox && paid.status == r.status && paid.assignee == r.assignee
    requires paid.opportunities == r.opportunities && |paid.quotes| == |r.quotes|
    requires r'.outbox == settled.outbox && r'.status == settled.status && r'.assignee == settled.assignee
    requires r'.opportunities == settled.opportunities && |r'.quotes| == |settled.quotes|
    ensures Tells(r, r')
  {
    assert Told(r, r') == Told(paid, settled);
  }

  lemma OtherwiseTells(r: Request, a: Action, providers: map<ProviderId, Provider>, trackingEnabled: bool)
    requires a.DoWithdraw? || a.DoClose? || a.DoCollect? || a.DoRefund? || a.DoSample? || a.DoStopTracking?
             || (a.DoDecide? && !a.approve)
    ensures Tells(r, After(r, Act(r, a, providers, trackingEnabled)))
  {
    hide Tells;
    SilentlyTells(r, After(r, Act(r, a, providers, trackingEnabled)));
  }

  /** Whatever the action, the outbox gains exactly the notices about the rows that changed. */
  lemma EveryActionTells(r: Request, a: Action, providers: map<ProviderId, Provider>, trackingEnabled: bool)
    requires Inv(r)
    ensures Tells(r, After(r, Act(r, a, providers, trackingEnabled)))
  {
    hide Tells, Inv, AddInvitations, Settle, EligibleAmong;
    InvParts(r);
    match a
    case DoInvite(ids) =>
      if Invite(r, ids, providers).Committed? { InvitationsTell(r, EligibleAmong(ids, providers, r.serviceId)); }
      else { SilentlyTells(r, r); }
    case DoAssign(p) =>
      if Assign(r, p, providers).Committed? { SettlementTells(r, p); } else { SilentlyTells(r, r); }
    case DoUpdateStatus(_, _) => StatusChangeTells(r, a, providers, trackingEnabled);
    case DoProviderStatus(_, _, _) => StatusChangeTells(r, a, providers, trackingEnabled);
    case DoPropose(_) => QuotingTells(r, a, providers, trackingEnabled);
    case DoSubmit(_, _) => QuotingTells(r, a, providers, trackingEnabled);
    case DoDecide(_, _, approve) =>
      if approve {
        ApprovalTells(r, a, providers, trackingEnabled);
      } else {
        OtherwiseTells(r, a, providers, trackingEnabled);
      }
    case _ => OtherwiseTells(r, a, providers, trackingEnabled);
  }

  // ---------------------------------------------------------------- the same, notice by notice

  /** Which notice a change of the rows owes, in the tables' own terms. */
  predicate Due(r: Request, r': Request, n: Notice) {
    match n
    case RequestReceived => false
    case Invitation(p) => p in r'.opportunities && p !in r.opportunities
    case QuoteReceived(k) => k == |r.quotes| < |r'.quotes|
    case AssignedProvider(p) => r'.assignee == Some(p) && r.assignee != Some(p)
    case AssignmentConfirmed => r'.assignee.Some? && r'.assignee != r.assignee
    case LostOpportunity(p) =>
      && r'.assignee.Some? && r'.assignee != r.assignee && r'.assignee != Some(p)
      && p in r.opportunities && r.opportunities[p] in {Invited, Quoted}
    case StatusChanged(s) => r'.status == s && r.status != s && s != Assigned
  }

  lemma ToldIsDue(r: Request, r': Request, n: Notice)
    ensures n in Told(r, r') <==> Due(r, r', n)
  {
  }

  predicate NewStartAtZero(outbox: map<Notice, nat>, outbox': map<Notice, nat>) {
    forall n | n in outbox' && n !in outbox :: outbox'[n] == 0
  }

  lemma SettlingStartsAtZero(r: Request, winner: ProviderId)
    ensures NewStartAtZero(r.outbox, Settle(r, winner).outbox)
  {
    hide OpenOnes, Losers;
  }

  lemma NoticesStartAtZero(r: Request, a: Action, providers: map<ProviderId, Provider>, trackingEnabled: bool)
    ensures NewStartAtZero(r.outbox, After(r, Act(r, a, providers, trackingEnabled)).outbox)
  {
    hide Settle, EligibleAmong, InvitationsTo, AnyStanding, StaffStanding, OwnStanding, ServiceMayStart, HasPayment;
    if a.DoAssign? {
      SettlingStartsAtZero(r, a.p);
    } else if a.DoDecide? && Act(r, a, providers, trackingEnabled).Committed? && a.approve
              && r.quotes[a.quote].provider.Some? {
      SettlingStartsAtZero(Paid(r, a.quote), r.quotes[a.quote].provider.value);
    }
  }

  /** Whatever the action, the outbox gains exactly the notices that are due, each new, with its first attempt ahead. */
  lemma EveryNoticeIsDue(r: Request, a: Action, providers: map<ProviderId, Provider>, trackingEnabled: bool)
    requires Inv(r)
    ensures var r' := After(r, Act(r, a, providers, trackingEnabled));
      && (forall n :: n in r'.outbox <==> n in r.outbox || Due(r, r', n))
      && (forall n | n in r.outbox :: !Due(r, r', n) && r'.outbox[n] == r.outbox[n])
      && (forall n | n in r'.outbox && n !in r.outbox :: r'.outbox[n] == 0)
  {
    hide Act, Inv, Told, Due;
    var r' := After(r, Act(r, a, providers, trackingEnabled));
    EveryActionTells(r, a, providers, trackingEnabled);
    NoticesStartAtZero(r, a, providers, trackingEnabled);
    forall n: Notice ensures n in Told(r, r') <==> Due(r, r', n) {
      ToldIsDue(r, r', n);
    }
  }

  lemma InvParts(r: Request)
    requires Inv(r)
    ensures OutboxInv(r) && (r.status.PendingDispatch? ==> r.assignee.None?)
  {
  }

  /** A new request tells its customer and every provider it invites, and nobody else. */
  lemma CreationTells(customer: nat, serviceId: string, providers: map<ProviderId, Provider>)
    ensures Create(customer, serviceId, providers).outbox.Keys
            == {RequestReceived} + InvitationsTo(EligibleOnes(providers, serviceId))
    ensures Create(customer, serviceId, providers).outbox[RequestReceived] == MAX_DELIVERY_ATTEMPTS - 1
  {
    hide InsertAll, Insert, InvitationsTo, EligibleOnes;
    var blank := NewRequest(customer, serviceId);
    var eligible := EligibleOnes(providers, serviceId);
    assert eligible - blank.opportunities.Keys == eligible;
    var invited := AddInvitations(blank, eligible);
    InsertedAllOnce(blank.outbox, InvitationsTo(eligible));
    ReceiptIsNoInvitation(eligible);
    InsertedFirst(invited.outbox, RequestReceived, MAX_DELIVERY_ATTEMPTS - 1);
  }

  lemma ReceiptIsNoInvitation(ps: set<ProviderId>)
    ensures RequestReceived !in InvitationsTo(ps)
  {
  }

  lemma InsertedFirst(outbox: map<Notice, nat>, n: Notice, attempts: nat)
    requires n !in outbox
    ensures Insert(outbox, n, attempts).Keys == {n} + outbox.Keys && Insert(outbox, n, attempts)[n] == attempts
  {
  }
}
