/** What every committed transaction writes, column by column, in the table's own terms. */
module MarketplaceWrites {
  import opened Domain
  import opened EventLog
  import opened Marketplace
  import opened MarketplaceInvariants
  import opened MarketplaceProofs
  import opened MarketplaceAnswers
  import Tracking

  // ---------------------------------------------------------------- one table at a time

  function AwaitedOnes(o: map<ProviderId, OpportunityStatus>): set<ProviderId> {
    set p | p in o && (o[p] == Invited || o[p] == Quoted)
  }

  /** The proposed provider quotes, but for the one being approved. */
  function Competing(quotes: seq<Quote>, approved: Option<nat>): set<nat> {
    set i: nat | i < |quotes| && quotes[i].provider.Some? && quotes[i].status == Proposed && approved != Some(i)
  }

  /** The outbox is described by the notices. */
  predicate SameButOutbox(r: Request, r': Request) {
    r' == r.(outbox := r'.outbox, announced := r'.announced)
  }

  predicate QuotesSettled(quotes: seq<Quote>, quotes': seq<Quote>, approved: Option<nat>) {
    && |quotes'| == |quotes|
    && forall i: nat | i < |quotes| ::
         quotes'[i] == if approved == Some(i) then quotes[i].(status := Approved)
                       else if i in Competing(quotes, None) then quotes[i].(status := Rejected)
                       else quotes[i]
  }

  predicate OpportunitiesClosed(o: map<ProviderId, OpportunityStatus>, o': map<ProviderId, OpportunityStatus>) {
    o'.Keys == o.Keys && forall p | p in o :: o'[p] == if p in AwaitedOnes(o) then Closed else o[p]
  }

  /** The winner is assigned, every awaited opportunity closed and every competing quote rejected. */
  predicate SettledOn(r: Request, r': Request, winner: ProviderId, approved: Option<nat>) {
    && SameButOutbox(r.(status := Assigned, assignee := Some(winner), quotes := r'.quotes, payments := r'.payments,
                        opportunities := r'.opportunities, events := r'.events), r')
    && QuotesSettled(r.quotes, r'.quotes, approved)
    && OpportunitiesClosed(r.opportunities, r'.opportunities)
    && r'.events == r.events + Repeat(Event(QuoteRejected, Assigned), |Competing(r.quotes, approved)|)
                    + Repeat(Event(OpportunityClosed, Assigned), |AwaitedOnes(r.opportunities)|)
                    + [Event(ProviderAssigned, Assigned)]
                    + if approved.Some? then [Event(QuoteApproved, r.status)] else []
  }

  ghost predicate InvitedTo(r: Request, r': Request, ids: set<ProviderId>, providers: map<ProviderId, Provider>) {
    && SameButOutbox(r.(opportunities := r'.opportunities, events := r'.events), r')
    && (forall p :: p in r'.opportunities <==>
          p in r.opportunities || (p in ids && Serves(providers, p, r.serviceId)))
    && (forall p | p in r'.opportunities ::
          r'.opportunities[p] == if p in r.opportunities then r.opportunities[p] else Invited)
    && r'.events == r.events +
         Repeat(Event(OpportunityInvited, r.status), |r'.opportunities.Keys - r.opportunities.Keys|)
  }

  /** A stop ends an active session, or completes the reason of one that was stopped before the service ended. */
  predicate TrackingStopped(t: Tracking.Tables, t': Tracking.Tables, reason: Tracking.StopReason, now: int) {
    && t' == t.(session := t'.session, position := None)
    && (t.session.None? ==> t'.session.None?)
    && (t.session.Some? ==>
          t'.session == Some(
            if t.session.value.active then
              t.session.value.(active := false, stoppedAt := Some(now), stopReason := Some(reason))
            else if reason in {Tracking.ByCompletion, Tracking.ByCancellation}
                    && t.session.value.stopReason in
                         {Some(Tracking.ProviderSuspended), Some(Tracking.OperationsEmergency)} then
              t.session.value.(stopReason := Some(reason))
            else t.session.value))
  }

  predicate TrackingMoved(r: Request, r': Request, a: Action, trackingEnabled: bool)
    requires a.DoUpdateStatus? || a.DoProviderStatus?
  {
    if a.target == Completed then TrackingStopped(r.tracking, r'.tracking, Tracking.ByCompletion, a.now)
    else if a.target == Cancelled then TrackingStopped(r.tracking, r'.tracking, Tracking.ByCancellation, a.now)
    else if a.DoProviderStatus? && a.target == OnTheWay && trackingEnabled && r.tracking.session.None? then
      r'.tracking == r.tracking.(
        session := Some(Tracking.Session(a.p, true, a.now, None, None, Tracking.Evidence(0, None, None), None)),
        history := [])
    else r'.tracking == r.tracking
  }

  /** An accepted sample counts as evidence of arrival within a hundred metres, fifty metres accurate or better. */
  predicate CountsAsEvidence(s: Tracking.Sample, distance: Option<real>) {
    distance.Some? && distance.value <= 100.0 && s.accuracy <= 50.0
  }

  predicate SampleStored(t: Tracking.Tables, t': Tracking.Tables, s: Tracking.Sample, distance: Option<real>,
                         receivedAt: int)
  {
    t.session.Some? && t'.session.Some? &&
    var row := Tracking.SampleRow(s, receivedAt, CountsAsEvidence(s, distance));
    var before, after := t.session.value, t'.session.value;
    && t' == Tracking.Tables(t'.session, Some(row), t.samples + [row], t.history + [row])
    && after == before.(evidence := after.evidence, arrivalObservedAt := after.arrivalObservedAt)
    && (if !CountsAsEvidence(s, distance) then after == before
        else
          && after.evidence.count == before.evidence.count + 1
          && after.evidence.first == (if before.evidence.first.Some? then before.evidence.first else Some(s.capturedAt))
          && after.evidence.last == Some(s.capturedAt)
          && after.arrivalObservedAt ==
            if before.arrivalObservedAt.None? && after.evidence.count >= 3
               && s.capturedAt - after.evidence.first.value >= 30_000
            then Some(receivedAt) else before.arrivalObservedAt)
  }

  // ---------------------------------------------------------------- every transaction

  ghost predicate Writes(r: Request, r': Request, a: Action, providers: map<ProviderId, Provider>,
                         trackingEnabled: bool)
  {
    match a
    case DoInvite(ids) => InvitedTo(r, r', ids, providers)
    case DoAssign(p) => SettledOn(r, r', p, None) && r'.payments == r.payments
    case DoUpdateStatus(target, _) =>
      && SameButOutbox(r.(status := target, events := r.events + [Event(StatusUpdated, target)],
                          tracking := r'.tracking), r')
      && TrackingMoved(r, r', a, trackingEnabled)
    case DoProviderStatus(_, target, _) =>
      && SameButOutbox(r.(status := target, events := r.events + [Event(StatusUpdated, target)],
                          tracking := r'.tracking), r')
      && TrackingMoved(r, r', a, trackingEnabled)
    case DoPropose(amount) =>
      SameButOutbox(r.(quotes := r.quotes + [Quote(None, amount, Proposed)],
                       events := r.events + [Event(QuoteProposed, r.status)]), r')
    case DoSubmit(p, amount) =>
      SameButOutbox(r.(quotes := r.quotes + [Quote(Some(p), amount, Proposed)],
                       opportunities := r.opportunities[p := Quoted],
                       events := r.events + [Event(ProviderQuoteSubmitted, PendingDispatch)]), r')
    case DoWithdraw(k, p) =>
      && k < |r.quotes|
      && r' == r.(quotes := r.quotes[k := r.quotes[k].(status := Withdrawn)],
                  opportunities := if p in r.opportunities then r.opportunities[p := Retracted] else r.opportunities,
                  events := r.events + [Event(ProviderQuoteWithdrawn, PendingDispatch)])
    case DoDecide(_, k, approve) =>
      k < |r.quotes| && if approve then ApprovalWritten(r, r', k) else RejectionWritten(r, r', k)
    case DoClose(p) =>
      r' == r.(opportunities := r.opportunities[p := Closed], events := r.events + [Event(OpportunityClosed, r.status)])
    case DoCollect =>
      && r.payments != []
      && r' == r.(payments := [r.payments[0].(status := CashCollected)] + r.payments[1..])
    case DoRefund =>
      && r.payments != []
      && r' == r.(payments := [r.payments[0].(status := Refunded)] + r.payments[1..])
    case DoSample(_, s, distance, receivedAt) =>
      && r' == r.(tracking := r'.tracking)
      && SampleStored(r.tracking, r'.tracking, s, distance, receivedAt)
    case DoStopTracking(now) =>
      && r' == r.(tracking := r'.tracking)
      && TrackingStopped(r.tracking, r'.tracking, Tracking.OperationsEmergency, now)
  }

  predicate ApprovalWritten(r: Request, r': Request, k: nat)
    requires k < |r.quotes|
  {
    && r'.payments ==
      (if exists pay | pay in r.payments :: pay.quote == k then r.payments
       else r.payments + [Payment(k, r.quotes[k].amount, CashDue)])
    && if r.quotes[k].provider.Some? then SettledOn(r, r', r.quotes[k].provider.value, Some(k))
       else r' == r.(quotes := r.quotes[k := r.quotes[k].(status := Approved)], payments := r'.payments,
                     events := r.events + [Event(QuoteApproved, r.status)])
  }

  predicate RejectionWritten(r: Request, r': Request, k: nat)
    requires k < |r.quotes|
  {
    && r' == r.(quotes := r.quotes[k := r.quotes[k].(status := Rejected)], opportunities := r'.opportunities,
                events := r.events + [Event(QuoteRejected, r.status)])
    && r'.opportunities.Keys == r.opportunities.Keys
    && forall p | p in r.opportunities ::
         r'.opportunities[p] ==
         if r.quotes[k].provider == Some(p) && r.opportunities[p] == Quoted then Declined else r.opportunities[p]
  }

  // ---------------------------------------------------------------- proofs

  lemma {:induction false} CountIsCompeting(quotes: seq<Quote>)
    ensures CountQuotes(quotes, FromProviderProposed) == |Competing(quotes, None)|
  {
    if quotes != [] {
      var front, n := quotes[..|quotes| - 1], |quotes| - 1;
      CountIsCompeting(front);
      if ProposedByProvider(quotes[n]) {
        assert Competing(quotes, None) == Competing(front, None) + {n};
      } else {
        assert Competing(quotes, None) == Competing(front, None);
      }
    }
  }

  lemma SettleWrites(r: Request, p: ProviderId)
    ensures SettledOn(r, Settle(r, p), p, None) && Settle(r, p).payments == r.payments
  {
    CountIsCompeting(r.quotes);
    assert OpenOnes(r.opportunities) == AwaitedOnes(r.opportunities);
  }

  lemma WinningWrites(r: Request, paid: Request, k: nat, r': Request)
    requires k < |r.quotes| && r.quotes[k].provider.Some? && r.quotes[k].status == Proposed
    requires paid == r.(quotes := r.quotes[k := r.quotes[k].(status := Approved)], payments := paid.payments)
    requires SettledOn(paid, r', r.quotes[k].provider.value, None)
    ensures SettledOn(r, r'.(events := r'.events + [Event(QuoteApproved, r.status)]),
                      r.quotes[k].provider.value, Some(k))
  {
    assert Competing(paid.quotes, None) == Competing(r.quotes, Some(k));
  }

  lemma PaymentExists(payments: seq<Payment>, k: nat)
    ensures HasPayment(payments, k) <==> exists pay | pay in payments :: pay.quote == k
  {
    if pay :| pay in payments && pay.quote == k {
      var m :| 0 <= m < |payments| && payments[m] == pay;
    }
  }

  lemma ApprovalWrites(r: Request, a: Action, providers: map<ProviderId, Provider>, trackingEnabled: bool)
    requires a.DoDecide? && a.approve
    ensures var result := Act(r, a, providers, trackingEnabled);
      result.Committed? ==> Writes(r, result.request, a, providers, trackingEnabled)
  {
    hide Settle, HasPayment, SettledOn;
    var result := Act(r, a, providers, trackingEnabled);
    if result.Committed? {
      PaymentExists(r.payments, a.quote);
      var paid := r.(quotes := r.quotes[a.quote := r.quotes[a.quote].(status := Approved)],
                     payments := AddPayment(r.payments, a.quote, r.quotes[a.quote].amount));
      if r.quotes[a.quote].provider.Some? {
        var p := r.quotes[a.quote].provider.value;
        SettleWrites(paid, p);
        WinningWrites(r, paid, a.quote, Settle(paid, p));
      }
    }
  }

  ghost predicate InvitedOnly(o: map<ProviderId, OpportunityStatus>, o': map<ProviderId, OpportunityStatus>,
                              added: set<ProviderId>)
  {
    && o'.Keys == o.Keys + added && o'.Keys - o.Keys == added
    && forall p | p in o' :: o'[p] == if p in o then o[p] else Invited
  }

  lemma InvitedRows(o: map<ProviderId, OpportunityStatus>, added: set<ProviderId>)
    requires added !! o.Keys
    ensures InvitedOnly(o, o + InvitedAll(added), added)
  {
    assert (o + InvitedAll(added)).Keys == o.Keys + added;
  }

  lemma InvitationsWrite(r: Request, ids: set<ProviderId>, providers: map<ProviderId, Provider>)
    ensures InvitedTo(r, AddInvitations(r, EligibleAmong(ids, providers, r.serviceId)), ids, providers)
  {
    hide InvitationsTo, InsertAll, Repeat, InvitedAll, EligibleAmong, InvitedOnly, InvitedTo;
    var chosen := EligibleAmong(ids, providers, r.serviceId);
    InvitedRows(r.opportunities, chosen - r.opportunities.Keys);
    EligibleServe(ids, providers, r.serviceId);
    InvitedOnlyWrites(r, AddInvitations(r, chosen), chosen, ids, providers);
  }

  lemma InvitedOnlyWrites(r: Request, r': Request, chosen: set<ProviderId>, ids: set<ProviderId>,
                          providers: map<ProviderId, Provider>)
    requires SameButOutbox(r.(opportunities := r'.opportunities, events := r'.events), r')
    requires InvitedOnly(r.opportunities, r'.opportunities, chosen - r.opportunities.Keys)
    requires r'.events == r.events + Repeat(Event(OpportunityInvited, r.status), |chosen - r.opportunities.Keys|)
    requires forall p :: p in chosen <==> p in ids && Serves(providers, p, r.serviceId)
    ensures InvitedTo(r, r', ids, providers)
  {
    hide Serves, Repeat;
    assert forall p :: p in r'.opportunities <==> p in r'.opportunities.Keys;
  }

  lemma EligibleServe(ids: set<ProviderId>, providers: map<ProviderId, Provider>, serviceId: string)
    ensures forall p :: p in EligibleAmong(ids, providers, serviceId) <==> p in ids && Serves(providers, p, serviceId)
  {
  }

  lemma StaffStatusWrites(r: Request, a: Action, providers: map<ProviderId, Provider>, trackingEnabled: bool)
    requires a.DoUpdateStatus?
    ensures var result := Act(r, a, providers, trackingEnabled);
      result.Committed? ==> Writes(r, result.request, a, providers, trackingEnabled)
  {
    hide ServiceMayStart, Insert;
  }

  lemma ProviderStatusWrites(r: Request, a: Action, providers: map<ProviderId, Provider>, trackingEnabled: bool)
    requires a.DoProviderStatus?
    ensures var result := Act(r, a, providers, trackingEnabled);
      result.Committed? ==> Writes(r, result.request, a, providers, trackingEnabled)
  {
    hide ServiceMayStart, Insert;
  }

  lemma OtherwiseWrites(r: Request, a: Action, providers: map<ProviderId, Provider>, trackingEnabled: bool)
    requires !a.DoInvite? && !a.DoAssign? && !a.DoUpdateStatus? && !a.DoProviderStatus? && !a.DoDecide?
    ensures var result := Act(r, a, providers, trackingEnabled);
      result.Committed? ==> Writes(r, result.request, a, providers, trackingEnabled)
  {
    hide Insert, AnyStanding, StaffStanding, OwnStanding, Tracking.Lookup;
  }

  lemma RejectionWrites(r: Request, a: Action, providers: map<ProviderId, Provider>, trackingEnabled: bool)
    requires a.DoDecide? && !a.approve
    ensures var result := Act(r, a, providers, trackingEnabled);
      result.Committed? ==> Writes(r, result.request, a, providers, trackingEnabled)
  {
    hide Settle, HasPayment;
  }

  /** Every committed transaction writes exactly these columns of its request, with these values. */
  lemma EveryActionWrites(r: Request, a: Action, providers: map<ProviderId, Provider>, trackingEnabled: bool)
    ensures var result := Act(r, a, providers, trackingEnabled);
      result.Committed? ==> Writes(r, result.request, a, providers, trackingEnabled)
  {
    hide Invite, AddInvitations, EligibleAmong, SettledOn, InvitedTo, Settle;
    match a
    case DoInvite(ids) => InviteWrites(r, a, providers, trackingEnabled);
    case DoAssign(p) => SettleWrites(r, p);
    case DoDecide(_, _, approve) =>
      if approve {
        ApprovalWrites(r, a, providers, trackingEnabled);
      } else {
        RejectionWrites(r, a, providers, trackingEnabled);
      }
    case DoUpdateStatus(_, _) => StaffStatusWrites(r, a, providers, trackingEnabled);
    case DoProviderStatus(_, _, _) => ProviderStatusWrites(r, a, providers, trackingEnabled);
    case _ => OtherwiseWrites(r, a, providers, trackingEnabled);
  }

  lemma InviteWrites(r: Request, a: Action, providers: map<ProviderId, Provider>, trackingEnabled: bool)
    requires a.DoInvite?
    ensures var result := Act(r, a, providers, trackingEnabled);
      result.Committed? ==> Writes(r, result.request, a, providers, trackingEnabled)
  {
    hide AddInvitations, EligibleAmong, InvitedTo, AnyStanding;
    InvitationsWrite(r, a.ids, providers);
  }

  /** A committed sample counts towards arrival, in its row and in the evidence, exactly when near and accurate. */
  lemma SampleCountsExactly(r: Request, p: ProviderId, s: Tracking.Sample, distance: Option<real>, receivedAt: int,
                            trackingEnabled: bool)
    requires SubmitSample(r, p, s, distance, receivedAt, trackingEnabled).Committed?
    ensures var r' := SubmitSample(r, p, s, distance, receivedAt, trackingEnabled).request;
      var counts := distance.Some? && distance.value <= 100.0 && s.accuracy <= 50.0;
      && r'.tracking.samples == r.tracking.samples + [Tracking.SampleRow(s, receivedAt, counts)]
      && r.tracking.session.Some? && r'.tracking.session.Some?
      && r'.tracking.session.value.evidence.count ==
           r.tracking.session.value.evidence.count + if counts then 1 else 0
  {
    Tracking.CountsExactlyWhenNearAndAccurate(r.tracking, p, s, distance, receivedAt);
  }
}
