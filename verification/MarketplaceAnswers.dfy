/**
 What every transaction demands, refuses and writes, in the table's own terms: a second reading of the
 transactions that shares none of the functions which compute them.
 */
module MarketplaceAnswers {
  import opened Domain
  import opened EventLog
  import opened Marketplace
  import opened MarketplaceInvariants
  import opened MarketplaceProofs
  import Tracking

  // ---------------------------------------------------------------- the demands

  predicate Working(providers: map<ProviderId, Provider>, p: ProviderId) {
    p in providers && providers[p].verification == Verified && providers[p].available
  }

  predicate Serves(providers: map<ProviderId, Provider>, p: ProviderId, serviceId: string) {
    Working(providers, p) && serviceId in providers[p].specialties
  }

  predicate InPlay(q: Quote) {
    q.status == Proposed || q.status == Approved
  }

  predicate Awaited(o: map<ProviderId, OpportunityStatus>, p: ProviderId) {
    p in o && (o[p] == Invited || o[p] == Quoted)
  }

  /** No staff quote at all, or an approved one. */
  predicate StaffAgreed(quotes: seq<Quote>) {
    (forall q | q in quotes :: q.provider.Some?) || exists q | q in quotes :: q.provider.None? && q.status == Approved
  }

  predicate Follows(before: Status, target: Status) {
    || (before == Assigned && target == OnTheWay)
    || (before == OnTheWay && target == InProgress)
    || (before == InProgress && target == Completed)
    || (before in {PendingDispatch, Assigned, OnTheWay} && target == Cancelled)
  }

  predicate Followed(t: Tracking.Tables, p: ProviderId) {
    t.session.Some? && t.session.value.provider == p && t.session.value.active
  }

  /** The rows that a sample's time is compared with. */
  predicate StoredAt(t: Tracking.Tables, row: Tracking.SampleRow, at: int) {
    (t.position == Some(row) || row in t.samples) && row.sample.capturedAt == at
  }

  predicate InTime(t: Tracking.Tables, s: Tracking.Sample) {
    t.position.None? || t.position.value.sample.capturedAt < s.capturedAt
  }

  /** When a transaction commits. */
  predicate Demands(r: Request, a: Action, providers: map<ProviderId, Provider>, trackingEnabled: bool) {
    match a
    case DoInvite(ids) =>
      ids != {} && r.status != Completed && r.status != Cancelled && forall q | q in r.quotes :: !InPlay(q)
    case DoAssign(p) => r.status == PendingDispatch && Serves(providers, p, r.serviceId)
    case DoUpdateStatus(target, _) =>
      Follows(r.status, target) && !(target == OnTheWay && trackingEnabled)
      && (target == InProgress ==> StaffAgreed(r.quotes))
    case DoProviderStatus(p, target, _) =>
      r.assignee == Some(p) && Follows(r.status, target) && target != Cancelled
      && (target == InProgress ==> StaffAgreed(r.quotes))
      && (target == OnTheWay && trackingEnabled ==>
            Working(providers, p) && (r.tracking.session.None? || Followed(r.tracking, p)))
    case DoPropose(_) =>
      (r.status == Assigned || r.status == OnTheWay) && r.opportunities == map[]
      && forall q | q in r.quotes :: !InPlay(q)
    case DoSubmit(p, _) =>
      r.status == PendingDispatch && Awaited(r.opportunities, p)
      && forall q | q in r.quotes && InPlay(q) :: q.provider.Some? && q.provider != Some(p)
    case DoWithdraw(k, p) =>
      k < |r.quotes| && r.quotes[k].provider == Some(p) && r.quotes[k].status == Proposed
    case DoDecide(customer, k, approve) =>
      k < |r.quotes| && r.customer == customer && r.quotes[k].status == Proposed
      && (r.quotes[k].provider.Some? ==>
            Working(providers, r.quotes[k].provider.value) && (approve ==> r.status == PendingDispatch))
    case DoClose(p) => Awaited(r.opportunities, p)
    case DoCollect => r.payments != [] && r.payments[0].status == CashDue && r.status == Completed
    case DoRefund => r.payments != [] && r.payments[0].status == CashCollected
    case DoSample(p, s, _, _) =>
      trackingEnabled && r.assignee == Some(p) && (r.status == OnTheWay || r.status == InProgress)
      && Followed(r.tracking, p) && r.tracking.session.value.startedAt <= s.capturedAt && InTime(r.tracking, s)
    case DoStopTracking(_) => trackingEnabled
  }

  /** What a transaction is refused for, first check first. */
  ghost function Fault(r: Request, a: Action, providers: map<ProviderId, Provider>, trackingEnabled: bool):
    Option<Refusal>
  {
    match a
    case DoInvite(ids) =>
      if ids == {} then Some(EmptyInvitation)
      else if r.status == Completed || r.status == Cancelled then Some(InvalidTransition)
      else if exists q | q in r.quotes :: InPlay(q) then Some(ActiveQuoteExists)
      else None
    case DoAssign(p) =>
      if r.status != PendingDispatch then Some(NotPendingDispatch)
      else if !Serves(providers, p, r.serviceId) then Some(ProviderNotAvailable)
      else None
    case DoUpdateStatus(target, _) =>
      if target == PendingDispatch || target == Assigned then Some(UnsupportedStatus)
      else if !Follows(r.status, target) then Some(InvalidTransition)
      else if target == OnTheWay && trackingEnabled then Some(ProviderActionRequired)
      else if target == InProgress && !StaffAgreed(r.quotes) then Some(QuoteApprovalRequired)
      else None
    case DoProviderStatus(p, target, _) =>
      if target !in {OnTheWay, InProgress, Completed} then Some(UnsupportedStatus)
      else if r.assignee != Some(p) then Some(NotFound)
      else if !Follows(r.status, target) then Some(InvalidTransition)
      else if target == OnTheWay && trackingEnabled && !Working(providers, p) then Some(NotEligibleForTracking)
      else if target == InProgress && !StaffAgreed(r.quotes) then Some(QuoteApprovalRequired)
      else if target == OnTheWay && trackingEnabled && r.tracking.session.Some? && !Followed(r.tracking, p) then
        Some(TrackingNotStarted)
      else None
    case DoPropose(_) =>
      if r.status != Assigned && r.status != OnTheWay then Some(InvalidTransition)
      else if exists q | q in r.quotes :: InPlay(q) then Some(ActiveQuoteExists)
      else if r.opportunities != map[] then Some(MarketplaceFlow)
      else None
    case DoSubmit(p, _) =>
      if r.status != PendingDispatch then Some(NotPendingDispatch)
      else if !Awaited(r.opportunities, p) then Some(OpportunityNotOpen)
      else if exists q | q in r.quotes :: q.provider.None? && InPlay(q) then Some(MarketplaceFlow)
      else if exists q | q in r.quotes :: q.provider == Some(p) && InPlay(q) then Some(OwnQuoteExists)
      else None
    case DoDecide(customer, k, approve) =>
      if k >= |r.quotes| || r.customer != customer then Some(QuoteNotPending)
      else if approve && r.quotes[k].provider.Some? && r.status != PendingDispatch then Some(NotPendingDispatch)
      else if r.quotes[k].status != Proposed then Some(QuoteNotPending)
      else if r.quotes[k].provider.Some? && !Working(providers, r.quotes[k].provider.value) then
        Some(ProviderNotAvailable)
      else None
    case DoWithdraw(_, _) => if Demands(r, a, providers, trackingEnabled) then None else Some(QuoteNotPending)
    case DoClose(p) => if Awaited(r.opportunities, p) then None else Some(Unchanged)
    case DoCollect =>
      if r.payments == [] then Some(NoPayment)
      else if r.payments[0].status != CashDue then Some(NotDue)
      else if r.status != Completed then Some(NotCompleted)
      else None
    case DoRefund =>
      if r.payments == [] then Some(NoPayment)
      else if r.payments[0].status != CashCollected then Some(NotCollected)
      else None
    case DoSample(p, s, _, _) =>
      if !trackingEnabled then Some(TrackingDisabled)
      else if r.assignee != Some(p) || (r.status != OnTheWay && r.status != InProgress) then Some(NotFound)
      else if !Followed(r.tracking, p) then Some(NotTracked)
      else if s.capturedAt < r.tracking.session.value.startedAt then Some(SamplePredates)
      else if InTime(r.tracking, s) then None
      else if exists row :: StoredAt(r.tracking, row, s.capturedAt) && row.sample == s then Some(Unchanged)
      else if exists row :: StoredAt(r.tracking, row, s.capturedAt) then Some(SampleConflicts)
      else Some(SampleOutOfOrder)
    case DoStopTracking(_) => if trackingEnabled then None else Some(TrackingDisabled)
  }

  /** Without its request a transaction is refused for the first check that needs the row. */
  function FaultWithoutRequest(a: Action, trackingEnabled: bool): Refusal {
    if a == DoInvite({}) then EmptyInvitation
    else if a.DoInvite? || a.DoPropose? then InvalidTransition
    else if a.DoUpdateStatus? then
      if a.target in {PendingDispatch, Assigned} then UnsupportedStatus else InvalidTransition
    else if a.DoProviderStatus? && a.target in {PendingDispatch, Assigned, Cancelled} then UnsupportedStatus
    else if a.DoWithdraw? || a.DoDecide? then QuoteNotPending
    else if a.DoCollect? || a.DoRefund? then NoPayment
    else if (a.DoSample? || a.DoStopTracking?) && !trackingEnabled then TrackingDisabled
    else NotFound
  }

  // ---------------------------------------------------------------- the answers

  lemma StaffAgreedMeans(quotes: seq<Quote>)
    ensures ServiceMayStart(quotes) <==> StaffAgreed(quotes)
  {
    CountZero(quotes, FromStaff);
    if q :| q in quotes && q.provider.None? && q.status == Approved {
      var i :| 0 <= i < |quotes| && quotes[i] == q;
      assert quotes[i].provider.None? && quotes[i].status.Approved?;
    }
    if exists q :: q in quotes && q.provider.None? {
      var q :| q in quotes && q.provider.None?;
      var i :| 0 <= i < |quotes| && quotes[i] == q;
      assert Passes(quotes[i], FromStaff);
    }
  }

  lemma InPlayMeans(quotes: seq<Quote>, p: ProviderId)
    ensures AnyStanding(quotes) <==> exists q | q in quotes :: InPlay(q)
    ensures StaffStanding(quotes) <==> exists q | q in quotes :: q.provider.None? && InPlay(q)
    ensures OwnStanding(quotes, p) <==> exists q | q in quotes :: q.provider == Some(p) && InPlay(q)
  {
    forall i | 0 <= i < |quotes| ensures Standing(quotes[i]) <==> InPlay(quotes[i]) {
    }
    forall q | q in quotes && InPlay(q) ensures exists i | 0 <= i < |quotes| :: quotes[i] == q && Standing(quotes[i]) {
      var i :| 0 <= i < |quotes| && quotes[i] == q;
    }
    forall i | 0 <= i < |quotes| && Standing(quotes[i]) ensures exists q | q in quotes :: q == quotes[i] && InPlay(q) {
      assert quotes[i] in quotes && InPlay(quotes[i]);
    }
  }

  lemma StoredRow(t: Tracking.Tables, s: Tracking.Sample)
    requires Tracking.Inv(t) && t.position.Some? && !InTime(t, s)
    ensures var stored := if t.position.value.sample.capturedAt == s.capturedAt then t.position
                          else Tracking.Lookup(t.samples, s.capturedAt);
      && (stored.Some? <==> exists row :: StoredAt(t, row, s.capturedAt))
      && (stored.Some? && stored.value.sample == s <==> exists row :: StoredAt(t, row, s.capturedAt) && row.sample == s)
  {
    Tracking.LookupFinds(t.samples, s.capturedAt);
    assert t.position.value in t.history;
    forall a, b | a in t.history && b in t.history && a.sample.capturedAt == b.sample.capturedAt ensures a == b {
      var i :| 0 <= i < |t.history| && t.history[i] == a;
      var j :| 0 <= j < |t.history| && t.history[j] == b;
    }
    var stored := if t.position.value.sample.capturedAt == s.capturedAt then t.position
                  else Tracking.Lookup(t.samples, s.capturedAt);
    if stored.Some? {
      assert StoredAt(t, stored.value, s.capturedAt);
    }
  }

  ghost predicate Answered(r: Request, a: Action, providers: map<ProviderId, Provider>, trackingEnabled: bool) {
    var result := Act(r, a, providers, trackingEnabled);
    && (result.Committed? <==> Demands(r, a, providers, trackingEnabled))
    && (if result.Committed? then None else Some(result.why)) == Fault(r, a, providers, trackingEnabled)
  }

  lemma StatusIsAnswered(r: Request, a: Action, providers: map<ProviderId, Provider>, trackingEnabled: bool)
    requires a.DoUpdateStatus? || a.DoProviderStatus?
    ensures Answered(r, a, providers, trackingEnabled)
  {
    hide StaffAgreed, ServiceMayStart;
    StaffAgreedMeans(r.quotes);
  }

  lemma InvitationIsAnswered(r: Request, a: Action, providers: map<ProviderId, Provider>, trackingEnabled: bool)
    requires a.DoInvite? || a.DoPropose?
    ensures Answered(r, a, providers, trackingEnabled)
  {
    hide AnyStanding, StaffStanding, OwnStanding, InPlay;
    InPlayMeans(r.quotes, ProviderId(""));
  }

  lemma SubmissionIsAnswered(r: Request, a: Action, providers: map<ProviderId, Provider>, trackingEnabled: bool)
    requires a.DoSubmit?
    ensures Answered(r, a, providers, trackingEnabled)
  {
    hide AnyStanding, StaffStanding, OwnStanding, InPlay;
    InPlayMeans(r.quotes, a.p);
  }

  lemma SampleIsAnswered(r: Request, a: Action, providers: map<ProviderId, Provider>, trackingEnabled: bool)
    requires a.DoSample? && Tracking.Inv(r.tracking)
    ensures Answered(r, a, providers, trackingEnabled)
  {
    hide Tracking.Lookup, Tracking.Inv;
    if r.tracking.position.Some? && !InTime(r.tracking, a.sample) {
      StoredRow(r.tracking, a.sample);
    }
  }

  /** Every transaction commits exactly on its demands, and is refused for its first failing check. */
  lemma EveryActionAnswers(r: Request, a: Action, providers: map<ProviderId, Provider>, trackingEnabled: bool)
    requires a.DoSample? ==> Tracking.Inv(r.tracking)
    ensures Act(r, a, providers, trackingEnabled).Committed? <==> Demands(r, a, providers, trackingEnabled)
    ensures Act(r, a, providers, trackingEnabled).Refused? ==>
      Fault(r, a, providers, trackingEnabled) == Some(Act(r, a, providers, trackingEnabled).why)
    ensures Act(r, a, providers, trackingEnabled).Committed? ==> Fault(r, a, providers, trackingEnabled).None?
  {
    if a.DoUpdateStatus? || a.DoProviderStatus? {
      StatusIsAnswered(r, a, providers, trackingEnabled);
    } else if a.DoInvite? || a.DoPropose? {
      InvitationIsAnswered(r, a, providers, trackingEnabled);
    } else if a.DoSubmit? {
      SubmissionIsAnswered(r, a, providers, trackingEnabled);
    } else if a.DoSample? {
      SampleIsAnswered(r, a, providers, trackingEnabled);
    } else {
      OtherwiseAnswered(r, a, providers, trackingEnabled);
    }
  }

  lemma OtherwiseAnswered(r: Request, a: Action, providers: map<ProviderId, Provider>, trackingEnabled: bool)
    requires a.DoAssign? || a.DoWithdraw? || a.DoDecide? || a.DoClose? || a.DoCollect? || a.DoRefund?
             || a.DoStopTracking?
    ensures Answered(r, a, providers, trackingEnabled)
  {
    hide Settle, HasPayment;
  }
}
