/** What holds over whole runs of the marketplace: in every reachable state and between any two of them. */
module MarketplaceRuns {
  import opened Domain
  import opened EventLog
  import opened Marketplace
  import opened MarketplaceInvariants
  import opened MarketplaceProofs
  import Tracking

  // ---------------------------------------------------------------- every reachable state

  /** A provider whose position is being followed is verified. */
  ghost predicate FollowedIsVerified(r: Request, providers: map<ProviderId, Provider>) {
    Tracking.Active(r.tracking) ==>
      var p := r.tracking.session.value.provider; p in providers && providers[p].verification.Verified?
  }

  ghost predicate NoTrackingWhenDisabled(r: Request, trackingEnabled: bool) {
    !trackingEnabled ==> r.tracking.session.None?
  }

  ghost predicate DatabaseInv(db: Database) {
    forall i | 0 <= i < |db.requests| :: RowInv(db, db.requests[i])
  }

  lemma ActKeepsFollowing(r: Request, a: Action, providers: map<ProviderId, Provider>, trackingEnabled: bool)
    requires Inv(r) && FollowedIsVerified(r, providers) && NoTrackingWhenDisabled(r, trackingEnabled)
    ensures var r' := After(r, Act(r, a, providers, trackingEnabled));
      FollowedIsVerified(r', providers) && NoTrackingWhenDisabled(r', trackingEnabled)
  {
    hide Inv;
  }

  lemma StoredRow(requests: seq<Request>, id: nat, result: Result, i: nat)
    requires id < |requests| && i < |requests|
    ensures |Stored(requests, id, result)| == |requests|
    ensures Stored(requests, id, result)[i] == if i == id then After(requests[i], result) else requests[i]
  {
  }

  ghost predicate RowInv(db: Database, r: Request) {
    Inv(r) && FollowedIsVerified(r, db.providers) && NoTrackingWhenDisabled(r, db.trackingEnabled)
  }

  lemma CreatedRowInv(db: Database, c: Command)
    requires c.DoCreate?
    ensures RowInv(Apply(db, c), Create(c.customer, c.serviceId, db.providers))
  {
    hide Inv;
    CreateEstablishesInv(c.customer, c.serviceId, db.providers);
  }

  lemma RequestKeepsRowInv(db: Database, c: Command, i: nat)
    requires c.DoRequest? && i < |db.requests| && c.id < |db.requests| && RowInv(db, db.requests[i])
    ensures i < |Apply(db, c).requests| && RowInv(Apply(db, c), Apply(db, c).requests[i])
  {
    hide Inv, Act;
    var result := Act(db.requests[c.id], c.action, db.providers, db.trackingEnabled);
    StoredRow(db.requests, c.id, result, i);
    if i == c.id {
      ActKeepsInv(db.requests[i], c.action, db.providers, db.trackingEnabled);
      ActKeepsFollowing(db.requests[i], c.action, db.providers, db.trackingEnabled);
    }
  }

  lemma OtherKeepsRowInv(db: Database, c: Command, i: nat)
    requires !c.DoRequest? && i < |db.requests| && RowInv(db, db.requests[i])
    ensures i < |Apply(db, c).requests| && RowInv(Apply(db, c), Apply(db, c).requests[i])
  {
    hide Inv;
    match c {
      case DoVerify(p, _, v, now) => SuspendKeepsInv(db.requests[i], p, now);
      case DoPrune(victims, rawBefore, evidenceBefore) => PruneKeepsInv(db.requests[i], i, victims, rawBefore,
        evidenceBefore);
      case _ =>
    }
  }

  lemma ApplyKeepsInv(db: Database, c: Command)
    requires DatabaseInv(db)
    ensures DatabaseInv(Apply(db, c))
    ensures Apply(db, c).trackingEnabled == db.trackingEnabled
  {
    hide Inv, Act;
    var db' := Apply(db, c);
    forall i: nat | i < |db'.requests| ensures RowInv(db', db'.requests[i]) {
      if i == |db.requests| {
        CreatedRowInv(db, c);
      } else if c.DoRequest? && c.id < |db.requests| {
        RequestKeepsRowInv(db, c, i);
      } else if !c.DoRequest? {
        OtherKeepsRowInv(db, c, i);
      }
    }
  }

  /** Every run from the empty database keeps every table's invariant. */
  lemma {:induction false} RunKeepsInv(db: Database, cs: seq<Command>)
    requires DatabaseInv(db)
    ensures DatabaseInv(Run(db, cs))
    ensures Run(db, cs).trackingEnabled == db.trackingEnabled
    decreases |cs|
  {
    if cs != [] {
      ApplyKeepsInv(db, cs[0]);
      RunKeepsInv(Apply(db, cs[0]), cs[1..]);
    }
  }

  lemma ReachableInv(trackingEnabled: bool, cs: seq<Command>)
    ensures var db := Run(Fresh(trackingEnabled), cs);
      && db.trackingEnabled == trackingEnabled
      && forall r | r in db.requests :: RowInv(db, r)
  {
    hide Inv, Run, RowInv;
    RunKeepsInv(Fresh(trackingEnabled), cs);
  }

  // ---------------------------------------------------------------- what the invariant says to a reader

  lemma {:induction false} CountAtMostOne(quotes: seq<Quote>, f: QuoteFilter)
    requires forall i, j | 0 <= i < j < |quotes| :: !(Passes(quotes[i], f) && Passes(quotes[j], f))
    ensures CountQuotes(quotes, f) <= 1
  {
    if quotes != [] {
      var front := quotes[..|quotes| - 1];
      CountAtMostOne(front, f);
      if Passes(quotes[|quotes| - 1], f) {
        CountZero(front, f);
      }
    }
  }

  /** One approved quote at most, one kind of quote, and the approved provider is the assigned one. */
  ghost predicate OneWinnerOnly(r: Request) {
    && CountQuotes(r.quotes, HasStatus(Approved)) <= 1
    && (r.status.PendingDispatch? ==> r.assignee.None?)
    && (forall i | 0 <= i < |r.quotes| && r.quotes[i].status.Approved? && r.quotes[i].provider.Some? ::
          r.assignee == r.quotes[i].provider)
    && !(CountQuotes(r.quotes, FromStaff) > 0 && CountQuotes(r.quotes, FromProvider) > 0)
  }

  /** Over every run, whoever acts in whatever order. */
  lemma SingleWinner(trackingEnabled: bool, cs: seq<Command>)
    ensures forall r | r in Run(Fresh(trackingEnabled), cs).requests :: OneWinnerOnly(r)
  {
    hide Inv, OneWinnerOnly, Run;
    ReachableInv(trackingEnabled, cs);
    forall r | r in Run(Fresh(trackingEnabled), cs).requests ensures OneWinnerOnly(r) {
      InvariantWinner(r);
    }
  }

  lemma InvariantWinner(r: Request)
    requires Inv(r)
    ensures OneWinnerOnly(r)
  {
    hide LogInv, OutboxInv, TrackingInv, PaymentInv;
    CountAtMostOne(r.quotes, HasStatus(Approved));
    CountZero(r.quotes, FromStaff);
    CountZero(r.quotes, FromProvider);
  }

  /** Approved quotes and payments are one-to-one with equal amounts; money moves only after completion. */
  ghost predicate PaymentsCorrespond(r: Request) {
    && |r.payments| == CountQuotes(r.quotes, HasStatus(Approved)) <= 1
    && (forall m | 0 <= m < |r.payments| ::
          && r.payments[m].quote < |r.quotes|
          && r.quotes[r.payments[m].quote].status.Approved?
          && r.payments[m].amount == r.quotes[r.payments[m].quote].amount
          && (r.payments[m].status.CashCollected? || r.payments[m].status.Refunded? ==> r.status.Completed?))
    && (r.status.InProgress? || r.status.Completed? ==>
          || CountQuotes(r.quotes, FromStaff) == 0
          || (|r.payments| == 1 && CountQuotes(r.quotes, HasStatus(Proposed)) == 0))
  }

  lemma PaymentCorrespondence(trackingEnabled: bool, cs: seq<Command>)
    ensures forall r | r in Run(Fresh(trackingEnabled), cs).requests :: PaymentsCorrespond(r)
  {
    hide Inv, PaymentsCorrespond, Run;
    ReachableInv(trackingEnabled, cs);
    forall r | r in Run(Fresh(trackingEnabled), cs).requests ensures PaymentsCorrespond(r) {
      InvariantPayments(r);
    }
  }

  lemma InvariantPayments(r: Request)
    requires Inv(r)
    ensures PaymentsCorrespond(r)
  {
    hide LogInv, OutboxInv, TrackingInv;
    CountAtMostOne(r.quotes, HasStatus(Approved));
    CountZero(r.quotes, HasStatus(Approved));
    CountZero(r.quotes, HasStatus(Proposed));
    CountZero(r.quotes, FromStaff);
    AtMostOnePayment(r);
    if CountQuotes(r.quotes, HasStatus(Approved)) > 0 {
      var i :| 0 <= i < |r.quotes| && Passes(r.quotes[i], HasStatus(Approved));
      assert HasPayment(r.payments, i);
    }
  }

  lemma AtMostOnePayment(r: Request)
    requires QuoteInv(r) && PaymentInv(r)
    ensures |r.payments| <= 1
    ensures |r.payments| == 1 ==> exists i | 0 <= i < |r.quotes| :: Passes(r.quotes[i], HasStatus(Approved))
  {
    if |r.payments| > 0 {
      assert Passes(r.quotes[r.payments[0].quote], HasStatus(Approved));
    }
    if |r.payments| > 1 {
      SameQuoteSamePayment(r, 0, 1);
    }
  }

  lemma SameQuoteSamePayment(r: Request, m: nat, n: nat)
    requires QuoteInv(r) && PaymentInv(r) && m < |r.payments| && n < |r.payments|
    ensures m == n
  {
    assert r.quotes[r.payments[m].quote].status.Approved? && r.quotes[r.payments[n].quote].status.Approved?;
  }

  /** A provider quotes a request at most once in a whole run, and "quoted" means that quote stands. */
  ghost predicate QuotedOnce(r: Request, p: ProviderId) {
    && (forall i, j | 0 <= i < |r.quotes| && 0 <= j < |r.quotes| ::
          r.quotes[i].provider == Some(p) == r.quotes[j].provider ==> i == j)
    && (p in r.opportunities && r.opportunities[p].Quoted? ==> HasProposed(r.quotes, p))
    && (HasProposed(r.quotes, p) ==> p in r.opportunities && (r.opportunities[p].Quoted? || r.opportunities[p].Closed?))
    && (p in r.opportunities && r.opportunities[p].Invited? ==>
          forall i | 0 <= i < |r.quotes| :: r.quotes[i].provider != Some(p))
  }

  lemma OneProviderQuoteEver(trackingEnabled: bool, cs: seq<Command>, p: ProviderId)
    ensures forall r | r in Run(Fresh(trackingEnabled), cs).requests :: QuotedOnce(r, p)
  {
    hide Inv, QuotedOnce, Run;
    ReachableInv(trackingEnabled, cs);
    forall r | r in Run(Fresh(trackingEnabled), cs).requests ensures QuotedOnce(r, p) {
      InvariantQuotedOnce(r, p);
    }
  }

  lemma InvariantQuotedOnce(r: Request, p: ProviderId)
    requires Inv(r)
    ensures QuotedOnce(r, p)
  {
    hide LogInv, OutboxInv, TrackingInv, PaymentInv;
    forall i | 0 <= i < |r.quotes| ensures QuoteMatchesOpportunity(r.quotes[i], r.opportunities) {
    }
  }

  /** The event log replays to the status and counts every row. */
  lemma LogConservation(trackingEnabled: bool, cs: seq<Command>)
    ensures forall r | r in Run(Fresh(trackingEnabled), cs).requests :: LogInv(r)
  {
    hide LogInv, Run;
    ReachableInv(trackingEnabled, cs);
  }

  /** No notification is dropped: the outbox has one row per call of its writer. */
  lemma EveryNoticeStored(trackingEnabled: bool, cs: seq<Command>)
    ensures forall r | r in Run(Fresh(trackingEnabled), cs).requests :: NoNoticeLost(r)
  {
    hide LogInv, QuoteInv, PaymentInv, TrackingInv, Run;
    ReachableInv(trackingEnabled, cs);
  }

  /** One outbox row per call of the writer, and exactly the notices that the request's rows account for. */
  ghost predicate NoNoticeLost(r: Request) {
    |r.outbox| == r.announced && forall n: Notice :: Accounted(n, r)
  }

  /** Who may be followed, and when. */
  lemma TrackingSafety(trackingEnabled: bool, cs: seq<Command>)
    ensures var db := Run(Fresh(trackingEnabled), cs);
      forall r | r in db.requests :: FollowedSafely(r, db.providers, trackingEnabled)
  {
    hide Inv, FollowedSafely, Run;
    ReachableInv(trackingEnabled, cs);
    var db := Run(Fresh(trackingEnabled), cs);
    forall r | r in db.requests ensures FollowedSafely(r, db.providers, trackingEnabled) {
      InvariantTracking(r, db.providers, trackingEnabled);
    }
  }

  ghost predicate FollowedSafely(r: Request, providers: map<ProviderId, Provider>, trackingEnabled: bool) {
    && (r.tracking.position.Some? ==> Tracking.Active(r.tracking))
    && (Tracking.Active(r.tracking) ==>
          var p := r.tracking.session.value.provider;
          && trackingEnabled
          && (r.status.OnTheWay? || r.status.InProgress?)
          && r.assignee == Some(p)
          && p in providers && providers[p].verification.Verified?)
    && (r.tracking.session.Some? ==>
          && Tracking.StateCheck(r.tracking.session.value)
          && Tracking.ArrivalCheck(r.tracking.session.value)
          && (r.tracking.session.value.arrivalObservedAt.Some? <==> Tracking.Arrived(r.tracking.history)))
  }

  lemma InvariantTracking(r: Request, providers: map<ProviderId, Provider>, trackingEnabled: bool)
    requires Inv(r) && FollowedIsVerified(r, providers) && NoTrackingWhenDisabled(r, trackingEnabled)
    ensures FollowedSafely(r, providers, trackingEnabled)
  {
    hide LogInv, OutboxInv, QuoteInv, PaymentInv;
    if r.tracking.session.Some? {
      Tracking.ArrivalRefinesHistory(r.tracking);
    }
  }

  ghost predicate AvailableVerified(providers: map<ProviderId, Provider>) {
    forall p | p in providers && providers[p].available :: providers[p].verification.Verified?
  }

  lemma {:induction false} RunKeepsAvailability(db: Database, cs: seq<Command>)
    requires AvailableVerified(db.providers)
    ensures AvailableVerified(Run(db, cs).providers)
    decreases |cs|
  {
    if cs != [] {
      ApplyKeepsAvailability(db, cs[0]);
      RunKeepsAvailability(Apply(db, cs[0]), cs[1..]);
    }
  }

  lemma ApplyKeepsAvailability(db: Database, c: Command)
    requires AvailableVerified(db.providers)
    ensures AvailableVerified(Apply(db, c).providers)
  {
    hide Act;
  }

  /** An available provider is always a verified one. */
  lemma AvailableIsVerified(trackingEnabled: bool, cs: seq<Command>)
    ensures AvailableVerified(Run(Fresh(trackingEnabled), cs).providers)
  {
    RunKeepsAvailability(Fresh(trackingEnabled), cs);
  }

  // ---------------------------------------------------------------- what is written once

  ghost predicate QuotesEvolve(q: seq<Quote>, q': seq<Quote>) {
    && |q| <= |q'|
    && forall i | 0 <= i < |q| ::
      && q'[i].provider == q[i].provider && q'[i].amount == q[i].amount
      && (q[i].status.Proposed? || q'[i].status == q[i].status)
  }

  ghost predicate PaymentsEvolve(pay: seq<Payment>, pay': seq<Payment>) {
    && |pay| <= |pay'|
    && forall m | 0 <= m < |pay| ::
      && pay'[m].quote == pay[m].quote && pay'[m].amount == pay[m].amount
      && (pay[m].status.CashCollected? ==> !pay'[m].status.CashDue?)
      && (pay[m].status.Refunded? ==> pay'[m].status.Refunded?)
  }

  /** A session is stopped once; afterwards only its reason may still become terminal. */
  ghost predicate SessionEvolves(s: Tracking.Session, s': Tracking.Session) {
    && s'.provider == s.provider && s'.startedAt == s.startedAt
    && (!s.active ==>
          && !s'.active && s'.stoppedAt == s.stoppedAt
          && (s'.stopReason == s.stopReason
              || (s.stopReason.Some? && !Tracking.Terminal(s.stopReason.value)
                  && s'.stopReason.Some? && Tracking.Terminal(s'.stopReason.value))))
    && (s.arrivalObservedAt.Some? ==> s'.arrivalObservedAt == s.arrivalObservedAt)
  }

  ghost predicate TrackingEvolves(r: Request, r': Request) {
    && (r.tracking.session.Some? && r'.tracking.session.Some? ==>
          SessionEvolves(r.tracking.session.value, r'.tracking.session.value))
    && (r.tracking.session.None? && Rank(r.status) >= 2 ==> r'.tracking.session.None?)
  }

  ghost predicate Evolves(r: Request, r': Request) {
    && (r.assignee.Some? ==> r'.assignee == r.assignee)
    && (Rank(r.status) <= Rank(r'.status))
    && (r.status.Completed? ==> r'.status.Completed?)
    && r.events <= r'.events
    && r.opportunities.Keys <= r'.opportunities.Keys
    && (forall n | n in r.outbox :: n in r'.outbox && r'.outbox[n] == r.outbox[n])
    && QuotesEvolve(r.quotes, r'.quotes)
    && PaymentsEvolve(r.payments, r'.payments)
    && TrackingEvolves(r, r')
  }

  lemma EvolvesReflexive(r: Request)
    ensures Evolves(r, r)
  {
  }

  lemma EvolvesTransitive(r: Request, r': Request, r'': Request)
    requires Evolves(r, r') && Evolves(r', r'')
    requires r'.tracking.session.Some? ==> Rank(r'.status) >= 2
    requires r.tracking.session.Some? ==> Rank(r.status) >= 2
    ensures Evolves(r, r'')
  {
    assert QuotesEvolve(r.quotes, r''.quotes);
    assert PaymentsEvolve(r.payments, r''.payments);
    assert TrackingEvolves(r, r'');
  }

  lemma InvitationsEvolve(r: Request, chosen: set<ProviderId>)
    requires OutboxInv(r)
    ensures Evolves(r, AddInvitations(r, chosen))
  {
    var added := chosen - r.opportunities.Keys;
    var r' := AddInvitations(r, chosen);
    assert r'.events[..|r.events|] == r.events;
    assert forall n | n in r.outbox :: r'.outbox[n] == r.outbox[n];
  }

  lemma SettleEvolves(r: Request, winner: ProviderId)
    requires r.status.PendingDispatch? && r.assignee.None?
    ensures Evolves(r, Settle(r, winner))
  {
    var r' := Settle(r, winner);
    SettleSettles(r, winner);
    assert r'.events == SettlementEvents(r);
    assert r'.events[..|r.events|] == r.events;
    assert CloseOpen(r.opportunities).Keys == r.opportunities.Keys;
  }

  lemma PaidEvolves(r: Request, k: nat)
    requires k < |r.quotes| && r.quotes[k].status.Proposed?
    ensures Evolves(r, Paid(r, k))
  {
  }

  lemma LoggedEvolves(r: Request, kind: EventKind, status: Status)
    ensures Evolves(r, Log(r, kind, status))
  {
    assert Log(r, kind, status).events[..|r.events|] == r.events;
  }

  lemma DecideEvolves(r: Request, customer: nat, k: nat, approve: bool, providers: map<ProviderId, Provider>)
    requires Inv(r)
    ensures Evolves(r, After(r, DecideQuote(r, customer, k, approve, providers)))
  {
    hide Evolves;
    hide Settle;
    hide Paid;
    var result := DecideQuote(r, customer, k, approve, providers);
    EvolvesReflexive(r);
    if result.Committed? && approve {
      var paid, p := Paid(r, k), r.quotes[k].provider;
      PaidEvolves(r, k);
      PaidIsPaid(r, k);
      if p.Some? {
        SettleEvolves(paid, p.value);
        SettleSettles(paid, p.value);
        EvolvesTransitive(r, paid, Settle(paid, p.value));
        LoggedEvolves(Settle(paid, p.value), QuoteApproved, r.status);
        EvolvesTransitive(r, Settle(paid, p.value), result.request);
      } else {
        LoggedEvolves(paid, QuoteApproved, r.status);
        EvolvesTransitive(r, paid, result.request);
      }
    } else if result.Committed? {
      RejectEvolves(r, customer, k, providers);
    }
  }

  lemma PaidIsPaid(r: Request, k: nat)
    requires k < |r.quotes|
    ensures Paid(r, k) == r.(quotes := r.quotes[k := r.quotes[k].(status := Approved)],
                             payments := AddPayment(r.payments, k, r.quotes[k].amount))
  {
  }

  lemma RejectEvolves(r: Request, customer: nat, k: nat, providers: map<ProviderId, Provider>)
    ensures Evolves(r, After(r, DecideQuote(r, customer, k, false, providers)))
  {
    var r' := After(r, DecideQuote(r, customer, k, false, providers));
    assert r'.events[..|r.events|] == r.events;
  }

  lemma StatusEvolves(r: Request, target: Status, enabled: bool, now: int)
    requires TrackingInv(r)
    ensures Evolves(r, After(r, UpdateStatus(r, target, enabled, now)))
  {
    assert (r.events + [Event(StatusUpdated, target)])[..|r.events|] == r.events;
  }

  lemma ProviderStatusEvolves(r: Request, p: ProviderId, target: Status, providers: map<ProviderId, Provider>,
                              enabled: bool, now: int)
    requires TrackingInv(r)
    ensures Evolves(r, After(r, UpdateStatusForProvider(r, p, target, providers, enabled, now)))
  {
    assert (r.events + [Event(StatusUpdated, target)])[..|r.events|] == r.events;
  }

  lemma ProposeEvolves(r: Request, amount: int)
    ensures Evolves(r, After(r, ProposeQuote(r, amount)))
  {
    assert (r.events + [Event(QuoteProposed, r.status)])[..|r.events|] == r.events;
  }

  lemma SubmitEvolves(r: Request, p: ProviderId, amount: int)
    ensures Evolves(r, After(r, SubmitQuote(r, p, amount)))
  {
    assert (r.events + [Event(ProviderQuoteSubmitted, PendingDispatch)])[..|r.events|] == r.events;
  }

  lemma WithdrawEvolves(r: Request, k: nat, p: ProviderId)
    ensures Evolves(r, After(r, WithdrawQuote(r, k, p)))
  {
    assert (r.events + [Event(ProviderQuoteWithdrawn, PendingDispatch)])[..|r.events|] == r.events;
  }

  lemma CloseEvolves(r: Request, p: ProviderId)
    ensures Evolves(r, After(r, CloseOpportunity(r, p)))
  {
    assert (r.events + [Event(OpportunityClosed, r.status)])[..|r.events|] == r.events;
  }

  lemma SampleEvolves(r: Request, p: ProviderId, s: Tracking.Sample, distance: Option<real>, at: int, enabled: bool)
    requires TrackingInv(r)
    ensures Evolves(r, After(r, SubmitSample(r, p, s, distance, at, enabled)))
  {
  }

  lemma CashEvolves(r: Request)
    ensures Evolves(r, After(r, CollectCash(r)))
    ensures Evolves(r, After(r, RefundCash(r)))
  {
  }

  lemma StoppedEvolves(r: Request, enabled: bool, now: int)
    ensures Evolves(r, After(r, StopForOperations(r, enabled, now)))
  {
  }

  lemma InviteEvolves(r: Request, ids: set<ProviderId>, providers: map<ProviderId, Provider>)
    requires Inv(r)
    ensures Evolves(r, After(r, Invite(r, ids, providers)))
  {
    hide Evolves;
    hide AddInvitations;
    hide EligibleAmong;
    EvolvesReflexive(r);
    InvitationsEvolve(r, EligibleAmong(ids, providers, r.serviceId));
  }

  lemma AssignEvolves(r: Request, p: ProviderId, providers: map<ProviderId, Provider>)
    requires Inv(r)
    ensures Evolves(r, After(r, Assign(r, p, providers)))
  {
    hide Evolves;
    EvolvesReflexive(r);
    if r.status.PendingDispatch? {
      SettleEvolves(r, p);
    }
  }

  lemma ActEvolves(r: Request, a: Action, providers: map<ProviderId, Provider>, enabled: bool)
    requires Inv(r)
    ensures Evolves(r, After(r, Act(r, a, providers, enabled)))
  {
    hide Evolves;
    EvolvesReflexive(r);
    match a
    case DoInvite(ids) => InviteEvolves(r, ids, providers);
    case DoAssign(p) => AssignEvolves(r, p, providers);
    case DoUpdateStatus(target, now) => StatusEvolves(r, target, enabled, now);
    case DoProviderStatus(p, target, now) => ProviderStatusEvolves(r, p, target, providers, enabled, now);
    case DoPropose(amount) => ProposeEvolves(r, amount);
    case DoSubmit(p, amount) => SubmitEvolves(r, p, amount);
    case DoWithdraw(k, p) => WithdrawEvolves(r, k, p);
    case DoDecide(customer, k, approve) => DecideEvolves(r, customer, k, approve, providers);
    case DoClose(p) => CloseEvolves(r, p);
    case DoCollect => CashEvolves(r);
    case DoRefund => CashEvolves(r);
    case DoSample(p, s, distance, at) => SampleEvolves(r, p, s, distance, at, enabled);
    case DoStopTracking(now) => StoppedEvolves(r, enabled, now);
  }

  lemma PruneEvolves(r: Request, id: nat, victims: map<nat, set<int>>, rawBefore: int, evidenceBefore: int)
    ensures Evolves(r, PruneRequest(r, id, victims, rawBefore, evidenceBefore))
  {
  }

  lemma SuspendEvolves(r: Request, p: ProviderId, now: int)
    ensures Evolves(r, SuspendIn(r, p, now))
  {
  }

  lemma ApplyEvolves(db: Database, c: Command, i: nat)
    requires DatabaseInv(db) && i < |db.requests|
    ensures i < |Apply(db, c).requests| && Evolves(db.requests[i], Apply(db, c).requests[i])
  {
    hide Evolves;
    hide Inv;
    hide Act;
    var r := db.requests[i];
    EvolvesReflexive(r);
    match c {
      case DoVerify(p, _, _, now) => SuspendEvolves(r, p, now);
      case DoPrune(victims, rawBefore, evidenceBefore) => PruneEvolves(r, i, victims, rawBefore, evidenceBefore);
      case DoRequest(id, a) =>
        if id < |db.requests| {
          StoredRow(db.requests, id, Act(db.requests[id], a, db.providers, db.trackingEnabled), i);
          ActEvolves(r, a, db.providers, db.trackingEnabled);
        }
      case _ =>
    }
  }

  lemma SessionMeansMoved(r: Request)
    requires Inv(r)
    ensures r.tracking.session.Some? ==> Rank(r.status) >= 2
  {
  }

  /**
   Between any two states of any run: the assigned provider is written once, the log and the outbox
   only grow, quotes and payments keep their facts and only move forward, a session stops once and
   its reason changes at most to a terminal one.
   */
  lemma {:induction false} RunEvolves(db: Database, cs: seq<Command>, i: nat)
    requires DatabaseInv(db) && i < |db.requests|
    ensures i < |Run(db, cs).requests| && Evolves(db.requests[i], Run(db, cs).requests[i])
    decreases |cs|
  {
    hide Evolves;
    hide Inv;
    EvolvesReflexive(db.requests[i]);
    if cs != [] {
      var db' := Apply(db, cs[0]);
      ApplyEvolves(db, cs[0], i);
      ApplyKeepsInv(db, cs[0]);
      RunEvolves(db', cs[1..], i);
      SessionMeansMoved(db.requests[i]);
      SessionMeansMoved(db'.requests[i]);
      EvolvesTransitive(db.requests[i], db'.requests[i], Run(db', cs[1..]).requests[i]);
    }
  }
}
