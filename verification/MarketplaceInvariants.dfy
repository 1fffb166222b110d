/** What holds of the rows of one request in every reachable state, table by table. */
module MarketplaceInvariants {
  import opened Domain
  import opened EventLog
  import opened Marketplace
  import Tracking

  // ---------------------------------------------------------------- the quote tables

  /** A provider quotes one request at most once, ever: rows are never deleted. */
  ghost predicate OneQuoteEver(r: Request) {
    forall i, j | 0 <= i < j < |r.quotes| && r.quotes[i].provider.Some? ::
      r.quotes[i].provider != r.quotes[j].provider
  }

  ghost predicate QuoteMatchesOpportunity(q: Quote, o: map<ProviderId, OpportunityStatus>) {
    q.provider.Some? ==>
      && q.provider.value in o
      && !o[q.provider.value].Invited?
      && (q.status.Proposed? ==> o[q.provider.value].Quoted? || o[q.provider.value].Closed?)
  }

  ghost predicate HasProposed(quotes: seq<Quote>, p: ProviderId) {
    exists i | 0 <= i < |quotes| :: quotes[i].provider == Some(p) && quotes[i].status.Proposed?
  }

  ghost predicate OpportunitiesMatch(r: Request) {
    && (forall i | 0 <= i < |r.quotes| :: QuoteMatchesOpportunity(r.quotes[i], r.opportunities))
    && (forall p | p in r.opportunities && r.opportunities[p].Quoted? :: HasProposed(r.quotes, p))
  }

  /** Staff and provider quotes never occur on one request, not even at different times. */
  ghost predicate OneKindOfQuote(r: Request) {
    forall i, j | 0 <= i < |r.quotes| && 0 <= j < |r.quotes| :: r.quotes[i].provider.None? ==>
      r.quotes[j].provider.None?
  }

  ghost predicate OneStaffStanding(r: Request) {
    forall i, j | 0 <= i < j < |r.quotes| ::
      !(r.quotes[i].provider.None? && r.quotes[j].provider.None? && Standing(r.quotes[i]) && Standing(r.quotes[j]))
  }

  ghost predicate OneWinner(r: Request) {
    && (forall i, j | 0 <= i < j < |r.quotes| :: !(r.quotes[i].status.Approved? && r.quotes[j].status.Approved?))
    && (forall i | 0 <= i < |r.quotes| && r.quotes[i].provider.Some? ::
          && (r.quotes[i].status.Approved? ==> r.assignee == r.quotes[i].provider)
          && (r.quotes[i].status.Proposed? ==> r.assignee.None?))
  }

  ghost predicate StatusMatches(r: Request) {
    && (r.status.PendingDispatch? ==> r.assignee.None? && forall i | 0 <= i < |r.quotes| :: r.quotes[i].provider.Some?)
    && (r.status.PendingDispatch? || r.status.Cancelled? || r.assignee.Some?)
  }

  /** Once service runs, staff quotes are settled: none at all, or one approved and none proposed. */
  ghost predicate StaffSettled(r: Request) {
    (r.status.InProgress? || r.status.Completed?) ==>
      || (forall i | 0 <= i < |r.quotes| :: r.quotes[i].provider.Some?)
      || (&& (forall i | 0 <= i < |r.quotes| :: r.quotes[i].provider.None? && !r.quotes[i].status.Proposed?)
          && exists i | 0 <= i < |r.quotes| :: r.quotes[i].status.Approved?)
  }

  ghost predicate QuoteInv(r: Request) {
    && OneQuoteEver(r)
    && OpportunitiesMatch(r)
    && OneKindOfQuote(r)
    && OneStaffStanding(r)
    && OneWinner(r)
    && StatusMatches(r)
    && StaffSettled(r)
  }

  // ---------------------------------------------------------------- payments

  ghost predicate PaymentInv(r: Request) {
    && (forall m | 0 <= m < |r.payments| ::
          var pay := r.payments[m];
          && pay.quote < |r.quotes| && r.quotes[pay.quote].status.Approved?
          && pay.amount == r.quotes[pay.quote].amount
          && (!pay.status.CashDue? ==> r.status.Completed?))
    && (forall i | 0 <= i < |r.quotes| && r.quotes[i].status.Approved? :: HasPayment(r.payments, i))
    && (forall m, n | 0 <= m < n < |r.payments| :: r.payments[m].quote != r.payments[n].quote)
  }

  // ---------------------------------------------------------------- the event log

  function ClosedOnes(o: map<ProviderId, OpportunityStatus>): set<ProviderId> {
    set p | p in o && o[p].Closed?
  }

  ghost predicate LogInv(r: Request) {
    && Replay(r.events) == r.status
    && Count(r.events, OpportunityInvited) == |r.opportunities|
    && Count(r.events, ProviderQuoteSubmitted) == CountQuotes(r.quotes, FromProvider)
    && Count(r.events, QuoteProposed) == CountQuotes(r.quotes, FromStaff)
    && Count(r.events, QuoteApproved) == CountQuotes(r.quotes, HasStatus(Approved))
    && Count(r.events, QuoteRejected) == CountQuotes(r.quotes, HasStatus(Rejected))
    && Count(r.events, ProviderQuoteWithdrawn) == CountQuotes(r.quotes, HasStatus(Withdrawn))
    && Count(r.events, OpportunityClosed) >= |ClosedOnes(r.opportunities)|
  }

  // ---------------------------------------------------------------- the outbox

  function Rank(s: Status): nat {
    match s
    case PendingDispatch => 0
    case Assigned => 1
    case OnTheWay => 2
    case InProgress => 3
    case Completed => 4
    case Cancelled => 5
  }

  /** Which notices a request in this state has sent: exactly those its rows account for. */
  ghost predicate Accounted(n: Notice, r: Request) {
    match n
    case RequestReceived => n in r.outbox
    case Invitation(p) => n in r.outbox <==> p in r.opportunities
    case QuoteReceived(k) => n in r.outbox <==> k < |r.quotes|
    case AssignedProvider(p) => n in r.outbox <==> r.assignee == Some(p)
    case AssignmentConfirmed => n in r.outbox <==> r.assignee.Some?
    case LostOpportunity(p) =>
      n in r.outbox ==> r.assignee.Some? && r.assignee != Some(p) && p in r.opportunities && r.opportunities[p].Closed?
    case StatusChanged(s) => n in r.outbox <==> Event(StatusUpdated, s) in r.events
  }

  ghost predicate EnteredInOrder(r: Request) {
    forall s :: Event(StatusUpdated, s) in r.events ==> 2 <= Rank(s) <= Rank(r.status)
  }

  /** No writer call ever met an existing dedupe key: there are as many rows as calls. */
  ghost predicate OutboxInv(r: Request) {
    && |r.outbox| == r.announced
    && (forall n: Notice :: Accounted(n, r))
    && EnteredInOrder(r)
  }

  // ---------------------------------------------------------------- tracking

  ghost predicate TrackingInv(r: Request) {
    && Tracking.Inv(r.tracking)
    && (r.tracking.session.Some? ==>
          && r.assignee == Some(r.tracking.session.value.provider)
          && !r.status.PendingDispatch? && !r.status.Assigned?)
    && (Tracking.Active(r.tracking) ==> r.status.OnTheWay? || r.status.InProgress?)
  }

  ghost predicate Inv(r: Request) {
    QuoteInv(r) && PaymentInv(r) && LogInv(r) && OutboxInv(r) && TrackingInv(r)
  }

  // ---------------------------------------------------------------- counting quotes

  lemma CountAppended(quotes: seq<Quote>, q: Quote)
    ensures forall f :: CountQuotes(quotes + [q], f) == CountQuotes(quotes, f) + if Passes(q, f) then 1 else 0
  {
    assert (quotes + [q])[..|quotes|] == quotes;
  }

  lemma {:induction false} CountUpdated(quotes: seq<Quote>, k: nat, q: Quote)
    requires k < |quotes|
    ensures forall f :: CountQuotes(quotes[k := q], f) + (if Passes(quotes[k], f) then 1 else 0)
                        == CountQuotes(quotes, f) + (if Passes(q, f) then 1 else 0)
  {
    var front := quotes[..|quotes| - 1];
    if k == |quotes| - 1 {
      assert quotes[k := q] == front + [q];
      CountAppended(front, q);
    } else {
      CountUpdated(front, k, q);
      assert quotes[k := q][..|quotes| - 1] == front[k := q];
    }
  }

  /** How rejecting every proposed provider quote moves a count. */
  function ProposalsMoved(quotes: seq<Quote>, f: QuoteFilter): int {
    match f
    case HasStatus(Rejected) => CountQuotes(quotes, FromProviderProposed)
    case HasStatus(Proposed) => 0 - CountQuotes(quotes, FromProviderProposed)
    case FromProviderProposed => 0 - CountQuotes(quotes, FromProviderProposed)
    case _ => 0
  }

  lemma {:induction false} CountAfterRejection(quotes: seq<Quote>)
    ensures forall f :: CountQuotes(RejectProposed(quotes), f) == CountQuotes(quotes, f) + ProposalsMoved(quotes, f)
  {
    if quotes != [] {
      var front := quotes[..|quotes| - 1];
      CountAfterRejection(front);
      assert RejectProposed(quotes)[..|quotes| - 1] == RejectProposed(front);
    }
  }

  lemma {:induction false} CountZero(quotes: seq<Quote>, f: QuoteFilter)
    ensures CountQuotes(quotes, f) == 0 <==> forall i | 0 <= i < |quotes| :: !Passes(quotes[i], f)
  {
    if quotes != [] {
      CountZero(quotes[..|quotes| - 1], f);
    }
  }
}
