/**
 The rows of the service-request tables and the transactions that change them.

 Every child row carries its request's id, so the rows of one request are grouped in one
 `Request` value: that is what a transaction holds once it has locked the request row.  A quote
 is named by its request and its position in insertion order, an opportunity by its provider
 (the pair is unique), an outbox row by its dedupe key.  `announced` is a history variable that
 counts calls of the outbox writer; the table itself is `outbox`.
 */
module Marketplace {
  import opened Domain
  import opened EventLog
  import Tracking

  datatype Verification = Pending | Verified | Suspended
  datatype Provider = Provider(verification: Verification, available: bool, specialties: set<string>)

  datatype QuoteStatus = Proposed | Approved | Rejected | Withdrawn
  /** A staff quote has no provider. */
  datatype Quote = Quote(provider: Option<ProviderId>, amount: int, status: QuoteStatus)

  datatype OpportunityStatus = Invited | Quoted | Retracted | Closed | Declined

  datatype PaymentStatus = CashDue | CashCollected | Refunded
  datatype Payment = Payment(quote: nat, amount: int, status: PaymentStatus)

  /** What one notification tells whom; with the request it determines the dedupe key. */
  datatype Notice =
    | RequestReceived
    | Invitation(provider: ProviderId)
    | QuoteReceived(quote: nat)
    | AssignedProvider(provider: ProviderId)
    | AssignmentConfirmed
    | LostOpportunity(provider: ProviderId)
    | StatusChanged(status: Status)

  const MAX_DELIVERY_ATTEMPTS := 5

  datatype Request = Request(
    customer: nat,
    serviceId: string,
    status: Status,
    assignee: Option<ProviderId>,
    opportunities: map<ProviderId, OpportunityStatus>,
    quotes: seq<Quote>,
    payments: seq<Payment>,
    events: seq<Event>,
    outbox: map<Notice, nat>,
    announced: nat,
    tracking: Tracking.Tables)

  datatype Refusal =
    | NotFound
    | InvalidTransition
    | UnsupportedStatus
    | ProviderActionRequired
    | QuoteApprovalRequired
    | NotEligibleForTracking
    | TrackingNotStarted
    | NotPendingDispatch
    | ProviderNotAvailable
    | ActiveQuoteExists
    | MarketplaceFlow
    | OpportunityNotOpen
    | OwnQuoteExists
    | QuoteNotPending
    | NoPayment
    | NotDue
    | NotCompleted
    | NotCollected
    | TrackingDisabled
    | NotTracked
    | SamplePredates
    | SampleConflicts
    | SampleOutOfOrder
    | AlreadyExists
    | InvalidBatchSize
    | EmptyInvitation
    | Unchanged

  /** Rolled back with an error, or committed with these rows. */
  datatype Result = Refused(why: Refusal) | Committed(request: Request)

  // ---------------------------------------------------------------- row updates

  predicate Open(s: OpportunityStatus) {
    s.Invited? || s.Quoted?
  }

  predicate Standing(q: Quote) {
    q.status.Proposed? || q.status.Approved?
  }

  predicate ProposedByProvider(q: Quote) {
    q.provider.Some? && q.status.Proposed?
  }

  function OpenOnes(o: map<ProviderId, OpportunityStatus>): set<ProviderId> {
    set p | p in o && Open(o[p])
  }

  function CloseOpen(o: map<ProviderId, OpportunityStatus>): map<ProviderId, OpportunityStatus> {
    map p | p in o :: if Open(o[p]) then Closed else o[p]
  }

  function RejectedIfProposed(q: Quote): Quote {
    if ProposedByProvider(q) then q.(status := Rejected) else q
  }

  function RejectProposed(quotes: seq<Quote>): seq<Quote> {
    seq(|quotes|, i requires 0 <= i < |quotes| => RejectedIfProposed(quotes[i]))
  }

  datatype QuoteFilter = HasStatus(status: QuoteStatus) | FromProvider | FromStaff | FromProviderProposed

  predicate Passes(q: Quote, f: QuoteFilter) {
    match f
    case HasStatus(s) => q.status == s
    case FromProvider => q.provider.Some?
    case FromStaff => q.provider.None?
    case FromProviderProposed => ProposedByProvider(q)
  }

  function CountQuotes(quotes: seq<Quote>, f: QuoteFilter): nat {
    if quotes == [] then 0
    else CountQuotes(quotes[..|quotes| - 1], f) + if Passes(quotes[|quotes| - 1], f) then 1 else 0
  }

  predicate AnyStanding(quotes: seq<Quote>) {
    exists i | 0 <= i < |quotes| :: Standing(quotes[i])
  }

  predicate Eligible(p: ProviderId, providers: map<ProviderId, Provider>, serviceId: string) {
    && p in providers
    && providers[p].verification.Verified?
    && providers[p].available
    && serviceId in providers[p].specialties
  }

  /** The dedupe key is unique and a conflicting insert does nothing. */
  function Insert(outbox: map<Notice, nat>, n: Notice, attempts: nat): map<Notice, nat> {
    if n in outbox then outbox else outbox[n := attempts]
  }

  function InsertAll(outbox: map<Notice, nat>, ns: set<Notice>): map<Notice, nat> {
    (map n | n in ns :: 0) + outbox
  }

  function Announce(r: Request, n: Notice, attempts: nat): Request {
    r.(announced := r.announced + 1, outbox := Insert(r.outbox, n, attempts))
  }

  function AnnounceAll(r: Request, ns: set<Notice>): Request {
    r.(announced := r.announced + |ns|, outbox := InsertAll(r.outbox, ns))
  }

  function Log(r: Request, kind: EventKind, status: Status): Request {
    r.(events := r.events + [Event(kind, status)])
  }

  function LogMany(r: Request, kind: EventKind, status: Status, n: nat): Request {
    r.(events := r.events + Repeat(Event(kind, status), n))
  }

  function Losers(open: set<ProviderId>, winner: ProviderId): set<Notice> {
    set p | p in open && p != winner :: LostOpportunity(p)
  }

  function InvitationsTo(ps: set<ProviderId>): set<Notice> {
    set p | p in ps :: Invitation(p)
  }

  // ---------------------------------------------------------------- the transactions

  function InvitedAll(ps: set<ProviderId>): map<ProviderId, OpportunityStatus> {
    map p | p in ps :: Invited
  }

  /** One invited opportunity, event and notice for each of these providers. */
  function InviteNew(r: Request, added: set<ProviderId>): Request {
    r.(opportunities := r.opportunities + InvitedAll(added),
       events := r.events + Repeat(Event(OpportunityInvited, r.status), |added|),
       outbox := InsertAll(r.outbox, InvitationsTo(added)),
       announced := r.announced + |InvitationsTo(added)|)
  }

  /** The unique pair of request and provider lets an existing opportunity be. */
  function AddInvitations(r: Request, chosen: set<ProviderId>): Request {
    InviteNew(r, chosen - r.opportunities.Keys)
  }

  function EligibleOnes(providers: map<ProviderId, Provider>, serviceId: string): set<ProviderId> {
    set p | p in providers && Eligible(p, providers, serviceId)
  }

  function NewRequest(customer: nat, serviceId: string): Request {
    Request(customer, serviceId, PendingDispatch, None, map[], [], [],
            [Event(RequestCreated, PendingDispatch)], map[], 0, Tracking.EMPTY)
  }

  function EligibleAmong(ids: set<ProviderId>, providers: map<ProviderId, Provider>,
                         serviceId: string): set<ProviderId> {
    set p | p in ids && Eligible(p, providers, serviceId)
  }

  function Create(customer: nat, serviceId: string, providers: map<ProviderId, Provider>): Request {
    Announce(AddInvitations(NewRequest(customer, serviceId), EligibleOnes(providers, serviceId)),
             RequestReceived, MAX_DELIVERY_ATTEMPTS - 1)
  }

  function Invite(r: Request, ids: set<ProviderId>, providers: map<ProviderId, Provider>): Result {
    if ids == {} then Refused(EmptyInvitation)
    else if r.status.Completed? || r.status.Cancelled? then Refused(InvalidTransition)
    else if AnyStanding(r.quotes) then Refused(ActiveQuoteExists)
    else Committed(AddInvitations(r, EligibleAmong(ids, providers, r.serviceId)))
  }

  /** What manual assignment and quote approval do once the winner is known. */
  function Settle(r: Request, winner: ProviderId): Request {
    var open := OpenOnes(r.opportunities);
    var r := LogMany(r.(quotes := RejectProposed(r.quotes)), QuoteRejected, Assigned,
                     CountQuotes(r.quotes, FromProviderProposed));
    var r := LogMany(r.(opportunities := CloseOpen(r.opportunities)), OpportunityClosed, Assigned, |open|);
    var r := Log(r.(assignee := Some(winner), status := Assigned), ProviderAssigned, Assigned);
    var r := Announce(r, AssignedProvider(winner), 0);
    var r := Announce(r, AssignmentConfirmed, 0);
    AnnounceAll(r, Losers(open, winner))
  }

  function Assign(r: Request, p: ProviderId, providers: map<ProviderId, Provider>): Result {
    if !r.status.PendingDispatch? then Refused(NotPendingDispatch)
    else if !Eligible(p, providers, r.serviceId) then Refused(ProviderNotAvailable)
    else Committed(Settle(r, p))
  }

  /** Only staff quotes can hold service back. */
  predicate ServiceMayStart(quotes: seq<Quote>) {
    || CountQuotes(quotes, FromStaff) == 0
    || exists i | 0 <= i < |quotes| :: quotes[i].provider.None? && quotes[i].status.Approved?
  }

  predicate Precedes(before: Status, target: Status) {
    match target
    case OnTheWay => before.Assigned?
    case InProgress => before.OnTheWay?
    case Completed => before.InProgress?
    case Cancelled => before.PendingDispatch? || before.Assigned? || before.OnTheWay?
    case _ => false
  }

  function Enter(r: Request, target: Status): Request {
    Log(r.(status := target), StatusUpdated, target)
  }

  function UpdateStatus(r: Request, target: Status, trackingEnabled: bool, now: int): Result {
    if target.PendingDispatch? || target.Assigned? then Refused(UnsupportedStatus)
    else if !Precedes(r.status, target) then Refused(InvalidTransition)
    else if target.OnTheWay? && trackingEnabled then Refused(ProviderActionRequired)
    else if target.InProgress? && !ServiceMayStart(r.quotes) then Refused(QuoteApprovalRequired)
    else
      var r := Enter(r, target);
      var r := if target.Completed? then r.(tracking := Tracking.Stop(r.tracking, Tracking.ByCompletion, now))
               else if target.Cancelled? then r.(tracking := Tracking.Stop(r.tracking, Tracking.ByCancellation, now))
               else r;
      Committed(Announce(r, StatusChanged(target), 0))
  }

  function UpdateStatusForProvider(r: Request, p: ProviderId, target: Status,
                                   providers: map<ProviderId, Provider>, trackingEnabled: bool, now: int): Result
  {
    if !(target.OnTheWay? || target.InProgress? || target.Completed?) then Refused(UnsupportedStatus)
    else if r.assignee != Some(p) then Refused(NotFound)
    else if !Precedes(r.status, target) then Refused(InvalidTransition)
    else if target.OnTheWay? && trackingEnabled
            && !(p in providers && providers[p].verification.Verified? && providers[p].available) then
      Refused(NotEligibleForTracking)
    else if target.InProgress? && !ServiceMayStart(r.quotes) then Refused(QuoteApprovalRequired)
    else
      var r := Enter(r, target);
      if target.OnTheWay? && trackingEnabled then
        var started := Tracking.Start(r.tracking, p, now);
        if started.None? then Refused(TrackingNotStarted)
        else Committed(Announce(r.(tracking := started.value), StatusChanged(target), 0))
      else
        var r := if target.Completed? then r.(tracking := Tracking.Stop(r.tracking, Tracking.ByCompletion, now)) else r;
        Committed(Announce(r, StatusChanged(target), 0))
  }

  function ProposeQuote(r: Request, amount: int): Result {
    if !(r.status.Assigned? || r.status.OnTheWay?) then Refused(InvalidTransition)
    else if AnyStanding(r.quotes) then Refused(ActiveQuoteExists)
    else if r.opportunities != map[] then Refused(MarketplaceFlow)
    else
      var k := |r.quotes|;
      Committed(Announce(Log(r.(quotes := r.quotes + [Quote(None, amount, Proposed)]), QuoteProposed, r.status),
                         QuoteReceived(k), 0))
  }

  predicate OwnStanding(quotes: seq<Quote>, p: ProviderId) {
    exists i | 0 <= i < |quotes| :: quotes[i].provider == Some(p) && Standing(quotes[i])
  }

  predicate StaffStanding(quotes: seq<Quote>) {
    exists i | 0 <= i < |quotes| :: quotes[i].provider.None? && Standing(quotes[i])
  }

  function SubmitQuote(r: Request, p: ProviderId, amount: int): Result {
    if !r.status.PendingDispatch? then Refused(NotPendingDispatch)
    else if p !in r.opportunities || !Open(r.opportunities[p]) then Refused(OpportunityNotOpen)
    else if StaffStanding(r.quotes) then Refused(MarketplaceFlow)
    else if OwnStanding(r.quotes, p) then Refused(OwnQuoteExists)
    else
      var k := |r.quotes|;
      Committed(Announce(Log(r.(quotes := r.quotes + [Quote(Some(p), amount, Proposed)],
                                opportunities := r.opportunities[p := Quoted]),
                             ProviderQuoteSubmitted, PendingDispatch),
                         QuoteReceived(k), 0))
  }

  function WithdrawQuote(r: Request, k: nat, p: ProviderId): Result {
    if k >= |r.quotes| || r.quotes[k].provider != Some(p) || !r.quotes[k].status.Proposed? then Refused(QuoteNotPending)
    else
      Committed(Log(r.(quotes := r.quotes[k := r.quotes[k].(status := Withdrawn)],
                       opportunities := if p in r.opportunities then
                         r.opportunities[p := Retracted] else r.opportunities),
                    ProviderQuoteWithdrawn, PendingDispatch))
  }

  predicate HasPayment(payments: seq<Payment>, k: nat) {
    exists m | 0 <= m < |payments| :: payments[m].quote == k
  }

  function AddPayment(payments: seq<Payment>, k: nat, amount: int): seq<Payment> {
    if HasPayment(payments, k) then payments else payments + [Payment(k, amount, CashDue)]
  }

  function DecideQuote(r: Request, customer: nat, k: nat, approve: bool, providers: map<ProviderId, Provider>): Result {
    var found := k < |r.quotes| && r.customer == customer;
    if found && approve && r.quotes[k].provider.Some? && !r.status.PendingDispatch? then Refused(NotPendingDispatch)
    else if !found || !r.quotes[k].status.Proposed? then Refused(QuoteNotPending)
    else
      var p := r.quotes[k].provider;
      if p.Some? && !(p.value in providers && providers[p.value].verification.Verified?
        && providers[p.value].available) then
        Refused(ProviderNotAvailable)
      else if !approve then
        Committed(Log(r.(quotes := r.quotes[k := r.quotes[k].(status := Rejected)],
                         opportunities := if p.Some? && p.value in r.opportunities && r.opportunities[p.value].Quoted?
                                          then r.opportunities[p.value := Declined] else r.opportunities),
                      QuoteRejected, r.status))
      else
        var paid := r.(quotes := r.quotes[k := r.quotes[k].(status := Approved)],
                       payments := AddPayment(r.payments, k, r.quotes[k].amount));
        Committed(Log(if p.Some? then Settle(paid, p.value) else paid, QuoteApproved, r.status))
  }

  function CloseOpportunity(r: Request, p: ProviderId): Result {
    if p in r.opportunities && Open(r.opportunities[p]) then
      Committed(Log(r.(opportunities := r.opportunities[p := Closed]), OpportunityClosed, r.status))
    else Refused(Unchanged)
  }

  function CollectCash(r: Request): Result {
    if r.payments == [] then Refused(NoPayment)
    else if !r.payments[0].status.CashDue? then Refused(NotDue)
    else if !r.status.Completed? then Refused(NotCompleted)
    else Committed(r.(payments := r.payments[0 := r.payments[0].(status := CashCollected)]))
  }

  function RefundCash(r: Request): Result {
    if r.payments == [] then Refused(NoPayment)
    else if !r.payments[0].status.CashCollected? then Refused(NotCollected)
    else Committed(r.(payments := r.payments[0 := r.payments[0].(status := Refunded)]))
  }

  function SubmitSample(r: Request, p: ProviderId, s: Tracking.Sample, distance: Option<real>,
                        receivedAt: int, trackingEnabled: bool): Result
  {
    if !trackingEnabled then Refused(TrackingDisabled)
    else if r.assignee != Some(p) || !(r.status.OnTheWay? || r.status.InProgress?) then Refused(NotFound)
    else
      match Tracking.Judge(r.tracking, p, s)
      case Accepted => Committed(r.(tracking := Tracking.Submit(r.tracking, p, s, distance, receivedAt)))
      case Duplicate => Refused(Unchanged)
      case NotActive => Refused(NotTracked)
      case Predates => Refused(SamplePredates)
      case Conflict => Refused(SampleConflicts)
      case OutOfOrder => Refused(SampleOutOfOrder)
  }

  function StopForOperations(r: Request, trackingEnabled: bool, now: int): Result {
    if !trackingEnabled then Refused(TrackingDisabled)
    else Committed(r.(tracking := Tracking.Stop(r.tracking, Tracking.OperationsEmergency, now)))
  }

  // ---------------------------------------------------------------- the database and its commands

  datatype Database = Database(
    trackingEnabled: bool,
    providers: map<ProviderId, Provider>,
    requests: seq<Request>)

  datatype Command =
    | DoCreateProvider(p: ProviderId, specialties: set<string>)
    | DoVerify(p: ProviderId, expected: Option<Verification>, verification: Verification, now: int)
    | DoSetAvailable(p: ProviderId, available: bool)
    | DoCreate(customer: nat, serviceId: string)
    | DoPrune(victims: map<nat, set<int>>, rawBefore: int, evidenceBefore: int)
    | DoRequest(id: nat, action: Action)

  /** The transactions that lock exactly one request row. */
  datatype Action =
    | DoInvite(ids: set<ProviderId>)
    | DoAssign(p: ProviderId)
    | DoUpdateStatus(target: Status, now: int)
    | DoProviderStatus(p: ProviderId, target: Status, now: int)
    | DoPropose(amount: int)
    | DoSubmit(p: ProviderId, amount: int)
    | DoWithdraw(quote: nat, p: ProviderId)
    | DoDecide(customer: nat, quote: nat, approve: bool)
    | DoClose(p: ProviderId)
    | DoCollect
    | DoRefund
    | DoSample(p: ProviderId, sample: Tracking.Sample, distance: Option<real>, receivedAt: int)
    | DoStopTracking(now: int)

  function Act(r: Request, a: Action, providers: map<ProviderId, Provider>, trackingEnabled: bool): Result {
    match a
    case DoInvite(ids) => Invite(r, ids, providers)
    case DoAssign(p) => Assign(r, p, providers)
    case DoUpdateStatus(target, now) => UpdateStatus(r, target, trackingEnabled, now)
    case DoProviderStatus(p, target, now) => UpdateStatusForProvider(r, p, target, providers, trackingEnabled, now)
    case DoPropose(amount) => ProposeQuote(r, amount)
    case DoSubmit(p, amount) => SubmitQuote(r, p, amount)
    case DoWithdraw(k, p) => WithdrawQuote(r, k, p)
    case DoDecide(customer, k, approve) => DecideQuote(r, customer, k, approve, providers)
    case DoClose(p) => CloseOpportunity(r, p)
    case DoCollect => CollectCash(r)
    case DoRefund => RefundCash(r)
    case DoSample(p, s, distance, at) => SubmitSample(r, p, s, distance, at, trackingEnabled)
    case DoStopTracking(now) => StopForOperations(r, trackingEnabled, now)
  }

  function After(r: Request, result: Result): Request {
    if result.Committed? then result.request else r
  }

  function Stored(requests: seq<Request>, id: nat, result: Result): seq<Request>
    requires id < |requests|
  {
    if result.Committed? then requests[id := result.request] else requests
  }

  function SuspendIn(r: Request, p: ProviderId, now: int): Request {
    r.(tracking := Tracking.Suspend(r.tracking, p, now))
  }

  function SuspendEverywhere(requests: seq<Request>, p: ProviderId, now: int): seq<Request> {
    seq(|requests|, i requires 0 <= i < |requests| => SuspendIn(requests[i], p, now))
  }

  function PruneRequest(r: Request, id: nat, victims: map<nat, set<int>>, rawBefore: int,
                        evidenceBefore: int): Request {
    if id in victims then
      r.(tracking := Tracking.Prune(r.tracking, victims[id], rawBefore, evidenceBefore, true)) else r
  }

  function PruneEverywhere(requests: seq<Request>, victims: map<nat, set<int>>, rawBefore: int,
                           evidenceBefore: int): seq<Request> {
    seq(|requests|, i requires 0 <= i < |requests| => PruneRequest(requests[i], i, victims, rawBefore, evidenceBefore))
  }

  function Apply(db: Database, c: Command): Database {
    match c
    case DoCreateProvider(p, specialties) =>
      if p in db.providers then db
      else db.(providers := db.providers[p := Provider(Pending, false, specialties)])
    case DoVerify(p, expected, v, now) =>
      if p !in db.providers || (expected.Some? && expected.value != db.providers[p].verification) then db
      else
        var db' := db.(providers := db.providers[p := db.providers[p].(verification := v, available := v.Verified?)]);
        if !v.Verified? && db.trackingEnabled then db'.(requests := SuspendEverywhere(db.requests, p, now)) else db'
    case DoSetAvailable(p, available) =>
      if p in db.providers && db.providers[p].verification.Verified? then
        db.(providers := db.providers[p := db.providers[p].(available := available)])
      else db
    case DoCreate(customer, serviceId) =>
      db.(requests := db.requests + [Create(customer, serviceId, db.providers)])
    case DoPrune(victims, rawBefore, evidenceBefore) =>
      db.(requests := PruneEverywhere(db.requests, victims, rawBefore, evidenceBefore))
    case DoRequest(id, a) =>
      if id < |db.requests| then
        db.(requests := Stored(db.requests, id, Act(db.requests[id], a, db.providers, db.trackingEnabled)))
      else db
  }

  datatype Reply = Ok | Error(why: Refusal)

  /** The refusal when no row has this id: whatever the first check that needs the row says. */
  function MissingRequest(a: Action, trackingEnabled: bool): Refusal {
    match a
    case DoInvite(ids) => if ids == {} then EmptyInvitation else InvalidTransition
    case DoUpdateStatus(target, _) =>
      if target.PendingDispatch? || target.Assigned? then UnsupportedStatus else InvalidTransition
    case DoProviderStatus(_, target, _) =>
      if target.OnTheWay? || target.InProgress? || target.Completed? then NotFound else UnsupportedStatus
    case DoPropose(_) => InvalidTransition
    case DoWithdraw(_, _) => QuoteNotPending
    case DoDecide(_, _, _) => QuoteNotPending
    case DoCollect => NoPayment
    case DoRefund => NoPayment
    case DoSample(_, _, _, _) => if trackingEnabled then NotFound else TrackingDisabled
    case DoStopTracking(_) => if trackingEnabled then NotFound else TrackingDisabled
    case _ => NotFound
  }

  /** What the caller of a transaction on one request is told. */
  function ReplyTo(db: Database, id: nat, a: Action): Reply {
    if id >= |db.requests| then Error(MissingRequest(a, db.trackingEnabled))
    else
      match Act(db.requests[id], a, db.providers, db.trackingEnabled)
      case Refused(why) => Error(why)
      case Committed(_) => Ok
  }

  function Run(db: Database, cs: seq<Command>): Database
    decreases |cs|
  {
    if cs == [] then db else Run(Apply(db, cs[0]), cs[1..])
  }

  function Fresh(trackingEnabled: bool): Database {
    Database(trackingEnabled, map[], [])
  }
}
