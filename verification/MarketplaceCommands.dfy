/** Every command on the whole database: which rows it reaches, what it leaves in them, and what its caller is told. */
module MarketplaceCommands {
  import opened Domain
  import opened EventLog
  import opened Marketplace
  import opened MarketplaceInvariants
  import opened MarketplaceProofs
  import opened MarketplaceRuns
  import opened MarketplaceAnswers
  import opened MarketplaceWrites
  import Tracking

  // ---------------------------------------------------------------- transactions on one request

  predicate OnlyRequest(db: Database, db': Database, id: nat) {
    && db' == db.(requests := db'.requests)
    && |db'.requests| == |db.requests|
    && forall i | 0 <= i < |db.requests| && i != id :: db'.requests[i] == db.requests[i]
  }

  /**
   In every reachable state the caller is told "done" exactly when the request exists and meets the demands; then
   its row is written as stated, and in every other case, and every other row, nothing changes.
   */
  lemma EveryTransactionIsAnswered(db: Database, id: nat, a: Action)
    requires DatabaseInv(db)
    ensures var db' := Apply(db, DoRequest(id, a));
      && OnlyRequest(db, db', id)
      && (ReplyTo(db, id, a).Ok? <==>
            id < |db.requests| && Demands(db.requests[id], a, db.providers, db.trackingEnabled))
      && (ReplyTo(db, id, a).Ok? ==>
            Writes(db.requests[id], db'.requests[id], a, db.providers, db.trackingEnabled))
      && (ReplyTo(db, id, a).Error? ==>
            && db' == db
            && (if id < |db.requests| then
                  Fault(db.requests[id], a, db.providers, db.trackingEnabled) == Some(ReplyTo(db, id, a).why)
                else ReplyTo(db, id, a).why == FaultWithoutRequest(a, db.trackingEnabled)))
  {
    hide Act, Demands, Writes, Fault, Inv;
    if id < |db.requests| {
      assert db.requests[id] in db.requests;
      InvHasTracking(db.requests[id]);
      EveryActionAnswers(db.requests[id], a, db.providers, db.trackingEnabled);
      EveryActionWrites(db.requests[id], a, db.providers, db.trackingEnabled);
    }
  }

  lemma InvHasTracking(r: Request)
    requires Inv(r)
    ensures Tracking.Inv(r.tracking)
  {
  }

  // ---------------------------------------------------------------- creation

  /** A new request invites exactly the verified, available providers of its service. */
  lemma CreationInvites(customer: nat, serviceId: string, providers: map<ProviderId, Provider>)
    ensures var r := Create(customer, serviceId, providers);
      && (forall p :: p in r.opportunities <==>
            && p in providers && providers[p].verification == Verified && providers[p].available
            && serviceId in providers[p].specialties)
      && (forall p | p in r.opportunities :: r.opportunities[p] == Invited)
  {
    hide InvitationsTo, InsertAll, Insert, Repeat, InvitedAll;
    var eligible := EligibleOnes(providers, serviceId);
    InvitedRows(map[], eligible - NewRequest(customer, serviceId).opportunities.Keys);
    var o := Create(customer, serviceId, providers).opportunities;
    assert o.Keys == eligible;
    assert forall p :: p in o <==> p in o.Keys;
  }

  /** Its other columns: pending, unassigned, with one event and one notice each for itself and for every invitation. */
  lemma CreationStartsBlank(customer: nat, serviceId: string, providers: map<ProviderId, Provider>)
    ensures var r := Create(customer, serviceId, providers);
      && r == Request(customer, serviceId, PendingDispatch, None, r.opportunities, [], [], r.events, r.outbox,
                      1 + |r.opportunities|, Tracking.Tables(None, None, [], []))
      && r.events == [Event(RequestCreated, PendingDispatch)]
                     + Repeat(Event(OpportunityInvited, PendingDispatch), |r.opportunities|)
  {
    hide EligibleOnes, InsertAll, Insert, Repeat, InvitedAll, InvitationsTo;
    var eligible := EligibleOnes(providers, serviceId);
    assert eligible - NewRequest(customer, serviceId).opportunities.Keys == eligible;
    InvitedRows(map[], eligible);
    InvitationsCount(eligible);
    assert |Create(customer, serviceId, providers).opportunities.Keys| == |eligible|;
  }

  /** It tells its customer, best effort, and each provider it invites. */
  lemma CreationNotifies(customer: nat, serviceId: string, providers: map<ProviderId, Provider>)
    ensures var r := Create(customer, serviceId, providers);
      && (forall n :: n in r.outbox <==> n == RequestReceived || (n.Invitation? && n.provider in r.opportunities))
      && (forall n | n in r.outbox :: r.outbox[n] == if n == RequestReceived then 4 else 0)
  {
    hide EligibleOnes, Repeat, InvitedAll, InvitationsTo, InsertAll, Insert, InvitedOnly;
    var eligible := EligibleOnes(providers, serviceId);
    assert eligible - NewRequest(customer, serviceId).opportunities.Keys == eligible;
    CreatedOpportunities(customer, serviceId, providers);
    InvitationNotices(eligible);
    FirstNotices(InvitationsTo(eligible), RequestReceived, 4);
  }

  lemma CreatedOpportunities(customer: nat, serviceId: string, providers: map<ProviderId, Provider>)
    ensures forall p ::
      p in Create(customer, serviceId, providers).opportunities <==> p in EligibleOnes(providers, serviceId)
  {
    hide EligibleOnes, Repeat, InvitationsTo, InsertAll, Insert;
  }

  lemma InvitationNotices(ps: set<ProviderId>)
    ensures forall n: Notice :: n in InvitationsTo(ps) <==> n.Invitation? && n.provider in ps
  {
  }

  lemma FirstNotices(ns: set<Notice>, first: Notice, attempts: nat)
    requires first !in ns
    ensures var outbox := Insert(InsertAll(map[], ns), first, attempts);
      forall n :: n in outbox <==> n == first || n in ns
    ensures var outbox := Insert(InsertAll(map[], ns), first, attempts);
      forall n | n in outbox :: outbox[n] == if n == first then attempts else 0
  {
  }

  lemma CreationAppends(db: Database, customer: nat, serviceId: string)
    ensures Apply(db, DoCreate(customer, serviceId)) ==
            db.(requests := db.requests + [Create(customer, serviceId, db.providers)])
  {
  }

  // ---------------------------------------------------------------- provider commands

  predicate OnlyProvider(db: Database, db': Database, p: ProviderId, row: Provider) {
    db'.providers.Keys == db.providers.Keys + {p}
    && forall x | x in db'.providers :: db'.providers[x] == if x == p then row else db.providers[x]
  }

  /** A suspension or a return to pending ends the provider's live sessions, and only those. */
  predicate SessionsEnded(before: seq<Request>, after: seq<Request>, p: ProviderId, now: int) {
    && |after| == |before|
    && forall i | 0 <= i < |before| ::
         after[i] == if Followed(before[i].tracking, p) then
           before[i].(tracking := before[i].tracking.(
             position := None,
             session := Some(before[i].tracking.session.value.(
               active := false, stoppedAt := Some(now), stopReason := Some(Tracking.ProviderSuspended)))))
         else before[i]
  }

  lemma VerificationActs(db: Database, p: ProviderId, expected: Option<Verification>, v: Verification, now: int)
    ensures var db' := Apply(db, DoVerify(p, expected, v, now));
      && db'.trackingEnabled == db.trackingEnabled
      && (p in db.providers && expected in {None, Some(db.providers[p].verification)} ==>
            && OnlyProvider(db, db', p, Provider(v, v == Verified, db.providers[p].specialties))
            && (if v != Verified && db.trackingEnabled then SessionsEnded(db.requests, db'.requests, p, now)
                else db'.requests == db.requests))
      && (!(p in db.providers && expected in {None, Some(db.providers[p].verification)}) ==> db' == db)
  {
  }

  lemma AvailabilityActs(db: Database, p: ProviderId, available: bool)
    ensures var db' := Apply(db, DoSetAvailable(p, available));
      && db' == db.(providers := db'.providers)
      && (if p in db.providers && db.providers[p].verification == Verified then
            OnlyProvider(db, db', p, Provider(Verified, available, db.providers[p].specialties))
          else db' == db)
  {
  }

  lemma NewProviderActs(db: Database, p: ProviderId, specialties: set<string>)
    ensures var db' := Apply(db, DoCreateProvider(p, specialties));
      && db' == db.(providers := db'.providers)
      && (if p in db.providers then db' == db
          else OnlyProvider(db, db', p, Provider(Pending, false, specialties)))
  {
  }

  // ---------------------------------------------------------------- retention

  /** The samples that stay are exactly those not both chosen and received before the cut. */
  lemma {:induction false} KeptSamples(samples: seq<Tracking.SampleRow>, victims: set<int>, before: int)
    ensures forall row :: row in Tracking.KeepSamples(samples, victims, before) <==>
      row in samples && !(row.receivedAt < before && row.sample.capturedAt in victims)
  {
    if samples != [] {
      KeptSamples(samples[1..], victims, before);
      assert forall row :: row in samples <==> row == samples[0] || row in samples[1..];
    }
  }

  ghost predicate Retained(t: Tracking.Tables, t': Tracking.Tables, victims: set<int>, rawBefore: int,
                           evidenceBefore: int)
  {
    && (forall row :: row in t'.samples <==>
          row in t.samples && !(row.receivedAt < rawBefore && row.sample.capturedAt in victims))
    && t'.position == t.position
    && (if t.session.Some? && !t.session.value.active && t.session.value.stoppedAt.Some?
           && t.session.value.stoppedAt.value < evidenceBefore && t'.samples == []
        then t'.session == None && t'.history == []
        else t'.session == t.session && t'.history == t.history)
  }

  /** Retention reaches the chosen requests only, and of them only old raw samples and sessions long stopped. */
  lemma RetentionActs(db: Database, victims: map<nat, set<int>>, rawBefore: int, evidenceBefore: int)
    ensures var db' := Apply(db, DoPrune(victims, rawBefore, evidenceBefore));
      && db' == db.(requests := db'.requests) && |db'.requests| == |db.requests|
      && forall i: nat | i < |db.requests| ::
           && db'.requests[i] == db.requests[i].(tracking := db'.requests[i].tracking)
           && if i in victims then
                Retained(db.requests[i].tracking, db'.requests[i].tracking, victims[i], rawBefore, evidenceBefore)
              else db'.requests[i] == db.requests[i]
  {
    forall i: nat | i < |db.requests| && i in victims {
      KeptSamples(db.requests[i].tracking.samples, victims[i], rawBefore);
    }
  }
}
