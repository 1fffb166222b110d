/**
 The tracking rows of one service request: its session, its current position and its
 location samples.  Times are milliseconds.  `history` is a history variable: every sample
 accepted in the current session, kept even after retention pruned the raw row.
 */
module Tracking {
  import opened Domain

  const ARRIVAL_DISTANCE_METERS := 100.0
  const ARRIVAL_MAXIMUM_ACCURACY_METERS := 50.0
  const ARRIVAL_REQUIRED_SAMPLE_COUNT := 3
  const ARRIVAL_REQUIRED_SPAN_MILLISECONDS := 30_000

  datatype Point = Point(latitude: real, longitude: real)
  datatype Sample = Sample(point: Point, accuracy: real, capturedAt: int)
  datatype SampleRow = SampleRow(sample: Sample, receivedAt: int, qualifying: bool)

  datatype StopReason = ByCompletion | ByCancellation | ProviderSuspended | OperationsEmergency

  datatype Evidence = Evidence(count: nat, first: Option<int>, last: Option<int>)

  datatype Session = Session(provider: ProviderId, active: bool, startedAt: int,
                             stoppedAt: Option<int>, stopReason: Option<StopReason>,
                             evidence: Evidence, arrivalObservedAt: Option<int>)

  datatype Tables = Tables(session: Option<Session>, position: Option<SampleRow>,
                           samples: seq<SampleRow>, history: seq<SampleRow>)

  datatype Verdict =
    | Accepted
    | Duplicate
    | NotActive
    | Predates
    | Conflict
    | OutOfOrder

  const NO_EVIDENCE := Evidence(0, None, None)
  const EMPTY := Tables(None, None, [], [])

  // ---------------------------------------------------------------- the transactions

  function Qualifies(distance: Option<real>, accuracy: real): bool {
    && distance.Some?
    && distance.value <= ARRIVAL_DISTANCE_METERS
    && accuracy <= ARRIVAL_MAXIMUM_ACCURACY_METERS
  }

  function EvaluateObservedArrival(e: Evidence): bool {
    && e.count >= ARRIVAL_REQUIRED_SAMPLE_COUNT
    && e.first.Some?
    && e.last.Some?
    && e.last.value - e.first.value >= ARRIVAL_REQUIRED_SPAN_MILLISECONDS
  }

  predicate Active(t: Tables) {
    t.session.Some? && t.session.value.active
  }

  /** Insert-or-keep the session row, then demand that it is this provider's and active. */
  function Start(t: Tables, p: ProviderId, now: int): Option<Tables> {
    var t' := if t.session.Some? then t
              else Tables(Some(Session(p, true, now, None, None, NO_EVIDENCE, None)), t.position, t.samples, []);
    if t'.session.value.provider == p && t'.session.value.active then Some(t') else None
  }

  predicate Terminal(reason: StopReason) {
    reason.ByCompletion? || reason.ByCancellation?
  }

  function StopSession(s: Session, reason: StopReason, now: int): Session {
    if s.active || (Terminal(reason) && s.stopReason.Some? && !Terminal(s.stopReason.value)) then
      s.(active := false, stoppedAt := if s.active then Some(now) else s.stoppedAt, stopReason := Some(reason))
    else
      s
  }

  function Stop(t: Tables, reason: StopReason, now: int): Tables {
    t.(session := if t.session.Some? then Some(StopSession(t.session.value, reason, now)) else None,
       position := None)
  }

  /** The part of a provider's suspension that touches this request. */
  function Suspend(t: Tables, p: ProviderId, now: int): Tables {
    if Active(t) && t.session.value.provider == p then Stop(t, ProviderSuspended, now) else t
  }

  function Lookup(samples: seq<SampleRow>, capturedAt: int): Option<SampleRow> {
    if samples == [] then None
    else if samples[0].sample.capturedAt == capturedAt then Some(samples[0])
    else Lookup(samples[1..], capturedAt)
  }

  function Absorb(e: Evidence, row: SampleRow): Evidence {
    if row.qualifying then
      Evidence(e.count + 1,
               if e.first.Some? then e.first else Some(row.sample.capturedAt),
               Some(row.sample.capturedAt))
    else e
  }

  function Record(t: Tables, row: SampleRow): Tables
    requires t.session.Some?
  {
    var s := t.session.value;
    var e := Absorb(s.evidence, row);
    var arrival := if row.qualifying && s.arrivalObservedAt.None? && EvaluateObservedArrival(e)
                   then Some(row.receivedAt) else s.arrivalObservedAt;
    Tables(Some(s.(evidence := e, arrivalObservedAt := arrival)), Some(row),
           t.samples + [row], t.history + [row])
  }

  /** What a submitted sample is: new, a repeat of a stored one, or refused. */
  function Judge(t: Tables, p: ProviderId, s: Sample): Verdict {
    if !Active(t) || t.session.value.provider != p then NotActive
    else if s.capturedAt < t.session.value.startedAt then Predates
    else if t.position.None? || t.position.value.sample.capturedAt < s.capturedAt then Accepted
    else
      var stored := if t.position.value.sample.capturedAt == s.capturedAt
                    then t.position else Lookup(t.samples, s.capturedAt);
      if stored.None? then OutOfOrder else if stored.value.sample == s then Duplicate else Conflict
  }

  function Submit(t: Tables, p: ProviderId, s: Sample, distance: Option<real>, receivedAt: int): Tables {
    if Judge(t, p, s).Accepted? then Record(t, SampleRow(s, receivedAt, Qualifies(distance, s.accuracy))) else t
  }

  /** Retention deletes some of the raw rows received before the cutoff. */
  function KeepSamples(samples: seq<SampleRow>, victims: set<int>, before: int): seq<SampleRow> {
    if samples == [] then []
    else
      var rest := KeepSamples(samples[1..], victims, before);
      if samples[0].receivedAt < before && samples[0].sample.capturedAt in victims then rest
      else [samples[0]] + rest
  }

  /** ... and a stopped session whose raw rows are all gone, if the batch reached it. */
  function Prune(t: Tables, victims: set<int>, rawBefore: int, evidenceBefore: int, reached: bool): Tables {
    var t' := t.(samples := KeepSamples(t.samples, victims, rawBefore));
    if reached && t'.session.Some? && !t'.session.value.active && t'.session.value.stoppedAt.Some?
       && t'.session.value.stoppedAt.value < evidenceBefore && t'.samples == []
    then Tables(None, t'.position, [], [])
    else t'
  }

  // ---------------------------------------------------------------- what they keep

  /** The evidence columns as a fold over the accepted samples. */
  function Fold(h: seq<SampleRow>): Evidence {
    if h == [] then NO_EVIDENCE else Absorb(Fold(h[..|h| - 1]), h[|h| - 1])
  }

  function CountQualifying(h: seq<SampleRow>): nat {
    if h == [] then 0
    else CountQualifying(h[..|h| - 1]) + if h[|h| - 1].qualifying then 1 else 0
  }

  ghost predicate Increasing(h: seq<SampleRow>) {
    forall i, j | 0 <= i < j < |h| :: h[i].sample.capturedAt < h[j].sample.capturedAt
  }

  /** Arrival as the product describes it, without the columns that compute it. */
  ghost predicate Arrived(h: seq<SampleRow>) {
    && CountQualifying(h) >= 3
    && exists i, j | 0 <= i < j < |h| ::
      h[i].qualifying && h[j].qualifying && h[j].sample.capturedAt - h[i].sample.capturedAt >= 30_000
  }

  /** The CHECK constraint on the evidence columns. */
  ghost predicate ArrivalCheck(s: Session) {
    || (s.evidence == NO_EVIDENCE && s.arrivalObservedAt.None?)
    || (&& s.evidence.count > 0 && s.evidence.first.Some? && s.evidence.last.Some?
        && s.evidence.last.value >= s.evidence.first.value
        && (s.arrivalObservedAt.Some? ==>
              s.evidence.count >= 3 && s.evidence.last.value - s.evidence.first.value >= 30_000))
  }

  /** The CHECK constraint on the session state. */
  ghost predicate StateCheck(s: Session) {
    if s.active then s.stoppedAt.None? && s.stopReason.None? else s.stoppedAt.Some? && s.stopReason.Some?
  }

  ghost predicate SessionInv(s: Session, h: seq<SampleRow>) {
    && StateCheck(s)
    && s.evidence == Fold(h)
    && (s.arrivalObservedAt.Some? <==> EvaluateObservedArrival(Fold(h)))
    && forall k | 0 <= k < |h| :: s.startedAt <= h[k].sample.capturedAt
  }

  ghost predicate Inv(t: Tables) {
    && Increasing(t.history)
    && (forall row | row in t.samples :: row in t.history)
    && (t.session.None? ==> t.position.None? && t.history == [])
    && (t.session.Some? ==> SessionInv(t.session.value, t.history))
    && (Active(t) ==> (t.position.None? <==> t.history == []))
    && (t.position.Some? ==> Active(t) && t.history != [] && t.position.value == t.history[|t.history| - 1])
  }

  // ---------------------------------------------------------------- proofs

  lemma {:induction false} FoldMeaning(h: seq<SampleRow>)
    requires Increasing(h)
    ensures Fold(h).count == CountQualifying(h)
    ensures Fold(h).count == 0 <==> Fold(h) == NO_EVIDENCE
    ensures forall k | 0 <= k < |h| && h[k].qualifying ::
      && Fold(h).count > 0 && Fold(h).first.Some? && Fold(h).last.Some?
      && Fold(h).first.value <= h[k].sample.capturedAt <= Fold(h).last.value
    ensures Fold(h).count > 0 ==>
      exists i, j | 0 <= i <= j < |h| ::
        && h[i].qualifying && h[j].qualifying
        && Fold(h).first == Some(h[i].sample.capturedAt) && Fold(h).last == Some(h[j].sample.capturedAt)
  {
    if h != [] {
      var front, n := h[..|h| - 1], |h| - 1;
      FoldMeaning(front);
      if h[n].qualifying {
        if Fold(front).count > 0 {
          var i, j :| 0 <= i <= j < |front| && front[i].qualifying && front[j].qualifying
                      && Fold(front).first == Some(front[i].sample.capturedAt)
                      && Fold(front).last == Some(front[j].sample.capturedAt);
          assert h[i].qualifying && h[n].qualifying && Fold(h).first == Some(h[i].sample.capturedAt);
        } else {
          assert Fold(h).first == Some(h[n].sample.capturedAt) == Fold(h).last;
        }
      } else if Fold(front).count > 0 {
        var i, j :| 0 <= i <= j < |front| && front[i].qualifying && front[j].qualifying
                    && Fold(front).first == Some(front[i].sample.capturedAt)
                    && Fold(front).last == Some(front[j].sample.capturedAt);
        assert h[i].qualifying && h[j].qualifying && Fold(h).first == Some(h[i].sample.capturedAt);
      }
    }
  }

  /** The three columns decide arrival exactly as the accepted samples do. */
  lemma ArrivalIsExact(h: seq<SampleRow>)
    requires Increasing(h)
    ensures EvaluateObservedArrival(Fold(h)) <==> Arrived(h)
  {
    FoldMeaning(h);
    if EvaluateObservedArrival(Fold(h)) {
      var i, j :| 0 <= i <= j < |h| && h[i].qualifying && h[j].qualifying
                  && Fold(h).first == Some(h[i].sample.capturedAt) && Fold(h).last == Some(h[j].sample.capturedAt);
      assert h[i].qualifying && h[j].qualifying && h[j].sample.capturedAt - h[i].sample.capturedAt >= 30_000;
    }
  }

  /** One session row, read through its history: arrival is observed iff the history shows it. */
  lemma ArrivalRefinesHistory(t: Tables)
    requires Inv(t) && t.session.Some?
    ensures t.session.value.arrivalObservedAt.Some? <==> Arrived(t.history)
    ensures t.session.value.evidence.count == CountQualifying(t.history)
    ensures ArrivalCheck(t.session.value)
  {
    FoldMeaning(t.history);
    ArrivalIsExact(t.history);
  }

  lemma StartKeepsInv(t: Tables, p: ProviderId, now: int)
    requires Inv(t)
    ensures Start(t, p, now).Some? ==> Inv(Start(t, p, now).value) && Active(Start(t, p, now).value)
    ensures Start(t, p, now).Some? <==> t.session.None? || (Active(t) && t.session.value.provider == p)
  {
  }

  lemma StopKeepsInv(t: Tables, reason: StopReason, now: int)
    requires Inv(t)
    ensures Inv(Stop(t, reason, now)) && !Active(Stop(t, reason, now))
  {
  }

  lemma RecordKeepsInv(t: Tables, row: SampleRow)
    requires Inv(t) && Active(t)
    requires t.session.value.startedAt <= row.sample.capturedAt
    requires t.position.None? || t.position.value.sample.capturedAt < row.sample.capturedAt
    ensures var t' := Record(t, row);
      && Inv(t') && Active(t')
      && t'.position == Some(row) && t'.samples == t.samples + [row] && t'.history == t.history + [row]
      && (forall earlier | earlier in t.history :: earlier.sample.capturedAt < row.sample.capturedAt)
      && t'.session.value.evidence.count == t.session.value.evidence.count + if row.qualifying then 1 else 0
  {
    var t' := Record(t, row);
    assert t'.history[..|t'.history| - 1] == t.history;
    assert Fold(t'.history) == Absorb(Fold(t.history), row);
    FoldMeaning(t.history);
  }

  /** An accepted sample counts towards arrival exactly within a hundred metres, fifty metres accurate or better. */
  lemma CountsExactlyWhenNearAndAccurate(t: Tables, p: ProviderId, s: Sample, distance: Option<real>, receivedAt: int)
    requires Judge(t, p, s).Accepted?
    ensures var t' := Submit(t, p, s, distance, receivedAt);
      var counts := distance.Some? && distance.value <= 100.0 && s.accuracy <= 50.0;
      && t'.samples == t.samples + [SampleRow(s, receivedAt, counts)]
      && t.session.Some? && t'.session.Some?
      && t'.session.value.evidence.count == t.session.value.evidence.count + if counts then 1 else 0
  {
  }

  lemma SubmitKeepsInv(t: Tables, p: ProviderId, s: Sample, distance: Option<real>, receivedAt: int)
    requires Inv(t)
    ensures Inv(Submit(t, p, s, distance, receivedAt))
  {
    if Judge(t, p, s).Accepted? {
      RecordKeepsInv(t, SampleRow(s, receivedAt, Qualifies(distance, s.accuracy)));
    }
  }

  lemma {:induction false} KeptSamplesWereThere(samples: seq<SampleRow>, victims: set<int>, before: int)
    ensures forall row | row in KeepSamples(samples, victims, before) :: row in samples
  {
    if samples != [] {
      KeptSamplesWereThere(samples[1..], victims, before);
    }
  }

  lemma PruneKeepsInv(t: Tables, victims: set<int>, rawBefore: int, evidenceBefore: int, reached: bool)
    requires Inv(t)
    ensures Inv(Prune(t, victims, rawBefore, evidenceBefore, reached))
    ensures Active(Prune(t, victims, rawBefore, evidenceBefore, reached)) == Active(t)
  {
    KeptSamplesWereThere(t.samples, victims, rawBefore);
  }

  lemma {:induction false} LookupFinds(samples: seq<SampleRow>, at: int)
    ensures Lookup(samples, at).Some? ==>
      Lookup(samples, at).value in samples && Lookup(samples, at).value.sample.capturedAt == at
    ensures Lookup(samples, at).None? ==> forall row | row in samples :: row.sample.capturedAt != at
  {
    if samples != [] && samples[0].sample.capturedAt != at {
      LookupFinds(samples[1..], at);
    }
  }

  /**
   Sending an accepted sample again changes nothing.  The answer is "duplicate" exactly while the
   row is the newest one or its raw row survives; afterwards it is "out of order".
   */
  lemma ResubmissionChangesNothing(t: Tables, k: nat, distance: Option<real>, receivedAt: int)
    requires Inv(t) && Active(t) && k < |t.history|
    ensures var s := t.history[k].sample; var p := t.session.value.provider;
      && Submit(t, p, s, distance, receivedAt) == t
      && Judge(t, p, s) == (if k == |t.history| - 1 || t.history[k] in t.samples then Duplicate else OutOfOrder)
  {
    LookupFinds(t.samples, t.history[k].sample.capturedAt);
  }

  /**
   A sample is accepted exactly when it comes from the followed provider, not from before the session,
   and is newer than every sample ever accepted in it, pruned or not.
   */
  lemma AcceptedSampleIsNewest(t: Tables, p: ProviderId, s: Sample)
    requires Inv(t)
    ensures Judge(t, p, s).Accepted? <==>
      && Active(t) && t.session.value.provider == p && t.session.value.startedAt <= s.capturedAt
      && forall k | 0 <= k < |t.history| :: t.history[k].sample.capturedAt < s.capturedAt
  {
    if t.history != [] {
      assert t.history[|t.history| - 1] in t.history;
    }
  }

  /** Refused as a conflict exactly when the newest row, or a surviving raw one, holds other data for that time. */
  lemma ConflictMeansOtherData(t: Tables, p: ProviderId, s: Sample)
    requires Inv(t) && Active(t) && t.session.value.provider == p && t.session.value.startedAt <= s.capturedAt
    ensures Judge(t, p, s).Conflict? <==>
      exists k | 0 <= k < |t.history| ::
        && t.history[k].sample.capturedAt == s.capturedAt && t.history[k].sample != s
        && (k == |t.history| - 1 || t.history[k] in t.samples)
  {
    LookupFinds(t.samples, s.capturedAt);
    forall k | 0 <= k < |t.history| && t.history[k].sample.capturedAt == s.capturedAt
      ensures t.history[k].sample.capturedAt <= t.history[|t.history| - 1].sample.capturedAt
    {
    }
    var found := Lookup(t.samples, s.capturedAt);
    if found.Some? {
      assert found.value in t.history;
    }
  }
}
