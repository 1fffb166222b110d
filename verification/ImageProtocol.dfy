/**
 Request images live in two stores: objects in storage, rows in the database.  Uploads, commits,
 compensations and orphan reconciliations interleave freely, one effect per step.

 `uploadBound` is the longest time from an attempt's first upload to its commit, `readBound` the
 longest time from the start of a reconciliation's reference read to its threshold, `grace` the
 configured grace period.  Storage keys are fresh (`used` remembers every key ever taken), and a
 rejected transaction did not commit.
 */
module ImageProtocol {
  import opened Domain
  import opened StorageKeys

  datatype Verdict = Replay | Conflict | Failure

  datatype Phase = Uploading | Compensating(why: Verdict) | Done

  /** One submission attempt; `uploaded` counts the objects put so far, the first one at `since`. */
  datatype Attempt = Attempt(customer: nat, submission: nat, fingerprint: nat, keys: seq<Key>,
                             uploaded: nat, since: Option<int>, phase: Phase)

  /** A committed request with its idempotency columns and its image rows. */
  datatype Commit = Commit(customer: nat, submission: nat, fingerprint: nat, keys: seq<Key>)

  datatype Stage =
    | Reading(after: Option<Key>)
    | Read
    | Sweeping(threshold: int)

  datatype Reconciliation = Reconciliation(since: int, stage: Stage, referenced: set<Key>, orphans: set<Key>)

  datatype System = System(
    now: int,
    store: map<Key, int>,
    commits: seq<Commit>,
    attempts: map<nat, Attempt>,
    runs: map<nat, Reconciliation>,
    used: set<Key>)

  datatype Bounds = Bounds(uploadBound: nat, readBound: nat, grace: nat)

  datatype Step =
    | Elapse(ms: nat)
    | Begin(a: nat, customer: nat, submission: nat, fingerprint: nat, keys: seq<Key>)
    | Put(a: nat)
    | PutFails(a: nat, stored: bool)
    | TryCommit(a: nat)
    | Reject(a: nat)
    | Compensate(a: nat, deleted: set<Key>)
    | Die(a: nat)
    | BeginRun(r: nat)
    | ReadPage(r: nat, page: seq<Key>)
    | TakeThreshold(r: nat)
    | ListObject(r: nat, key: Key)
    | Delete(r: nat, batch: set<Key>)
    | AbortRun(r: nat)

  function KeySet(keys: seq<Key>): set<Key> {
    set k | k in keys
  }

  predicate Distinct(keys: seq<Key>) {
    forall i, j | 0 <= i < j < |keys| :: keys[i] != keys[j]
  }

  function UploadedKeys(at: Attempt): seq<Key> {
    if at.uploaded <= |at.keys| then at.keys[..at.uploaded] else at.keys
  }

  /** The keys of the committed image rows. */
  function Rows(commits: seq<Commit>): set<Key> {
    set i, k | 0 <= i < |commits| && k in commits[i].keys :: k
  }

  function FindCommit(commits: seq<Commit>, customer: nat, submission: nat): Option<Commit> {
    if commits == [] then None
    else if commits[0].customer == customer && commits[0].submission == submission then Some(commits[0])
    else FindCommit(commits[1..], customer, submission)
  }

  /** Deadlines: an open upload commits within `uploadBound`, a reference read ends within `readBound`. */
  predicate MayElapse(s: System, ms: nat, b: Bounds) {
    && (forall a | a in s.attempts && s.attempts[a].phase.Uploading? && s.attempts[a].since.Some? ::
          s.now + ms <= s.attempts[a].since.value + b.uploadBound)
    && (forall r | r in s.runs && !s.runs[r].stage.Sweeping? :: s.now + ms <= s.runs[r].since + b.readBound)
  }

  predicate Open(s: System, a: nat) {
    a in s.attempts && s.attempts[a].phase.Uploading?
  }

  /** What a reconciliation may call an orphan: listed, unreferenced, older than the threshold. */
  predicate Orphaned(s: System, run: Reconciliation, key: Key) {
    && run.stage.Sweeping?
    && key in s.store
    && key !in run.referenced
    && s.store[key] <= run.stage.threshold
  }

  ghost predicate MayRead(s: System, r: nat, page: seq<Key>) {
    r in s.runs && s.runs[r].stage.Reading? && IsPage(Rows(s.commits), s.runs[r].stage.after, page)
  }

  function SetPhase(s: System, a: nat, phase: Phase): System
    requires a in s.attempts
  {
    s.(attempts := s.attempts[a := s.attempts[a].(phase := phase)])
  }

  /** The create transaction: the unique (customer, submission) index lets the first committer win. */
  function CommitAttempt(s: System, a: nat): System
    requires a in s.attempts
  {
    var at := s.attempts[a];
    var existing := FindCommit(s.commits, at.customer, at.submission);
    if existing.None? then
      SetPhase(s.(commits := s.commits + [Commit(at.customer, at.submission, at.fingerprint, at.keys)]), a, Done)
    else
      SetPhase(s, a, Compensating(if existing.value.fingerprint == at.fingerprint then Replay else Conflict))
  }

  ghost function Next(s: System, step: Step, b: Bounds): System {
    match step
    case Elapse(ms) => if MayElapse(s, ms, b) then s.(now := s.now + ms) else s
    case Begin(a, customer, submission, fingerprint, keys) =>
      if a !in s.attempts && KeySet(keys) !! s.used && Distinct(keys) then
        s.(attempts := s.attempts[a := Attempt(customer, submission, fingerprint, keys, 0, None, Uploading)],
           used := s.used + KeySet(keys))
      else s
    case Put(a) =>
      if Open(s, a) && s.attempts[a].uploaded < |s.attempts[a].keys| then
        var at := s.attempts[a];
        s.(store := s.store[at.keys[at.uploaded] := s.now],
           attempts := s.attempts[a := at.(uploaded := at.uploaded + 1,
                                           since := if at.since.Some? then at.since else Some(s.now))])
      else s
    case PutFails(a, stored) =>
      if Open(s, a) && s.attempts[a].uploaded < |s.attempts[a].keys| then
        var at := s.attempts[a];
        SetPhase(s.(store := if stored then s.store[at.keys[at.uploaded] := s.now] else s.store), a,
          Compensating(Failure))
      else s
    case TryCommit(a) => if Open(s, a) && s.attempts[a].uploaded == |s.attempts[a].keys| then CommitAttempt(s, a) else s
    case Reject(a) => if Open(s, a) then SetPhase(s, a, Compensating(Failure)) else s
    case Compensate(a, deleted) =>
      if a in s.attempts && s.attempts[a].phase.Compensating? && deleted <= KeySet(UploadedKeys(s.attempts[a])) then
        SetPhase(s.(store := s.store - deleted), a, Done)
      else s
    case Die(a) => if a in s.attempts then SetPhase(s, a, Done) else s
    case BeginRun(r) => if r !in s.runs then
      s.(runs := s.runs[r := Reconciliation(s.now, Reading(None), {}, {})]) else s
    case ReadPage(r, page) =>
      if MayRead(s, r, page) then
        var run := s.runs[r];
        s.(runs := s.runs[r := run.(referenced := run.referenced + KeySet(page),
                                    stage := if page == [] then Read else Reading(LastOf(page, run.stage.after)))])
      else s
    case TakeThreshold(r) =>
      if r in s.runs && s.runs[r].stage.Read? then
        s.(runs := s.runs[r := s.runs[r].(stage := Sweeping(s.now - b.grace))])
      else s
    case ListObject(r, key) =>
      if r in s.runs && Orphaned(s, s.runs[r], key) then
        s.(runs := s.runs[r := s.runs[r].(orphans := s.runs[r].orphans + {key})])
      else s
    case Delete(r, batch) =>
      if r in s.runs && batch <= s.runs[r].orphans then s.(store := s.store - batch) else s
    case AbortRun(r) => s.(runs := s.runs - {r})
  }

  ghost function Run(s: System, steps: seq<Step>, b: Bounds): System
    decreases |steps|
  {
    if steps == [] then s else Run(Next(s, steps[0], b), steps[1..], b)
  }

  const START := System(0, map[], [], map[], map[], {})

  /** Every object that a committed image row owns is in storage. */
  ghost predicate Safe(s: System) {
    forall k | k in Rows(s.commits) :: k in s.store
  }

  // ---------------------------------------------------------------- the invariant

  ghost predicate AttemptInv(s: System, a: nat, b: Bounds)
    requires a in s.attempts
  {
    var at := s.attempts[a];
    && at.uploaded <= |at.keys| && Distinct(at.keys)
    && KeySet(at.keys) <= s.used
    && (at.phase.Uploading? ==>
          && KeySet(at.keys) !! Rows(s.commits)
          && (at.since.Some? <==> at.uploaded > 0)
          && (at.since.Some? ==> at.since.value <= s.now <= at.since.value + b.uploadBound)
          && (forall i | 0 <= i < at.uploaded :: at.keys[i] in s.store && s.store[at.keys[i]] >= at.since.value)
          && (forall i | at.uploaded <= i < |at.keys| :: at.keys[i] !in s.store))
    && (at.phase.Compensating? ==> KeySet(at.keys) !! Rows(s.commits))
  }

  ghost predicate KeysApart(s: System) {
    forall a, c | a in s.attempts && c in s.attempts && a != c ::
      KeySet(s.attempts[a].keys) !! KeySet(s.attempts[c].keys)
  }

  /** A committed row's object is either already referenced, still ahead of the reader, or too young to be swept. */
  ghost predicate Covered(s: System, run: Reconciliation, k: Key, b: Bounds) {
    || k in run.referenced
    || (run.stage.Reading? && Beyond(k, run.stage.after))
    || (k in s.store && s.store[k] >= run.since - b.uploadBound)
  }

  ghost predicate RunInv(s: System, r: nat, b: Bounds)
    requires r in s.runs
  {
    var run := s.runs[r];
    && run.since <= s.now
    && (!run.stage.Sweeping? ==> s.now <= run.since + b.readBound && run.orphans == {})
    && (run.stage.Sweeping? ==> run.stage.threshold <= run.since + b.readBound - b.grace)
    && (forall k | k in Rows(s.commits) :: Covered(s, run, k, b))
    && run.orphans <= s.used && run.orphans !! Rows(s.commits)
    && (forall a | Open(s, a) :: run.orphans !! KeySet(s.attempts[a].keys))
  }

  ghost predicate OneCommitPerSubmission(s: System) {
    forall i, j | 0 <= i < j < |s.commits| ::
      s.commits[i].customer != s.commits[j].customer || s.commits[i].submission != s.commits[j].submission
  }

  ghost predicate Inv(s: System, b: Bounds) {
    && Safe(s)
    && Rows(s.commits) <= s.used && s.store.Keys <= s.used
    && KeysApart(s)
    && OneCommitPerSubmission(s)
    && (forall a | a in s.attempts :: AttemptInv(s, a, b))
    && (forall r | r in s.runs :: RunInv(s, r, b))
  }
}
