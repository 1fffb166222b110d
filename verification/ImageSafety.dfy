/** No committed object is ever deleted: exactly when the grace period outlasts the two delays. */
module ImageSafety {
  import opened Domain
  import opened StorageKeys
  import opened ImageProtocol

  ghost predicate Within(b: Bounds) {
    b.uploadBound + b.readBound < b.grace
  }

  // ---------------------------------------------------------------- steps of an attempt

  lemma ElapseKeepsInv(s: System, ms: nat, b: Bounds)
    requires Inv(s, b)
    ensures Inv(Next(s, Elapse(ms), b), b)
  {
    var s' := Next(s, Elapse(ms), b);
    forall a | a in s'.attempts ensures AttemptInv(s', a, b) {
      assert AttemptInv(s, a, b);
    }
    forall r | r in s'.runs ensures RunInv(s', r, b) {
      assert RunInv(s, r, b);
      forall k | k in Rows(s'.commits) ensures Covered(s', s'.runs[r], k, b) {
        assert Covered(s, s.runs[r], k, b);
      }
    }
  }

  lemma BeginKeepsInv(s: System, step: Step, b: Bounds)
    requires Inv(s, b) && step.Begin?
    ensures Inv(Next(s, step, b), b)
  {
    var s' := Next(s, step, b);
    if s' != s {
      forall a | a in s'.attempts ensures AttemptInv(s', a, b) {
        if a != step.a {
          assert AttemptInv(s, a, b);
        } else {
          forall i | 0 <= i < |step.keys| ensures step.keys[i] !in s.store {
            assert step.keys[i] in KeySet(step.keys);
          }
        }
      }
      forall a, c | a in s'.attempts && c in s'.attempts && a != c
        ensures KeySet(s'.attempts[a].keys) !! KeySet(s'.attempts[c].keys)
      {
        if a in s.attempts {
          assert AttemptInv(s, a, b);
        }
        if c in s.attempts {
          assert AttemptInv(s, c, b);
        }
      }
      forall r | r in s'.runs ensures RunInv(s', r, b) {
        assert RunInv(s, r, b);
        forall k | k in Rows(s'.commits) ensures Covered(s', s'.runs[r], k, b) {
          assert Covered(s, s.runs[r], k, b);
        }
        forall a | Open(s', a) ensures s'.runs[r].orphans !! KeySet(s'.attempts[a].keys) {
          assert a == step.a || Open(s, a);
        }
      }
    }
  }

  /** Storing one object of an open attempt leaves the other attempts as they were. */
  lemma PutKeepsOthers(s: System, s': System, a: nat, x: nat, b: Bounds)
    requires KeysApart(s) && AttemptReady(s, a, b) && x in s.attempts && x != a && AttemptInv(s, x, b)
    requires s'.now == s.now && s'.commits == s.commits && s'.used == s.used
    requires x in s'.attempts && s'.attempts[x] == s.attempts[x]
    requires s'.store == s.store || s'.store == s.store[NextKey(s, a) := s.now]
    ensures AttemptInv(s', x, b)
  {
    hide Rows;
    var at := s.attempts[x];
    assert NextKey(s, a) in KeySet(s.attempts[a].keys);
    forall i | 0 <= i < |at.keys| ensures at.keys[i] != NextKey(s, a) {
      assert at.keys[i] in KeySet(at.keys);
    }
  }

  ghost predicate AttemptReady(s: System, a: nat, b: Bounds) {
    Open(s, a) && s.attempts[a].uploaded < |s.attempts[a].keys| && AttemptInv(s, a, b)
  }

  function NextKey(s: System, a: nat): Key
    requires Open(s, a) && s.attempts[a].uploaded < |s.attempts[a].keys|
  {
    s.attempts[a].keys[s.attempts[a].uploaded]
  }

  lemma PutKeepsRunInv(s: System, s': System, a: nat, r: nat, b: Bounds)
    requires AttemptReady(s, a, b) && r in s.runs && RunInv(s, r, b)
    requires s'.now == s.now && s'.commits == s.commits && s'.used == s.used && s'.runs == s.runs
    requires s'.store == s.store || s'.store == s.store[NextKey(s, a) := s.now]
    requires s'.attempts.Keys == s.attempts.Keys
    requires forall x | Open(s', x) :: Open(s, x) && s'.attempts[x].keys == s.attempts[x].keys
    ensures RunInv(s', r, b)
  {
    assert NextKey(s, a) in KeySet(s.attempts[a].keys);
    forall k | k in Rows(s'.commits) ensures Covered(s', s'.runs[r], k, b) {
      assert Covered(s, s.runs[r], k, b);
    }
  }

  /** Putting one more object, in an attempt that goes on or fails there. */
  lemma PutKeepsInv(s: System, step: Step, b: Bounds)
    requires Inv(s, b) && (step.Put? || step.PutFails?)
    ensures Inv(Next(s, step, b), b)
  {
    var s' := Next(s, step, b);
    var a := step.a;
    if Open(s, a) && s.attempts[a].uploaded < |s.attempts[a].keys| {
      assert AttemptReady(s, a, b);
      PutShape(s, step);
      PutKeepsOwn(s, step, b);
      PutKeepsRest(s, s', a, b);
    }
  }

  /** What a put changes: one object in the store, one attempt, whose keys stay. */
  ghost predicate IsPut(s: System, s': System, a: nat)
    requires Open(s, a) && s.attempts[a].uploaded < |s.attempts[a].keys|
  {
    && s' == s.(store := s'.store, attempts := s'.attempts)
    && (s'.store == s.store || s'.store == s.store[NextKey(s, a) := s.now])
    && a in s'.attempts && s'.attempts == s.attempts[a := s'.attempts[a]] && s'.attempts[a].keys == s.attempts[a].keys
  }

  lemma PutShape(s: System, step: Step)
    requires step.Put? || step.PutFails?
    requires Open(s, step.a) && s.attempts[step.a].uploaded < |s.attempts[step.a].keys|
    ensures forall b :: IsPut(s, Next(s, step, b), step.a)
  {
  }

  lemma PutKeepsRest(s: System, s': System, a: nat, b: Bounds)
    requires Inv(s, b) && AttemptReady(s, a, b) && IsPut(s, s', a) && AttemptInv(s', a, b)
    ensures Inv(s', b)
  {
    assert NextKey(s, a) in KeySet(s.attempts[a].keys);
    assert NextKey(s, a) in s.used;
    forall x | x in s'.attempts ensures AttemptInv(s', x, b) {
      if x != a {
        PutKeepsOthers(s, s', a, x, b);
      }
    }
    forall r | r in s'.runs ensures RunInv(s', r, b) {
      PutKeepsRunInv(s, s', a, r, b);
    }
    assert KeysApart(s') by {
      forall x, y | x in s'.attempts && y in s'.attempts && x != y
        ensures KeySet(s'.attempts[x].keys) !! KeySet(s'.attempts[y].keys)
      {
        assert KeySet(s.attempts[x].keys) !! KeySet(s.attempts[y].keys);
      }
    }
  }

  lemma PutKeepsOwn(s: System, step: Step, b: Bounds)
    requires (step.Put? || step.PutFails?) && AttemptReady(s, step.a, b)
    ensures AttemptInv(Next(s, step, b), step.a, b)
  {
    hide Rows;
  }

  lemma {:induction false} NoCommitFound(commits: seq<Commit>, customer: nat, submission: nat)
    ensures FindCommit(commits, customer, submission).None? <==>
      forall i | 0 <= i < |commits| :: commits[i].customer != customer || commits[i].submission != submission
    ensures FindCommit(commits, customer, submission).Some? ==>
      var c := FindCommit(commits, customer, submission).value;
      c in commits && c.customer == customer && c.submission == submission
  {
    if commits != [] {
      NoCommitFound(commits[1..], customer, submission);
    }
  }

  lemma RowsAppended(commits: seq<Commit>, c: Commit)
    ensures Rows(commits + [c]) == Rows(commits) + KeySet(c.keys)
  {
    var all := commits + [c];
    forall k | k in Rows(commits) + KeySet(c.keys) ensures k in Rows(all) {
      if k in Rows(commits) {
        var i :| 0 <= i < |commits| && k in commits[i].keys;
        assert k in all[i].keys;
      } else {
        assert k in all[|commits|].keys;
      }
    }
  }

  lemma SamePhaseKeepsInv(s: System, a: nat, phase: Phase, b: Bounds)
    requires Inv(s, b) && a in s.attempts && !phase.Uploading?
    requires phase.Compensating? ==> s.attempts[a].phase.Uploading?
    ensures Inv(SetPhase(s, a, phase), b)
  {
    var s' := SetPhase(s, a, phase);
    forall x | x in s'.attempts ensures AttemptInv(s', x, b) {
      assert AttemptInv(s, x, b);
    }
    forall r | r in s'.runs ensures RunInv(s', r, b) {
      assert RunInv(s, r, b);
      forall k | k in Rows(s'.commits) ensures Covered(s', s'.runs[r], k, b) {
        assert Covered(s, s.runs[r], k, b);
      }
      forall x | Open(s', x) ensures s'.runs[r].orphans !! KeySet(s'.attempts[x].keys) {
        assert Open(s, x);
      }
    }
  }

  /** What a complete upload holds: its objects are in storage, put there within the upload bound. */
  lemma UploadIsYoung(s: System, a: nat, b: Bounds)
    requires Open(s, a) && AttemptInv(s, a, b) && s.attempts[a].uploaded == |s.attempts[a].keys|
    ensures forall k | k in KeySet(s.attempts[a].keys) :: k in s.store && s.store[k] >= s.now - b.uploadBound
  {
    var at := s.attempts[a];
    forall k | k in KeySet(at.keys) ensures k in s.store && s.store[k] >= s.now - b.uploadBound {
      var i :| 0 <= i < |at.keys| && at.keys[i] == k;
    }
  }

  /** A fresh commit's objects are covered in every running reconciliation. */
  lemma CommitKeepsRunInv(s: System, s': System, a: nat, r: nat, b: Bounds)
    requires Open(s, a) && r in s.runs && RunInv(s, r, b)
    requires forall k | k in KeySet(s.attempts[a].keys) :: k in s.store && s.store[k] >= s.now - b.uploadBound
    requires KeySet(s.attempts[a].keys) <= s.used
    requires s'.now == s.now && s'.runs == s.runs && s'.store == s.store && s'.used == s.used
    requires Rows(s'.commits) == Rows(s.commits) + KeySet(s.attempts[a].keys)
    requires s'.attempts == s.attempts[a := s.attempts[a].(phase := Done)]
    ensures RunInv(s', r, b)
  {
    var run := s.runs[r];
    forall k | k in Rows(s'.commits) ensures Covered(s', run, k, b) {
      assert k in Rows(s.commits) ==> Covered(s, run, k, b);
    }
    assert run.orphans !! KeySet(s.attempts[a].keys);
    forall x | Open(s', x) ensures run.orphans !! KeySet(s'.attempts[x].keys) {
      assert Open(s, x);
    }
  }

  lemma CommitKeepsAttemptInv(s: System, s': System, a: nat, x: nat, b: Bounds)
    requires KeysApart(s) && a in s.attempts && x in s.attempts && AttemptInv(s, x, b)
    requires s'.now == s.now && s'.store == s.store && s'.used == s.used
    requires Rows(s'.commits) == Rows(s.commits) + KeySet(s.attempts[a].keys)
    requires s'.attempts == s.attempts[a := s.attempts[a].(phase := Done)]
    ensures AttemptInv(s', x, b)
  {
    hide Rows;
    assert x != a ==> KeySet(s.attempts[x].keys) !! KeySet(s.attempts[a].keys);
  }

  /** A fresh commit owns objects that are all in storage and too young for any running reconciliation. */
  lemma CommitKeepsInv(s: System, a: nat, b: Bounds)
    requires Inv(s, b)
    ensures Inv(Next(s, TryCommit(a), b), b)
  {
    if Open(s, a) && s.attempts[a].uploaded == |s.attempts[a].keys| {
      var at := s.attempts[a];
      var s' := CommitAttempt(s, a);
      NoCommitFound(s.commits, at.customer, at.submission);
      if FindCommit(s.commits, at.customer, at.submission).None? {
        RowsAppended(s.commits, Commit(at.customer, at.submission, at.fingerprint, at.keys));
        assert AttemptInv(s, a, b);
        UploadIsYoung(s, a, b);
        hide AttemptInv, RunInv, Rows, FindCommit, Covered;
        forall x | x in s'.attempts ensures AttemptInv(s', x, b) {
          CommitKeepsAttemptInv(s, s', a, x, b);
        }
        forall r | r in s'.runs ensures RunInv(s', r, b) {
          CommitKeepsRunInv(s, s', a, r, b);
        }
      } else {
        SamePhaseKeepsInv(s, a, s'.attempts[a].phase, b);
      }
    }
  }

  /** Removing objects that belong to no committed row and to no open upload is harmless. */
  lemma RemovalKeepsInv(s: System, deleted: set<Key>, b: Bounds)
    requires Inv(s, b)
    requires deleted !! Rows(s.commits)
    requires forall a | Open(s, a) :: deleted !! KeySet(s.attempts[a].keys)
    ensures Inv(s.(store := s.store - deleted), b)
  {
    var s' := s.(store := s.store - deleted);
    forall a | a in s'.attempts ensures AttemptInv(s', a, b) {
      assert AttemptInv(s, a, b);
      if Open(s, a) {
        forall i | 0 <= i < |s.attempts[a].keys| ensures s.attempts[a].keys[i] !in deleted {
          assert s.attempts[a].keys[i] in KeySet(s.attempts[a].keys);
        }
      }
    }
    forall r | r in s'.runs ensures RunInv(s', r, b) {
      assert RunInv(s, r, b);
      forall k | k in Rows(s'.commits) ensures Covered(s', s'.runs[r], k, b) {
        assert Covered(s, s.runs[r], k, b);
      }
      forall a | Open(s', a) ensures s'.runs[r].orphans !! KeySet(s'.attempts[a].keys) {
        assert Open(s, a);
      }
    }
  }

  lemma CompensateKeepsInv(s: System, a: nat, deleted: set<Key>, b: Bounds)
    requires Inv(s, b)
    ensures Inv(Next(s, Compensate(a, deleted), b), b)
  {
    if a in s.attempts && s.attempts[a].phase.Compensating? && deleted <= KeySet(UploadedKeys(s.attempts[a])) {
      assert AttemptInv(s, a, b);
      assert deleted <= KeySet(s.attempts[a].keys);
      forall x | Open(s, x) ensures deleted !! KeySet(s.attempts[x].keys) {
        assert x != a;
      }
      RemovalKeepsInv(s, deleted, b);
      SamePhaseKeepsInv(s.(store := s.store - deleted), a, Done, b);
    }
  }

  // ---------------------------------------------------------------- steps of a reconciliation

  lemma ReconcilerKeepsInv(s: System, step: Step, b: Bounds)
    requires Inv(s, b) && Within(b)
    requires step.BeginRun? || step.ReadPage? || step.TakeThreshold? || step.ListObject? || step.AbortRun?
    ensures Inv(Next(s, step, b), b)
  {
    var s' := Next(s, step, b);
    if s' != s {
      forall a | a in s'.attempts ensures AttemptInv(s', a, b) {
        assert AttemptInv(s, a, b);
      }
      forall r | r in s'.runs ensures RunInv(s', r, b) {
        RunStepKeepsInv(s, step, r, b);
      }
    }
  }

  lemma RunStepKeepsInv(s: System, step: Step, r: nat, b: Bounds)
    requires Inv(s, b) && Within(b)
    requires step.BeginRun? || step.ReadPage? || step.TakeThreshold? || step.ListObject? || step.AbortRun?
    requires r in Next(s, step, b).runs
    ensures RunInv(Next(s, step, b), r, b)
  {
    var s' := Next(s, step, b);
    if r !in s.runs || s'.runs[r] == s.runs[r] {
      OtherRunUntouched(s, s', r, b);
    } else if step.ReadPage? {
      PageKeepsCover(s, s', r, step.page, b);
    } else if step.TakeThreshold? {
      ThresholdKeepsCover(s, s', r, b);
    } else {
      YoungIsNoOrphan(s, r, step.key, b);
      ListingKeepsRunInv(s, s', r, step.key, b);
    }
  }

  /** A new reconciliation, or one that the step leaves alone. */
  lemma OtherRunUntouched(s: System, s': System, r: nat, b: Bounds)
    requires r in s'.runs
    requires s'.commits == s.commits && s'.store == s.store && s'.now == s.now && s'.used == s.used
      && s'.attempts == s.attempts
    requires if r in s.runs then s'.runs[r] == s.runs[r] && RunInv(s, r, b)
             else s'.runs[r] == Reconciliation(s.now, Reading(None), {}, {})
    ensures RunInv(s', r, b)
  {
    forall k | k in Rows(s'.commits) ensures Covered(s', s'.runs[r], k, b) {
      assert r in s.runs ==> Covered(s, s.runs[r], k, b);
    }
    forall a | Open(s', a) ensures s'.runs[r].orphans !! KeySet(s'.attempts[a].keys) {
      assert Open(s, a);
    }
  }

  /** Reading a page moves the reader's mark only past rows it has just referenced. */
  lemma PageKeepsCover(s: System, s': System, r: nat, page: seq<Key>, b: Bounds)
    requires r in s.runs && RunInv(s, r, b) && MayRead(s, r, page)
    requires s' == Next(s, ReadPage(r, page), b)
    ensures RunInv(s', r, b)
  {
    var run, run' := s.runs[r], s'.runs[r];
    forall k | k in Rows(s'.commits) ensures Covered(s', run', k, b) {
      assert Covered(s, run, k, b);
    }
    forall a | Open(s', a) ensures run'.orphans !! KeySet(s'.attempts[a].keys) {
      assert Open(s, a);
    }
  }

  lemma ThresholdKeepsCover(s: System, s': System, r: nat, b: Bounds)
    requires r in s.runs && RunInv(s, r, b) && s.runs[r].stage.Read?
    requires s' == Next(s, TakeThreshold(r), b)
    ensures RunInv(s', r, b)
  {
    forall k | k in Rows(s'.commits) ensures Covered(s', s'.runs[r], k, b) {
      assert Covered(s, s.runs[r], k, b);
    }
    forall a | Open(s', a) ensures s'.runs[r].orphans !! KeySet(s'.attempts[a].keys) {
      assert Open(s, a);
    }
  }

  lemma ListingKeepsRunInv(s: System, s': System, r: nat, key: Key, b: Bounds)
    requires r in s.runs && RunInv(s, r, b) && Orphaned(s, s.runs[r], key) && s.store.Keys <= s.used
    requires key !in Rows(s.commits) && forall a | Open(s, a) :: key !in KeySet(s.attempts[a].keys)
    requires s' == Next(s, ListObject(r, key), b)
    ensures RunInv(s', r, b)
  {
    var run, run' := s.runs[r], s'.runs[r];
    forall k | k in Rows(s'.commits) ensures Covered(s', run', k, b) {
      assert Covered(s, run, k, b);
    }
    forall a | Open(s', a) ensures run'.orphans !! KeySet(s'.attempts[a].keys) {
      assert Open(s, a) && run'.orphans == run.orphans + {key};
    }
  }

  /** A listed orphan is neither a committed row's object nor one of an open upload. */
  lemma YoungIsNoOrphan(s: System, r: nat, key: Key, b: Bounds)
    requires Inv(s, b) && Within(b)
    requires r in s.runs && Orphaned(s, s.runs[r], key)
    ensures key !in Rows(s.commits)
    ensures forall a | Open(s, a) :: key !in KeySet(s.attempts[a].keys)
  {
    assert RunInv(s, r, b);
    assert key in Rows(s.commits) ==> Covered(s, s.runs[r], key, b);
    forall a | Open(s, a) ensures key !in KeySet(s.attempts[a].keys) {
      assert AttemptInv(s, a, b);
    }
  }

  lemma DeleteKeepsInv(s: System, r: nat, batch: set<Key>, b: Bounds)
    requires Inv(s, b)
    ensures Inv(Next(s, Delete(r, batch), b), b)
  {
    if r in s.runs && batch <= s.runs[r].orphans {
      assert RunInv(s, r, b);
      forall a | Open(s, a) ensures batch !! KeySet(s.attempts[a].keys) {
      }
      RemovalKeepsInv(s, batch, b);
    }
  }

  // ---------------------------------------------------------------- every run

  lemma NextKeepsInv(s: System, step: Step, b: Bounds)
    requires Inv(s, b) && Within(b)
    ensures Inv(Next(s, step, b), b)
  {
    match step
    case Elapse(ms) => ElapseKeepsInv(s, ms, b);
    case Begin(_, _, _, _, _) => BeginKeepsInv(s, step, b);
    case Put(_) => PutKeepsInv(s, step, b);
    case PutFails(_, _) => PutKeepsInv(s, step, b);
    case TryCommit(a) => CommitKeepsInv(s, a, b);
    case Reject(a) => if Open(s, a) { SamePhaseKeepsInv(s, a, Compensating(Failure), b); }
    case Compensate(a, deleted) => CompensateKeepsInv(s, a, deleted, b);
    case Die(a) => if a in s.attempts { SamePhaseKeepsInv(s, a, Done, b); }
    case Delete(r, batch) => DeleteKeepsInv(s, r, batch, b);
    case _ => ReconcilerKeepsInv(s, step, b);
  }

  lemma {:induction false} RunKeepsInv(s: System, steps: seq<Step>, b: Bounds)
    requires Inv(s, b) && Within(b)
    ensures Inv(Run(s, steps, b), b)
    decreases |steps|
  {
    if steps != [] {
      NextKeepsInv(s, steps[0], b);
      RunKeepsInv(Next(s, steps[0], b), steps[1..], b);
    }
  }

  lemma StartHasInv(b: Bounds)
    ensures Inv(START, b)
  {
  }

  lemma NextKeepsOneCommit(s: System, step: Step, b: Bounds)
    requires OneCommitPerSubmission(s)
    ensures OneCommitPerSubmission(Next(s, step, b))
  {
    if step.TryCommit? && step.a in s.attempts {
      NoCommitFound(s.commits, s.attempts[step.a].customer, s.attempts[step.a].submission);
    }
  }

  lemma {:induction false} RunKeepsOneCommit(s: System, steps: seq<Step>, b: Bounds)
    requires OneCommitPerSubmission(s)
    ensures OneCommitPerSubmission(Run(s, steps, b))
    decreases |steps|
  {
    if steps != [] {
      NextKeepsOneCommit(s, steps[0], b);
      RunKeepsOneCommit(Next(s, steps[0], b), steps[1..], b);
    }
  }

  /** One (customer, submission) pair commits at most one request, whatever interleaves and however long it takes. */
  lemma OneRequestPerSubmission(steps: seq<Step>, b: Bounds)
    ensures OneCommitPerSubmission(Run(START, steps, b))
  {
    RunKeepsOneCommit(START, steps, b);
  }

  /** A second submission under a taken key commits nothing; it replays exactly when the content is the same. */
  lemma SecondSubmissionReplaysOrConflicts(s: System, a: nat, i: nat, b: Bounds)
    requires OneCommitPerSubmission(s) && Open(s, a) && s.attempts[a].uploaded == |s.attempts[a].keys|
    requires i < |s.commits|
    requires s.commits[i].customer == s.attempts[a].customer && s.commits[i].submission == s.attempts[a].submission
    ensures Next(s, TryCommit(a), b).commits == s.commits
    ensures Next(s, TryCommit(a), b).attempts[a].phase ==
      Compensating(if s.commits[i].fingerprint == s.attempts[a].fingerprint then Replay else Conflict)
  {
    var found := FindCommit(s.commits, s.attempts[a].customer, s.attempts[a].submission);
    NoCommitFound(s.commits, s.attempts[a].customer, s.attempts[a].submission);
    assert found.Some?;
    var j :| 0 <= j < |s.commits| && s.commits[j] == found.value;
    assert i == j;
  }

  // ---------------------------------------------------------------- the bound is exact

  lemma {:induction false} RunSplits(s: System, x: seq<Step>, y: seq<Step>, b: Bounds)
    ensures Run(s, x + y, b) == Run(Run(s, x, b), y, b)
    decreases |x|
  {
    if x == [] {
      assert x + y == y;
    } else {
      assert (x + y)[1..] == x[1..] + y;
      RunSplits(Next(s, x[0], b), x[1..], y, b);
    }
  }

  lemma RunThree(s: System, x: Step, y: Step, z: Step, b: Bounds)
    ensures Run(s, [x, y, z], b) == Next(Next(Next(s, x, b), y, b), z, b)
  {
    var s' := Next(Next(s, x, b), y, b);
    assert [x, y, z][1..] == [y, z] && [y, z][1..] == [z] && [z][1..] == [];
    assert Run(s', [z], b) == Next(s', z, b);
    assert Run(Next(s, x, b), [y, z], b) == Run(s', [z], b);
  }

  const IMAGE: Key := "k"

  function Upload(b: Bounds): seq<Step> { [Begin(0, 0, 0, 0, [IMAGE]), Put(0), Elapse(b.uploadBound)] }
  const READ_TOO_EARLY := [BeginRun(0), ReadPage(0, []), TryCommit(0)]
  function ReadSlowly(b: Bounds): seq<Step> { [Elapse(b.readBound), TakeThreshold(0), ListObject(0, IMAGE)] }

  /** An upload as slow as it may be, a read just before its commit, and a threshold as late as it may be. */
  function SlowRun(b: Bounds): seq<Step> {
    Upload(b) + READ_TOO_EARLY + ReadSlowly(b) + [Delete(0, {IMAGE})]
  }

  function Uploaded(b: Bounds): System {
    System(b.uploadBound, map[IMAGE := 0], [], map[0 := Attempt(0, 0, 0, [IMAGE], 1, Some(0), Uploading)], map[],
      {IMAGE})
  }

  function Committed(b: Bounds): System {
    System(b.uploadBound, map[IMAGE := 0], [Commit(0, 0, 0, [IMAGE])],
           map[0 := Attempt(0, 0, 0, [IMAGE], 1, Some(0), Done)],
           map[0 := Reconciliation(b.uploadBound, Read, {}, {})], {IMAGE})
  }

  function Listed(b: Bounds): System {
    var now := b.uploadBound + b.readBound;
    Committed(b).(now := now, runs := map[0 := Reconciliation(b.uploadBound, Sweeping(now - b.grace), {}, {IMAGE})])
  }

  lemma UploadRuns(b: Bounds)
    ensures Run(START, Upload(b), b) == Uploaded(b)
  {
    RunThree(START, Begin(0, 0, 0, 0, [IMAGE]), Put(0), Elapse(b.uploadBound), b);
    assert KeySet([IMAGE]) == {IMAGE};
    var s1 := Next(START, Begin(0, 0, 0, 0, [IMAGE]), b);
    assert s1 == System(0, map[], [], map[0 := Attempt(0, 0, 0, [IMAGE], 0, None, Uploading)], map[], {IMAGE});
    var s2 := Next(s1, Put(0), b);
    assert s2 == Uploaded(b).(now := 0);
  }

  lemma ReadMissesTheCommit(b: Bounds)
    ensures Run(Uploaded(b), READ_TOO_EARLY, b) == Committed(b)
  {
    var s := Uploaded(b);
    RunThree(s, BeginRun(0), ReadPage(0, []), TryCommit(0), b);
    var s1 := Next(s, BeginRun(0), b);
    assert s1 == s.(runs := map[0 := Reconciliation(b.uploadBound, Reading(None), {}, {})]);
    assert MayRead(s1, 0, []);
    var none: seq<Key> := [];
    assert {} + KeySet(none) == {};
    var s2 := Next(s1, ReadPage(0, []), b);
    assert s2.runs[0] == Reconciliation(b.uploadBound, Read, {}, {});
    assert s2 == s.(runs := map[0 := Reconciliation(b.uploadBound, Read, {}, {})]);
  }

  lemma LateThresholdListsIt(b: Bounds)
    requires !Within(b)
    ensures Run(Committed(b), ReadSlowly(b), b) == Listed(b)
  {
    var s := Committed(b);
    RunThree(s, Elapse(b.readBound), TakeThreshold(0), ListObject(0, IMAGE), b);
    var s1 := Next(s, Elapse(b.readBound), b);
    assert s1 == s.(now := b.uploadBound + b.readBound);
    var s2 := Next(s1, TakeThreshold(0), b);
    assert s2 == s1.(runs := map[0 := Reconciliation(b.uploadBound, Sweeping(s1.now - b.grace), {}, {})]);
    assert Orphaned(s2, s2.runs[0], IMAGE);
    assert {} + {IMAGE} == {IMAGE};
    var s3 := Next(s2, ListObject(0, IMAGE), b);
    assert s3.runs[0] == Listed(b).runs[0];
  }

  lemma SlowRunLosesAnImage(b: Bounds)
    requires !Within(b)
    ensures !Safe(Run(START, SlowRun(b), b))
  {
    RunSplits(START, Upload(b) + READ_TOO_EARLY + ReadSlowly(b), [Delete(0, {IMAGE})], b);
    RunSplits(START, Upload(b) + READ_TOO_EARLY, ReadSlowly(b), b);
    RunSplits(START, Upload(b), READ_TOO_EARLY, b);
    UploadRuns(b);
    ReadMissesTheCommit(b);
    LateThresholdListsIt(b);
    DeletionLosesIt(b);
  }

  lemma DeletionLosesIt(b: Bounds)
    ensures !Safe(Run(Listed(b), [Delete(0, {IMAGE})], b))
  {
    var s := Next(Listed(b), Delete(0, {IMAGE}), b);
    assert [Delete(0, {IMAGE})][1..] == [];
    assert Run(Listed(b), [Delete(0, {IMAGE})], b) == s;
    assert IMAGE in s.commits[0].keys;
    assert IMAGE in Rows(s.commits) && IMAGE !in s.store;
  }

  /**
   The grace period is exactly what makes reconciliation safe: in every interleaving every committed
   image keeps its object, if and only if the longest upload-to-commit delay plus the longest
   reference read is below the grace period.
   */
  lemma SafeExactlyWithinTheGrace(b: Bounds)
    ensures (forall steps: seq<Step> :: Safe(Run(START, steps, b))) <==> b.uploadBound + b.readBound < b.grace
  {
    if Within(b) {
      forall steps: seq<Step> ensures Safe(Run(START, steps, b)) {
        StartHasInv(b);
        RunKeepsInv(START, steps, b);
      }
    } else {
      SlowRunLosesAnImage(b);
    }
  }
}
