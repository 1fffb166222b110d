/** A submission with images, effect by effect: upload in order, create, and compensate what did not commit. */
module ImageSubmission {
  import opened Domain
  import opened StorageKeys
  import opened ImageProtocol
  import ImageSafety

  /** Storage's reply to a put; a rejected put may have stored the object all the same. */
  datatype PutReply = Stored | PutRejected(stored: bool)

  datatype Outcome = Created | Replayed | Conflicted | UploadFailed | DatabaseFailed

  /** The store after putting these objects at one instant. */
  function WithObjects(store: map<Key, int>, keys: seq<Key>, now: int): map<Key, int> {
    map k | k in store.Keys + KeySet(keys) :: if k in keys then now else store[k]
  }

  /** How many objects are stored before the first rejected put, and how many are in the store after it. */
  function StoredBefore(replies: seq<PutReply>): (n: nat)
    ensures n <= |replies|
  {
    if replies == [] || replies[0].PutRejected? then 0 else 1 + StoredBefore(replies[1..])
  }

  function Tried(replies: seq<PutReply>): (n: nat)
    ensures n <= |replies|
  {
    var n := StoredBefore(replies);
    if n < |replies| && replies[n].PutRejected? && replies[n].stored then n + 1 else n
  }

  lemma {:induction false} StopsAt(replies: seq<PutReply>, n: nat)
    requires n <= |replies| && (n < |replies| ==> replies[n].PutRejected?)
    requires forall j | 0 <= j < n :: replies[j].Stored?
    ensures StoredBefore(replies) == n
  {
    if n > 0 {
      StopsAt(replies[1..], n - 1);
    }
  }

  lemma {:induction false} AllStored(replies: seq<PutReply>)
    ensures StoredBefore(replies) == |replies| <==> forall r | r in replies :: r.Stored?
    ensures StoredBefore(replies) < |replies| ==> replies[StoredBefore(replies)].PutRejected?
  {
    if replies != [] {
      AllStored(replies[1..]);
      assert replies[0] in replies;
      assert forall r | r in replies[1..] :: r in replies;
      assert forall r | r in replies :: r == replies[0] || r in replies[1..];
    }
  }

  lemma NothingPutYet(store: map<Key, int>, keys: seq<Key>, now: int)
    ensures WithObjects(store, keys[..0], now) == store
  {
  }

  lemma OneMoreObject(store: map<Key, int>, keys: seq<Key>, i: nat, now: int)
    requires i < |keys|
    ensures WithObjects(store, keys[..i + 1], now) == WithObjects(store, keys[..i], now)[keys[i] := now]
  {
    assert keys[..i + 1] == keys[..i] + [keys[i]];
  }

  function CommitOf(at: Attempt): Commit {
    Commit(at.customer, at.submission, at.fingerprint, at.keys)
  }

  /** The store after a submission that did not commit: what it put, less what its compensation deleted. */
  function Compensated(store: map<Key, int>, keys: seq<Key>, replies: seq<PutReply>, now: int,
                       undeletable: set<Key>): map<Key, int>
    requires |replies| == |keys|
  {
    WithObjects(store, keys[..Tried(replies)], now) - (KeySet(keys[..StoredBefore(replies)]) - undeletable)
  }

  /**
   Compensation of fresh keys touches no earlier object, and leaves behind only the objects whose
   deletion failed and the one whose put was rejected although it stored.
   */
  lemma CompensationLeaves(store: map<Key, int>, keys: seq<Key>, replies: seq<PutReply>, now: int,
                           undeletable: set<Key>)
    requires |replies| == |keys| && store.Keys !! KeySet(keys)
    ensures var left := Compensated(store, keys, replies, now, undeletable);
      && (forall k | k in store :: k in left && left[k] == store[k])
      && (Tried(replies) == StoredBefore(replies) ==> left.Keys <= store.Keys + undeletable)
      && (Tried(replies) > StoredBefore(replies) ==>
        left.Keys <= store.Keys + undeletable + {keys[StoredBefore(replies)]})
  {
    var n := StoredBefore(replies);
    forall k | k in keys[..Tried(replies)] ensures k in KeySet(keys) {
    }
    assert forall k | k in keys[..Tried(replies)] :: k in keys[..n] || (n < Tried(replies) && k == keys[n]);
  }

  function PutStep(a: nat, reply: PutReply): Step {
    if reply.Stored? then Put(a) else PutFails(a, reply.stored)
  }

  class RequestImageService {
    var now: int
    var store: map<Key, int>
    var commits: seq<Commit>
    var attempts: map<nat, Attempt>
    const runs: map<nat, Reconciliation>
    const used: set<Key>
    const bounds: Bounds

    function State(): System
      reads this
    {
      System(now, store, commits, attempts, runs, used)
    }

    constructor (s: System, bounds: Bounds)
      ensures State() == s && this.bounds == bounds
    {
      now, store, commits, attempts := s.now, s.store, s.commits, s.attempts;
      runs, used, this.bounds := s.runs, s.used, bounds;
    }

    method PutObject(a: nat, reply: PutReply)
      requires Open(State(), a) && attempts[a].uploaded < |attempts[a].keys|
      modifies this`store, this`attempts
      ensures State() == Next(old(State()), PutStep(a, reply), bounds)
      ensures a in attempts && CommitOf(attempts[a]) == CommitOf(old(attempts[a]))
      ensures attempts[a].uploaded == old(attempts[a].uploaded) + if reply.Stored? then 1 else 0
      ensures attempts[a].phase == if reply.Stored? then Uploading else Compensating(Failure)
      ensures store == if reply.Stored? || reply.stored then
        old(store)[old(ImageSafety.NextKey(State(), a)) := now] else old(store)
    {
      var at := attempts[a];
      var key := at.keys[at.uploaded];
      if reply.Stored? {
        store := store[key := now];
        var since := if at.since.Some? then at.since else Some(now);
        attempts := attempts[a := at.(uploaded := at.uploaded + 1, since := since)];
      } else {
        if reply.stored { store := store[key := now]; }
        attempts := attempts[a := at.(phase := Compensating(Failure))];
      }
    }

    /** Puts the objects in order and stops at the first rejected put, after `n` stored ones. */
    method PutInOrder(a: nat, replies: seq<PutReply>) returns (n: nat, ghost steps: seq<Step>)
      requires Open(State(), a) && attempts[a].uploaded == 0
      requires |replies| == |attempts[a].keys|
      modifies this`store, this`attempts
      ensures State() == ImageProtocol.Run(old(State()), steps, bounds)
      ensures n == StoredBefore(replies)
      ensures a in attempts && CommitOf(attempts[a]) == CommitOf(old(attempts[a])) && attempts[a].uploaded == n
      ensures attempts[a].phase == if n == |replies| then Uploading else Compensating(Failure)
      ensures store == WithObjects(old(store), old(attempts[a].keys)[..Tried(replies)], now)
    {
      ghost var keys, was := attempts[a].keys, State();
      n, steps := 0, [];
      hide ImageProtocol.Run, Next, WithObjects, PutStep, KeySet;
      NothingRunYet(was, bounds);
      NothingPutYet(store, keys, now);
      while n < |replies|
        invariant n <= |replies| && Open(State(), a)
        invariant attempts[a].uploaded == n && CommitOf(attempts[a]) == CommitOf(old(attempts[a]))
        invariant store == WithObjects(old(store), keys[..n], now)
        invariant forall j | 0 <= j < n :: replies[j].Stored?
        invariant State() == ImageProtocol.Run(was, steps, bounds)
      {
        OneMoreObject(old(store), keys, n, now);
        Append(was, steps, PutStep(a, replies[n]), bounds);
        steps := steps + [PutStep(a, replies[n])];
        PutObject(a, replies[n]);
        if replies[n].PutRejected? {
          StopsAt(replies, n);
          return;
        }
        n := n + 1;
      }
      StopsAt(replies, n);
    }

    /** The uploaded keys, and whether all of them are. */
    method Upload(a: nat, replies: seq<PutReply>) returns (ok: bool, uploaded: seq<Key>, ghost steps: seq<Step>)
      requires Open(State(), a) && attempts[a].uploaded == 0
      requires |replies| == |attempts[a].keys|
      modifies this`store, this`attempts
      ensures State() == ImageProtocol.Run(old(State()), steps, bounds)
      ensures ok <==> forall r | r in replies :: r.Stored?
      ensures a in attempts && uploaded == UploadedKeys(attempts[a])
        && CommitOf(attempts[a]) == CommitOf(old(attempts[a]))
      ensures if ok then Open(State(), a) && attempts[a].uploaded == |attempts[a].keys|
              else attempts[a].phase == Compensating(Failure)
      ensures |uploaded| == StoredBefore(replies)
      ensures store == WithObjects(old(store), old(attempts[a].keys)[..Tried(replies)], now)
    {
      hide ImageProtocol.Run, Next, WithObjects, PutStep, KeySet;
      var n;
      n, steps := PutInOrder(a, replies);
      ok, uploaded := n == |replies|, attempts[a].keys[..n];
      AllStored(replies);
    }

    /** The deletion removes some of the uploaded objects, none when it fails. */
    method DeleteBestEffort(a: nat, uploaded: seq<Key>, deleted: set<Key>)
      requires a in attempts && attempts[a].phase.Compensating?
      requires uploaded == UploadedKeys(attempts[a]) && deleted <= KeySet(uploaded)
      modifies this`store, this`attempts
      ensures State() == Next(old(State()), Compensate(a, deleted), bounds)
      ensures store == old(store) - deleted
      ensures a in attempts && attempts[a].phase.Done?
    {
      if |uploaded| > 0 {
        store := store - deleted;
      }
      attempts := attempts[a := attempts[a].(phase := Done)];
    }

    /** The create transaction's verdict on the idempotency key, and its insert. */
    method Create(a: nat) returns (outcome: Outcome)
      requires Open(State(), a) && attempts[a].uploaded == |attempts[a].keys|
      modifies this`commits, this`attempts
      ensures State() == Next(old(State()), TryCommit(a), bounds)
      ensures outcome.Created? || outcome.Replayed? || outcome.Conflicted?
      ensures outcome.Created? <==> forall c | c in old(commits) ::
        c.customer != old(attempts[a].customer) || c.submission != old(attempts[a].submission)
      ensures commits == old(commits) + if outcome.Created? then [CommitOf(old(attempts[a]))] else []
      ensures outcome.Replayed? ==> exists c | c in commits ::
        c.customer == old(attempts[a].customer) && c.submission == old(attempts[a].submission)
          && c.fingerprint == old(attempts[a].fingerprint)
      ensures outcome.Conflicted? ==> exists c | c in commits ::
        c.customer == old(attempts[a].customer) && c.submission == old(attempts[a].submission)
          && c.fingerprint != old(attempts[a].fingerprint)
      ensures a in attempts && attempts[a].keys == old(attempts[a].keys) && attempts[a].uploaded == |attempts[a].keys|
      ensures if outcome.Created? then attempts[a].phase.Done? else attempts[a].phase.Compensating?
    {
      var at := attempts[a];
      ImageSafety.NoCommitFound(commits, at.customer, at.submission);
      var i := 0;
      while i < |commits| && !(commits[i].customer == at.customer && commits[i].submission == at.submission)
        invariant i <= |commits|
        invariant FindCommit(commits, at.customer, at.submission) ==
          FindCommit(commits[i..], at.customer, at.submission)
        invariant forall j | 0 <= j < i :: commits[j].customer != at.customer || commits[j].submission != at.submission
      {
        assert commits[i..][1..] == commits[i + 1..];
        i := i + 1;
      }
      if i == |commits| {
        commits := commits + [Commit(at.customer, at.submission, at.fingerprint, at.keys)];
        attempts := attempts[a := at.(phase := Done)];
        outcome := Created;
      } else {
        assert commits[i] in commits;
        var same := commits[i].fingerprint == at.fingerprint;
        attempts := attempts[a := at.(phase := Compensating(if same then Replay else Conflict))];
        outcome := if same then Replayed else Conflicted;
      }
    }

    /**
     The whole submission.  It is a run of the protocol, so everything proved of every interleaving
     holds of it; it commits exactly when it reports so, and otherwise leaves behind at most the
     objects whose deletion failed and the one whose put was rejected after storing.
     */
    method CreateWithImages(a: nat, replies: seq<PutReply>, databaseFails: bool, undeletable: set<Key>)
      returns (outcome: Outcome, ghost steps: seq<Step>)
      requires Open(State(), a) && attempts[a].uploaded == 0 && |replies| == |attempts[a].keys|
      modifies this`store, this`attempts, this`commits
      ensures State() == ImageProtocol.Run(old(State()), steps, bounds)
      ensures commits == old(commits) + if outcome.Created? then [CommitOf(old(attempts[a]))] else []
      ensures outcome.Created? ==>
        store == WithObjects(old(store), old(attempts[a].keys), now)
      ensures outcome.UploadFailed? <==> exists r | r in replies :: r.PutRejected?
      ensures outcome.DatabaseFailed? <==> databaseFails && forall r | r in replies :: r.Stored?
      ensures !outcome.Created? ==>
        store == Compensated(old(store), old(attempts[a].keys), replies, now, undeletable)
      ensures a in attempts && attempts[a].phase.Done?
    {
      ghost var was, keys := State(), attempts[a].keys;
      hide ImageProtocol.Run, Next, WithObjects, KeySet;
      var ok, uploaded;
      ok, uploaded, steps := Upload(a, replies);
      AllStored(replies);
      assert ok ==> keys[..Tried(replies)] == keys;
      if !ok {
        outcome := UploadFailed;
      } else if databaseFails {
        outcome := DatabaseFailed;
        Append(was, steps, Reject(a), bounds);
        steps := steps + [Reject(a)];
        attempts := attempts[a := attempts[a].(phase := Compensating(Failure))];
      } else {
        Append(was, steps, TryCommit(a), bounds);
        steps := steps + [TryCommit(a)];
        outcome := Create(a);
      }
      if !outcome.Created? {
        var deleted := KeySet(uploaded) - undeletable;
        Append(was, steps, Compensate(a, deleted), bounds);
        steps := steps + [Compensate(a, deleted)];
        DeleteBestEffort(a, uploaded, deleted);
        assert uploaded == keys[..|uploaded|];
      }
    }
  }

  lemma NothingRunYet(s: System, b: Bounds)
    ensures ImageProtocol.Run(s, [], b) == s
  {
  }

  lemma Append(s: System, steps: seq<Step>, step: Step, b: Bounds)
    ensures ImageProtocol.Run(s, steps + [step], b) == Next(ImageProtocol.Run(s, steps, b), step, b)
  {
    ImageSafety.RunSplits(s, steps, [step], b);
    assert [step][1..] == [];
  }
}
