/**
 Orphan reconciliation, its three loops against arbitrary replies of the database and of storage:
 read the reference set, list storage, delete in batches.  A reply may be anything, a failure
 included; the database's reply says how long it took.
 */
module Reconciler {
  import opened Domain
  import opened StorageKeys

  const DEFAULT_ORPHAN_GRACE_MS := 24 * 60 * 60 * 1000
  const DEFAULT_DELETE_BATCH_SIZE := 100
  const MAX_PAGE_SIZE := 1000
  const MAX_REFERENCED_KEYS := 1_000_000
  const MAX_LIST_PAGES := 200
  const MAX_DB_PAGES := 10_000

  /** An empty `nextAfter` or `nextToken` is an absent one. */
  datatype DbReply = DbPage(keys: seq<Key>, nextAfter: Key, took: nat) | DbFails
  datatype Item = Item(key: Key, lastModified: int)
  datatype ListReply = ListPage(items: seq<Item>, isTruncated: bool, nextToken: string) | ListFails

  /** The environment: the reply to the i-th call with that cursor. */
  type Lister = (nat, Option<Key>) -> DbReply
  type Storage = (nat, Option<string>) -> ListReply

  datatype Failure = ReadFailed | TooManyReferences | NoProgress | ListFailed | DeleteFailed

  datatype Report = Report(listed: nat, referenced: nat, referencedObjects: nat, recentOrphans: nat, orphans: nat,
                           deleted: nat, failures: nat, truncated: bool, errors: seq<Failure>)

  // ---------------------------------------------------------------- phase 1: what was read

  function AfterAt(db: Lister, i: nat): Option<Key> {
    if i == 0 then None
    else
      var page := db(i - 1, AfterAt(db, i - 1));
      if page.DbPage? then Some(page.nextAfter) else None
  }

  function PageAt(db: Lister, i: nat): DbReply {
    db(i, AfterAt(db, i))
  }

  function KeysUnder(keys: seq<Key>, prefix: Key): set<Key> {
    set k | k in keys && prefix <= k
  }

  /** The referenced keys after the first `n` pages. */
  function Collected(db: Lister, prefix: Key, n: nat): set<Key> {
    if n == 0 then {}
    else
      var page := PageAt(db, n - 1);
      Collected(db, prefix, n - 1) + if page.DbPage? then KeysUnder(page.keys, prefix) else {}
  }

  function ReadTime(db: Lister, n: nat): nat {
    if n == 0 then 0
    else
      var page := PageAt(db, n - 1);
      ReadTime(db, n - 1) + if page.DbPage? then page.took else 0
  }

  predicate Continues(page: DbReply) {
    page.DbPage? && page.nextAfter != ""
  }

  /** The n-th page, and no earlier one, says that nothing follows. */
  predicate EndsAt(db: Lister, n: nat) {
    && n < MAX_DB_PAGES
    && (forall i: nat | i < n :: Continues(PageAt(db, i)))
    && PageAt(db, n).DbPage? && PageAt(db, n).nextAfter == ""
  }

  lemma {:induction false} CollectedGrows(db: Lister, prefix: Key, m: nat, n: nat)
    requires m <= n
    ensures Collected(db, prefix, m) <= Collected(db, prefix, n)
    decreases n
  {
    if m < n {
      CollectedGrows(db, prefix, m, n - 1);
    }
  }

  /** The read reaches its end within both bounds. */
  ghost predicate Readable(db: Lister, prefix: Key) {
    exists n: nat :: EndsAt(db, n) && |Collected(db, prefix, n + 1)| <= MAX_REFERENCED_KEYS
  }

  /** After this page the read goes on: it says so, and the set is within its bound. */
  ghost predicate Passed(db: Lister, prefix: Key, i: nat) {
    Continues(PageAt(db, i)) && |Collected(db, prefix, i + 1)| <= MAX_REFERENCED_KEYS
  }

  lemma PassesOn(db: Lister, prefix: Key, i: nat)
    requires Continues(PageAt(db, i)) && |Collected(db, prefix, i + 1)| <= MAX_REFERENCED_KEYS
    ensures Passed(db, prefix, i)
  {
  }

  lemma NothingReadYet(db: Lister, prefix: Key)
    ensures Collected(db, prefix, 0) == {} && ReadTime(db, 0) == 0 && AfterAt(db, 0) == None
  {
  }

  lemma ReadOneMore(db: Lister, prefix: Key, n: nat, page: DbReply)
    requires page == PageAt(db, n)
    ensures page.DbPage? ==> Collected(db, prefix, n + 1) == Collected(db, prefix, n) + KeysUnder(page.keys, prefix)
    ensures page.DbPage? ==>
      ReadTime(db, n + 1) == ReadTime(db, n) + page.took && AfterAt(db, n + 1) == Some(page.nextAfter)
    ensures Continues(page) <==> page.DbPage? && page.nextAfter != ""
    ensures (&& n < MAX_DB_PAGES && (forall i: nat | i < n :: Continues(PageAt(db, i)))
             && page.DbPage? && page.nextAfter == "") ==> EndsAt(db, n)
  {
  }

  /** Too many references in some prefix of the read are too many in all of it. */
  lemma TooManyStaysTooMany(db: Lister, prefix: Key, pages: nat)
    requires pages > 0 && |Collected(db, prefix, pages)| > MAX_REFERENCED_KEYS
    requires forall i: nat | i < pages - 1 :: Continues(PageAt(db, i))
    ensures !Readable(db, prefix)
  {
    hide Collected, PageAt;
    forall n: nat | EndsAt(db, n) ensures |Collected(db, prefix, n + 1)| > MAX_REFERENCED_KEYS {
      assert n + 1 >= pages;
      CollectedGrows(db, prefix, pages, n + 1);
      SubsetSize(Collected(db, prefix, pages), Collected(db, prefix, n + 1));
    }
  }

  lemma ReachesItsEnd(db: Lister, prefix: Key, pages: nat)
    requires pages > 0 && EndsAt(db, pages - 1) && |Collected(db, prefix, pages)| <= MAX_REFERENCED_KEYS
    ensures Readable(db, prefix)
  {
    hide Collected;
    var n: nat := pages - 1;
    assert EndsAt(db, n) && |Collected(db, prefix, n + 1)| <= MAX_REFERENCED_KEYS;
  }

  lemma StopsShort(db: Lister, prefix: Key, pages: nat)
    requires pages == MAX_DB_PAGES || (pages < MAX_DB_PAGES && PageAt(db, pages).DbFails?)
    requires forall i: nat | i < pages :: Continues(PageAt(db, i))
    ensures !Readable(db, prefix)
  {
    hide Collected, PageAt;
  }

  /** A key is in the reference set exactly when it is under the prefix and on some page read. */
  lemma {:induction false} CollectedMeans(db: Lister, prefix: Key, n: nat, k: Key)
    ensures k in Collected(db, prefix, n) <==>
      prefix <= k && exists i: nat | i < n :: PageAt(db, i).DbPage? && k in PageAt(db, i).keys
  {
    if n > 0 {
      CollectedMeans(db, prefix, n - 1, k);
    }
  }

  /** Ten thousand pages and a million keys are the bounds of a readable reference set. */
  lemma ReadableInFigures(db: Lister, prefix: Key)
    ensures Readable(db, prefix) <==> exists n: nat | n < 10_000 ::
      && (forall i: nat | i < n :: PageAt(db, i).DbPage? && PageAt(db, i).nextAfter != "")
      && PageAt(db, n).DbPage? && PageAt(db, n).nextAfter == ""
      && |Collected(db, prefix, n + 1)| <= 1_000_000
  {
    hide Collected, PageAt;
    forall n: nat | n < 10_000 && (forall i: nat | i < n :: PageAt(db, i).DbPage? && PageAt(db, i).nextAfter != "")
      && PageAt(db, n).DbPage? && PageAt(db, n).nextAfter == ""
      ensures EndsAt(db, n)
    {
    }
  }

  // ---------------------------------------------------------------- phase 2: what was listed

  function TokenAt(storage: Storage, i: nat): Option<string> {
    if i == 0 then None
    else
      var page := storage(i - 1, TokenAt(storage, i - 1));
      if page.ListPage? then Some(page.nextToken) else None
  }

  function ListedAt(storage: Storage, i: nat): ListReply {
    storage(i, TokenAt(storage, i))
  }

  predicate More(page: ListReply) {
    page.ListPage? && page.isTruncated && page.nextToken != ""
  }

  function ItemsUnder(items: seq<Item>, prefix: Key): seq<Item> {
    if items == [] then []
    else
      var front := ItemsUnder(items[..|items| - 1], prefix);
      var last := items[|items| - 1];
      if prefix <= last.key then front + [last] else front
  }

  /** The objects examined on the first `n` pages. */
  function Listing(storage: Storage, prefix: Key, n: nat): seq<Item> {
    if n == 0 then []
    else
      var page := ListedAt(storage, n - 1);
      Listing(storage, prefix, n - 1) + if page.ListPage? then ItemsUnder(page.items, prefix) else []
  }

  lemma ListOneMore(storage: Storage, prefix: Key, n: nat, page: ListReply)
    requires page == storage(n, TokenAt(storage, n))
    ensures page == ListedAt(storage, n)
    ensures page.ListPage? ==>
      Listing(storage, prefix, n + 1) == Listing(storage, prefix, n) + ItemsUnder(page.items, prefix)
    ensures page.ListPage? ==> TokenAt(storage, n + 1) == Some(page.nextToken)
    ensures More(page) <==> page.ListPage? && page.isTruncated && page.nextToken != ""
  {
  }

  predicate IsOrphan(item: Item, referenced: set<Key>, threshold: int) {
    item.key !in referenced && item.lastModified <= threshold
  }

  function OrphansOf(items: seq<Item>, referenced: set<Key>, threshold: int): seq<Key> {
    if items == [] then []
    else
      var front, last := OrphansOf(items[..|items| - 1], referenced, threshold), items[|items| - 1];
      if IsOrphan(last, referenced, threshold) then front + [last.key] else front
  }

  function ReferencedIn(items: seq<Item>, referenced: set<Key>): nat {
    if items == [] then 0
    else ReferencedIn(items[..|items| - 1], referenced) + if items[|items| - 1].key in referenced then 1 else 0
  }

  function RecentIn(items: seq<Item>, referenced: set<Key>, threshold: int): nat {
    if items == [] then 0
    else
      var last := items[|items| - 1];
      RecentIn(items[..|items| - 1], referenced, threshold) + if last.key !in referenced
        && last.lastModified > threshold then 1 else 0
  }

  /** The four results of sorting these objects into kinds. */
  ghost predicate Tallied(items: seq<Item>, referenced: set<Key>, threshold: int,
                          orphans: seq<Key>, listed: nat, referencedObjects: nat, recentOrphans: nat) {
    && orphans == OrphansOf(items, referenced, threshold)
    && listed == |items|
    && referencedObjects == ReferencedIn(items, referenced)
    && recentOrphans == RecentIn(items, referenced, threshold)
  }

  lemma NothingListedYet(storage: Storage, prefix: Key, referenced: set<Key>, threshold: int)
    ensures Listing(storage, prefix, 0) == [] && TokenAt(storage, 0) == None
    ensures Tallied([], referenced, threshold, [], 0, 0, 0)
  {
  }

  /** Every examined object is referenced, recent or an orphan, and only one of these. */
  lemma {:induction false} ListingIsPartitioned(items: seq<Item>, referenced: set<Key>, threshold: int)
    ensures ReferencedIn(items, referenced) + RecentIn(items, referenced, threshold)
            + |OrphansOf(items, referenced, threshold)| == |items|
  {
    if items != [] {
      ListingIsPartitioned(items[..|items| - 1], referenced, threshold);
    }
  }

  function KnownOnes(items: seq<Item>, referenced: set<Key>): set<nat> {
    set i: nat | i < |items| && items[i].key in referenced
  }

  function RecentOnes(items: seq<Item>, referenced: set<Key>, threshold: int): set<nat> {
    set i: nat | i < |items| && items[i].key !in referenced && items[i].lastModified > threshold
  }

  lemma OneMoreKnown(items: seq<Item>, item: Item, referenced: set<Key>)
    ensures |KnownOnes(items + [item], referenced)| ==
      |KnownOnes(items, referenced)| + if item.key in referenced then 1 else 0
  {
    assert KnownOnes(items + [item], referenced) ==
      KnownOnes(items, referenced) + if item.key in referenced then {|items|} else {};
  }

  lemma OneMoreRecent(items: seq<Item>, item: Item, referenced: set<Key>, threshold: int)
    ensures |RecentOnes(items + [item], referenced, threshold)| ==
      |RecentOnes(items, referenced, threshold)|
        + if item.key !in referenced && item.lastModified > threshold then 1 else 0
  {
    assert RecentOnes(items + [item], referenced, threshold) ==
      RecentOnes(items, referenced, threshold)
        + if item.key !in referenced && item.lastModified > threshold then {|items|} else {};
  }

  lemma NothingCounted(referenced: set<Key>, threshold: int)
    ensures |KnownOnes([], referenced)| == 0 && |RecentOnes([], referenced, threshold)| == 0
  {
    assert KnownOnes([], referenced) == {} && RecentOnes([], referenced, threshold) == {};
  }

  /** The two counts of a tally are the numbers of objects of their kind. */
  lemma {:induction false} CountsMean(items: seq<Item>, referenced: set<Key>, threshold: int)
    ensures ReferencedIn(items, referenced) == |KnownOnes(items, referenced)|
    ensures RecentIn(items, referenced, threshold) == |RecentOnes(items, referenced, threshold)|
  {
    hide KnownOnes, RecentOnes;
    if items == [] {
      NothingCounted(referenced, threshold);
    } else {
      var front, last := items[..|items| - 1], items[|items| - 1];
      CountsMean(front, referenced, threshold);
      OneMoreKnown(front, last, referenced);
      OneMoreRecent(front, last, referenced, threshold);
      assert items == front + [last];
    }
  }

  lemma {:induction false} OrphanMeaning(items: seq<Item>, referenced: set<Key>, threshold: int, k: Key)
    ensures k in OrphansOf(items, referenced, threshold) <==>
      exists i :: 0 <= i < |items| && items[i].key == k && k !in referenced && items[i].lastModified <= threshold
  {
    if items != [] {
      var n := |items| - 1;
      OrphanMeaning(items[..n], referenced, threshold, k);
      if i :| 0 <= i < |items| && items[i].key == k && IsOrphan(items[i], referenced, threshold) {
        assert i < n ==> items[..n][i] == items[i];
      }
    }
  }

  /** A listing that names each object once yields each orphan once. */
  lemma {:induction false} OrphansAreDistinct(items: seq<Item>, referenced: set<Key>, threshold: int)
    requires forall i, j | 0 <= i < j < |items| :: items[i].key != items[j].key
    ensures forall k :: multiset(OrphansOf(items, referenced, threshold))[k] <= 1
  {
    if items != [] {
      var n := |items| - 1;
      OrphansAreDistinct(items[..n], referenced, threshold);
      OrphanMeaning(items[..n], referenced, threshold, items[n].key);
    }
  }

  lemma {:induction false} ListingIsUnderPrefix(storage: Storage, prefix: Key, n: nat)
    ensures forall item | item in Listing(storage, prefix, n) :: prefix <= item.key
  {
    if n > 0 {
      ListingIsUnderPrefix(storage, prefix, n - 1);
      if ListedAt(storage, n - 1).ListPage? {
        ItemsAreUnderPrefix(ListedAt(storage, n - 1).items, prefix);
      }
    }
  }

  /** Exactly the objects under the prefix are examined. */
  lemma {:induction false} ItemsAreUnderPrefix(items: seq<Item>, prefix: Key)
    ensures forall item :: item in ItemsUnder(items, prefix) <==> item in items && prefix <= item.key
  {
    if items != [] {
      ItemsAreUnderPrefix(items[..|items| - 1], prefix);
      assert forall item :: item in items <==> item in items[..|items| - 1] || item == items[|items| - 1];
    }
  }

  // ---------------------------------------------------------------- phase 3: what was deleted

  function Batches(keys: seq<Key>, size: nat): seq<seq<Key>>
    requires size > 0
  {
    if keys == [] then []
    else if |keys| <= size then [keys]
    else [keys[..size]] + Batches(keys[size..], size)
  }

  function Flatten(batches: seq<seq<Key>>): seq<Key> {
    if batches == [] then [] else batches[0] + Flatten(batches[1..])
  }

  lemma {:induction false} BatchesFlatten(keys: seq<Key>, size: nat)
    requires size > 0
    ensures Flatten(Batches(keys, size)) == keys
    decreases |keys|
  {
    if |keys| > size {
      var rest := Batches(keys[size..], size);
      BatchesFlatten(keys[size..], size);
      FlattenCons(keys[..size], rest);
      assert keys == keys[..size] + keys[size..];
    } else if keys != [] {
      FlattenCons(keys, []);
    }
  }

  lemma FlattenCons(batch: seq<Key>, rest: seq<seq<Key>>)
    ensures Flatten([batch] + rest) == batch + Flatten(rest)
  {
    assert ([batch] + rest)[1..] == rest;
  }

  lemma {:induction false} BatchesAreBounded(keys: seq<Key>, size: nat)
    requires size > 0
    ensures forall batch | batch in Batches(keys, size) :: 0 < |batch| <= size
    ensures forall i | 0 <= i < |Batches(keys, size)| - 1 :: |Batches(keys, size)[i]| == size
    decreases |keys|
  {
    if |keys| > size {
      BatchesAreBounded(keys[size..], size);
    }
  }

  /** Deletion in batches tries every key exactly once, in order, in batches that are full but for the last. */
  lemma BatchesPartition(keys: seq<Key>, size: nat)
    requires size > 0
    ensures Flatten(Batches(keys, size)) == keys
    ensures forall batch | batch in Batches(keys, size) :: 0 < |batch| <= size
    ensures forall i | 0 <= i < |Batches(keys, size)| - 1 :: |Batches(keys, size)[i]| == size
  {
    BatchesFlatten(keys, size);
    BatchesAreBounded(keys, size);
  }

  /** How many keys the successful batches hold, and how many batches fail, from batch number `first` on. */
  function DeletedBy(batches: seq<seq<Key>>, succeeds: nat -> bool, first: nat): nat {
    if batches == [] then 0
    else (if succeeds(first) then |batches[0]| else 0) + DeletedBy(batches[1..], succeeds, first + 1)
  }

  function FailedBatches(batches: seq<seq<Key>>, succeeds: nat -> bool, first: nat): nat {
    if batches == [] then 0
    else (if succeeds(first) then 0 else 1) + FailedBatches(batches[1..], succeeds, first + 1)
  }

  /** One batch counts its keys when it succeeds, or one failure. */
  lemma OneBatchCounts(batch: seq<Key>, succeeds: nat -> bool, number: nat)
    ensures DeletedBy([batch], succeeds, number) == if succeeds(number) then |batch| else 0
    ensures FailedBatches([batch], succeeds, number) == if succeeds(number) then 0 else 1
  {
    assert [batch][1..] == [];
  }

  lemma CountFirstBatch(batch: seq<Key>, rest: seq<seq<Key>>, succeeds: nat -> bool, number: nat)
    ensures DeletedBy([batch] + rest, succeeds, number) ==
      (if succeeds(number) then |batch| else 0) + DeletedBy(rest, succeeds, number + 1)
    ensures FailedBatches([batch] + rest, succeeds, number) ==
      (if succeeds(number) then 0 else 1) + FailedBatches(rest, succeeds, number + 1)
  {
    assert ([batch] + rest)[1..] == rest;
  }

  /** The counts add up over any cut of the batches. */
  lemma {:induction false} CountsAddUp(a: seq<seq<Key>>, b: seq<seq<Key>>, succeeds: nat -> bool, first: nat)
    ensures DeletedBy(a + b, succeeds, first) == DeletedBy(a, succeeds, first) + DeletedBy(b, succeeds, first + |a|)
    ensures FailedBatches(a + b, succeeds, first) ==
      FailedBatches(a, succeeds, first) + FailedBatches(b, succeeds, first + |a|)
    decreases |a|
  {
    hide DeletedBy, FailedBatches;
    if a == [] {
      assert a + b == b;
      NoBatches([], 1, succeeds, first);
    } else {
      CountsAddUp(a[1..], b, succeeds, first + 1);
      CountFirstBatch(a[0], a[1..], succeeds, first);
      CountFirstBatch(a[0], a[1..] + b, succeeds, first);
      assert a == [a[0]] + a[1..] && a + b == [a[0]] + (a[1..] + b);
    }
  }

  /** The sorted orphans' batches hold all of them, so no failed batch means all deleted. */
  lemma AllTriedOnce(orphans: seq<Key>, size: nat, succeeds: nat -> bool)
    requires size > 0
    ensures var batches := Batches(Sort(orphans), size);
      FailedBatches(batches, succeeds, 0) == 0 ==> DeletedBy(batches, succeeds, 0) == |orphans|
  {
    SortSorts(orphans);
    BatchesPartition(Sort(orphans), size);
    AllDeletedWhenAllSucceed(Batches(Sort(orphans), size), succeeds, 0);
    assert |Sort(orphans)| == |multiset(Sort(orphans))| == |orphans|;
  }

  /** The next batch of the loop, and what is left for the batches after it. */
  lemma FirstBatch(keys: seq<Key>, index: nat, end: nat, size: nat, succeeds: nat -> bool, number: nat)
    requires size > 0 && index < |keys|
    requires end == if index + size < |keys| then index + size else |keys|
    ensures Batches(keys[index..], size) == [keys[index..end]] + Batches(keys[end..], size)
    ensures DeletedBy(Batches(keys[index..], size), succeeds, number)
            == (if succeeds(number) then end - index else 0) +
              DeletedBy(Batches(keys[end..], size), succeeds, number + 1)
    ensures FailedBatches(Batches(keys[index..], size), succeeds, number)
            == (if succeeds(number) then 0 else 1) + FailedBatches(Batches(keys[end..], size), succeeds, number + 1)
  {
    var rest := keys[index..];
    assert rest[..end - index] == keys[index..end] && rest[end - index..] == keys[end..];
    assert |rest| <= size ==> rest[..end - index] == rest && keys[end..] == [];
    assert Batches(rest, size)[1..] == Batches(keys[end..], size);
  }

  lemma NoBatches(keys: seq<Key>, size: nat, succeeds: nat -> bool, number: nat)
    requires size > 0 && keys == []
    ensures Batches(keys, size) == []
    ensures DeletedBy([], succeeds, number) == 0 && FailedBatches([], succeeds, number) == 0
  {
  }

  lemma {:induction false} AllDeletedWhenAllSucceed(batches: seq<seq<Key>>, succeeds: nat -> bool, first: nat)
    ensures DeletedBy(batches, succeeds, first) <= |Flatten(batches)|
    ensures FailedBatches(batches, succeeds, first) == 0 ==> DeletedBy(batches, succeeds, first) == |Flatten(batches)|
    decreases |batches|
  {
    if batches != [] {
      AllDeletedWhenAllSucceed(batches[1..], succeeds, first + 1);
    }
  }

  function BoundedSize(value: Option<int>, fallback: nat): nat {
    if value.None? || value.value < 1 then fallback
    else if value.value < MAX_PAGE_SIZE then value.value
    else MAX_PAGE_SIZE
  }

  class RequestImageReconciler {
    const prefix: Key
    const gracePeriodMs: nat
    const dryRun: bool
    const deleteBatchSize: nat
    var now: int
    /** Every batch this reconciler has asked storage to delete. */
    var deletions: seq<seq<Key>>

    constructor (prefix: Key, gracePeriodMs: Option<nat>, dryRun: bool, deleteBatchSize: Option<int>, now: int)
      ensures this.prefix == prefix && this.dryRun == dryRun && this.now == now && deletions == []
      ensures this.gracePeriodMs == if gracePeriodMs.Some? then gracePeriodMs.value else 86_400_000
      ensures this.deleteBatchSize ==
        if deleteBatchSize.None? || deleteBatchSize.value < 1 then 100
        else if deleteBatchSize.value > 1000 then 1000
        else deleteBatchSize.value
    {
      this.prefix, this.dryRun, this.now, this.deletions := prefix, dryRun, now, [];
      this.gracePeriodMs := if gracePeriodMs.Some? then gracePeriodMs.value else DEFAULT_ORPHAN_GRACE_MS;
      this.deleteBatchSize := BoundedSize(deleteBatchSize, DEFAULT_DELETE_BATCH_SIZE);
    }

    /** The read succeeds exactly when it reaches a last page within both bounds. */
    method ReadReferences(db: Lister) returns (referenced: set<Key>, pages: nat, failure: Option<Failure>)
      modifies this`now
      ensures failure.None? <==> Readable(db, prefix)
      ensures failure.None? ==> pages > 0 && EndsAt(db, pages - 1)
      ensures forall i: nat | i + 1 < pages :: Passed(db, prefix, i)
      ensures failure == Some(ReadFailed) ==>
        && pages < MAX_DB_PAGES && PageAt(db, pages).DbFails?
        && (pages > 0 ==> Passed(db, prefix, pages - 1))
      ensures failure == Some(TooManyReferences) ==> |referenced| > MAX_REFERENCED_KEYS
      ensures failure == Some(NoProgress) ==> pages == MAX_DB_PAGES && forall i: nat | i < pages ::
        Continues(PageAt(db, i))
      ensures failure.None? || failure.value in {ReadFailed, TooManyReferences, NoProgress}
      ensures referenced == Collected(db, prefix, pages)
      ensures now == old(now) + ReadTime(db, pages)
    {
      hide Readable, Collected, ReadTime, AfterAt, EndsAt, Continues, Passed;
      NothingReadYet(db, prefix);
      referenced, pages, failure := {}, 0, None;
      var after: Option<Key> := None;
      while pages < MAX_DB_PAGES
        invariant pages <= MAX_DB_PAGES
        invariant referenced == Collected(db, prefix, pages) && |referenced| <= MAX_REFERENCED_KEYS
        invariant after == AfterAt(db, pages)
        invariant forall i: nat | i < pages :: Continues(PageAt(db, i)) && Passed(db, prefix, i)
        invariant now == old(now) + ReadTime(db, pages)
      {
        var page := db(pages, after);
        ReadOneMore(db, prefix, pages, page);
        if page.DbFails? {
          StopsShort(db, prefix, pages);
          failure := Some(ReadFailed);
          return;
        }
        now := now + page.took;
        referenced := AddUnder(referenced, page.keys, prefix);
        pages := pages + 1;
        if |referenced| > MAX_REFERENCED_KEYS {
          TooManyStaysTooMany(db, prefix, pages);
          failure := Some(TooManyReferences);
          return;
        }
        if page.nextAfter == "" {
          ReachesItsEnd(db, prefix, pages);
          return;
        }
        after := Some(page.nextAfter);
        PassesOn(db, prefix, pages - 1);
      }
      StopsShort(db, prefix, pages);
      failure := Some(NoProgress);
    }

    static method AddUnder(referenced: set<Key>, keys: seq<Key>, prefix: Key) returns (all: set<Key>)
      ensures all == referenced + KeysUnder(keys, prefix)
    {
      all := referenced;
      for i := 0 to |keys|
        invariant all == referenced + KeysUnder(keys[..i], prefix)
      {
        assert forall k :: k in keys[..i + 1] <==> k in keys[..i] || k == keys[i];
        if prefix <= keys[i] { all := all + {keys[i]}; }
      }
      assert keys[..|keys|] == keys;
    }

    /** Lists until the last page, a failure or the horizon, and sorts every object into one of three kinds. */
    method ListOrphans(storage: Storage, referenced: set<Key>, threshold: int)
      returns (orphans: seq<Key>, listed: nat, referencedObjects: nat, recentOrphans: nat, pages: nat, failed: bool,
        truncated: bool)
      ensures Tallied(Listing(storage, prefix, pages), referenced, threshold, orphans, listed, referencedObjects,
        recentOrphans)
      ensures pages <= MAX_LIST_PAGES && forall i: nat | i + 1 < pages :: More(ListedAt(storage, i))
      ensures failed <==>
        && pages < MAX_LIST_PAGES && ListedAt(storage, pages).ListFails?
        && (pages > 0 ==> More(ListedAt(storage, pages - 1)))
      ensures truncated <==> failed || (pages == 200 && More(ListedAt(storage, pages - 1)))
      ensures !truncated ==> pages > 0 && ListedAt(storage, pages - 1).ListPage? && !More(ListedAt(storage, pages - 1))
    {
      orphans, listed, referencedObjects, recentOrphans, pages, failed, truncated := [], 0, 0, 0, 0, false, false;
      var token: Option<string> := None;
      hide Tallied, Listing, TokenAt, More, ListedAt;
      NothingListedYet(storage, prefix, referenced, threshold);
      while pages < MAX_LIST_PAGES
        invariant pages <= MAX_LIST_PAGES && token == TokenAt(storage, pages)
        invariant forall i: nat | i < pages :: More(ListedAt(storage, i))
        invariant !failed && !truncated
        invariant Tallied(Listing(storage, prefix, pages), referenced, threshold, orphans, listed, referencedObjects,
          recentOrphans)
      {
        var page := storage(pages, token);
        ListOneMore(storage, prefix, pages, page);
        if page.ListFails? {
          failed, truncated := true, true;
          return;
        }
        orphans, listed, referencedObjects,
          recentOrphans := TallyPage(Listing(storage, prefix, pages), page.items, referenced, threshold,
                                                                       orphans, listed, referencedObjects,
                                                                         recentOrphans);
        pages := pages + 1;
        if !page.isTruncated || page.nextToken == "" { return; }
        token := Some(page.nextToken);
      }
      truncated := true;
    }

    /** The inner loop: one page's objects join the tally. */
    method TallyPage(ghost before: seq<Item>, page: seq<Item>, referenced: set<Key>, threshold: int,
                     orphans0: seq<Key>, listed0: nat, referencedObjects0: nat, recentOrphans0: nat)
      returns (orphans: seq<Key>, listed: nat, referencedObjects: nat, recentOrphans: nat)
      requires Tallied(before, referenced, threshold, orphans0, listed0, referencedObjects0, recentOrphans0)
      ensures Tallied(before + ItemsUnder(page, prefix), referenced, threshold, orphans, listed, referencedObjects,
        recentOrphans)
    {
      orphans, listed, referencedObjects, recentOrphans := orphans0, listed0, referencedObjects0, recentOrphans0;
      assert before + ItemsUnder(page[..0], prefix) == before;
      for i := 0 to |page|
        invariant Tallied(before + ItemsUnder(page[..i], prefix), referenced, threshold, orphans, listed,
          referencedObjects, recentOrphans)
      {
        var item := page[i];
        assert page[..i + 1][..i] == page[..i];
        if prefix <= item.key {
          ghost var items := before + ItemsUnder(page[..i], prefix);
          assert before + ItemsUnder(page[..i + 1], prefix) == items + [item];
          assert (items + [item])[..|items|] == items;
          listed := listed + 1;
          if item.key in referenced {
            referencedObjects := referencedObjects + 1;
          } else if item.lastModified > threshold {
            recentOrphans := recentOrphans + 1;
          } else {
            orphans := orphans + [item.key];
          }
        }
      }
      assert page[..|page|] == page;
    }

    /** Deletes exactly these keys, batch after batch, going on past a failed batch. */
    method DeleteInBatches(keys: seq<Key>, succeeds: nat -> bool) returns (deleted: nat, failures: nat)
      requires deleteBatchSize > 0
      modifies this`deletions
      ensures deletions == old(deletions) + Batches(keys, deleteBatchSize)
      ensures deleted == DeletedBy(Batches(keys, deleteBatchSize), succeeds, 0)
      ensures failures == FailedBatches(Batches(keys, deleteBatchSize), succeeds, 0)
    {
      hide Batches, DeletedBy, FailedBatches;
      deleted, failures := 0, 0;
      var index, number := 0, 0;
      assert keys[0..] == keys;
      while index < |keys|
        invariant index <= |keys|
        invariant deletions + Batches(keys[index..], deleteBatchSize) == old(deletions) + Batches(keys, deleteBatchSize)
        invariant deleted + DeletedBy(Batches(keys[index..], deleteBatchSize), succeeds, number)
                  == DeletedBy(Batches(keys, deleteBatchSize), succeeds, 0)
        invariant failures + FailedBatches(Batches(keys[index..], deleteBatchSize), succeeds, number)
                  == FailedBatches(Batches(keys, deleteBatchSize), succeeds, 0)
      {
        var end := if index + deleteBatchSize < |keys| then index + deleteBatchSize else |keys|;
        var batch := keys[index..end];
        FirstBatch(keys, index, end, deleteBatchSize, succeeds, number);
        deletions := deletions + [batch];
        if succeeds(number) { deleted := deleted + |batch|; } else { failures := failures + 1; }
        index, number := end, number + 1;
      }
      NoBatches(keys[index..], deleteBatchSize, succeeds, number);
    }

    /**
     A whole run.  Without a complete reference set nothing is deleted; otherwise the deletions are
     the sorted orphans, cut into batches, and none of them is referenced, recent or foreign.
     */
    method Reconcile(db: Lister, storage: Storage, succeeds: nat -> bool)
      returns (report: Report, referenced: set<Key>, dbPages: nat, listPages: nat)
      requires deleteBatchSize > 0
      modifies this`now, this`deletions
      ensures referenced == Collected(db, prefix, dbPages) && report.referenced == |referenced|
      ensures now == old(now) + ReadTime(db, dbPages)
      ensures !Readable(db, prefix) ==>
        deletions == old(deletions) && |report.errors| == 1
          && report == Report(0, |referenced|, 0, 0, 0, 0, 0, false, report.errors)
      ensures Readable(db, prefix) ==>
        var orphans := OrphansOf(Listing(storage, prefix, listPages), referenced, now - gracePeriodMs);
        && dbPages > 0 && EndsAt(db, dbPages - 1)
        && report.listed == |Listing(storage, prefix, listPages)|
        && report.listed == report.referencedObjects + report.recentOrphans + report.orphans
        && report.referencedObjects == ReferencedIn(Listing(storage, prefix, listPages), referenced)
        && report.recentOrphans ==
             RecentIn(Listing(storage, prefix, listPages), referenced, now - gracePeriodMs)
        && report.orphans == |orphans|
        && deletions == old(deletions) + (if dryRun then [] else Batches(Sort(orphans), deleteBatchSize))
        && report.deleted == (if dryRun then 0 else DeletedBy(Batches(Sort(orphans), deleteBatchSize), succeeds, 0))
        && |report.errors| == report.failures
        && (!dryRun && report.failures == 0 ==> report.deleted == report.orphans)
        && (!report.truncated ==>
              listPages > 0 && ListedAt(storage, listPages - 1).ListPage? && !More(ListedAt(storage, listPages - 1)))
    {
      hide Readable, Collected, EndsAt, ReadTime, Listing, OrphansOf, ListedAt, More;
      report := Report(0, 0, 0, 0, 0, 0, 0, false, []);
      var failure;
      listPages := 0;
      referenced, dbPages, failure := ReadReferences(db);
      report := report.(referenced := |referenced|);
      if failure.Some? {
        report := report.(errors := [failure.value]);
        return;
      }
      var threshold := now - gracePeriodMs;
      var orphans, listed, referencedObjects, recentOrphans, pages, failed,
        truncated := ListOrphans(storage, referenced, threshold);
      listPages := pages;
      assert listed == referencedObjects + recentOrphans + |orphans| by {
        ListingIsPartitioned(Listing(storage, prefix, pages), referenced, threshold);
      }
      report := Report(listed, |referenced|, referencedObjects, recentOrphans, |orphans|, 0, if failed then
        1 else 0, truncated,
                       if failed then [ListFailed] else []);
      if !dryRun && |orphans| > 0 {
        var deleted, failures := DeleteInBatches(Sort(orphans), succeeds);
        AllTriedOnce(orphans, deleteBatchSize, succeeds);
        report := report.(deleted := deleted, failures := report.failures + failures,
                          errors := report.errors + seq(failures, _ => DeleteFailed));
      }
    }
  }

  /** Every key a run asks storage to delete, in order. */
  function Tried(items: seq<Item>, referenced: set<Key>, threshold: int, size: nat): seq<Key>
    requires size > 0
  {
    Flatten(Batches(Sort(OrphansOf(items, referenced, threshold)), size))
  }

  lemma TriedAreTheOrphans(items: seq<Item>, referenced: set<Key>, threshold: int, size: nat)
    requires size > 0
    ensures multiset(Tried(items, referenced, threshold, size)) == multiset(OrphansOf(items, referenced, threshold))
    ensures Sorted(Tried(items, referenced, threshold, size))
  {
    hide OrphansOf, Sort, Batches, Flatten;
    SortSorts(OrphansOf(items, referenced, threshold));
    BatchesPartition(Sort(OrphansOf(items, referenced, threshold)), size);
  }

  ghost predicate ListedOrphan(items: seq<Item>, referenced: set<Key>, threshold: int, k: Key) {
    exists i :: 0 <= i < |items| && items[i].key == k && k !in referenced && items[i].lastModified <= threshold
  }

  /**
   What a run may delete: exactly the objects it listed under its prefix that no page it read
   references and that were last modified at least the grace period before the end of the read.
   */
  lemma DeletionsAreOrphans(items: seq<Item>, referenced: set<Key>, threshold: int, size: nat, k: Key)
    requires size > 0
    ensures k in Tried(items, referenced, threshold, size) <==> ListedOrphan(items, referenced, threshold, k)
  {
    hide OrphansOf, Sort, Batches, Flatten, Tried;
    TriedAreTheOrphans(items, referenced, threshold, size);
    OrphanMeaning(items, referenced, threshold, k);
    assert k in multiset(Tried(items, referenced, threshold, size)) <==>
      k in multiset(OrphansOf(items, referenced, threshold));
  }

  // ---------------------------------------------------------------- the lister

  /** The page the query returns from the table's keys in order; a limit is clamped to 1..1000. */
  function KeysBeyond(sorted: seq<Key>, after: Option<Key>): seq<Key> {
    if sorted == [] then []
    else if Beyond(sorted[0], after) then [sorted[0]] + KeysBeyond(sorted[1..], after)
    else KeysBeyond(sorted[1..], after)
  }

  function Bounded(limit: int): nat {
    var wanted := if limit == 0 then 500 else limit;
    if wanted < 1 then 1 else if wanted > 1000 then 1000 else wanted
  }

  function ListImageStorageKeys(sorted: seq<Key>, after: Option<Key>, limit: int): seq<Key> {
    var rows := KeysBeyond(sorted, after);
    if |rows| <= Bounded(limit) then rows else rows[..Bounded(limit)]
  }

  ghost predicate StrictlySorted(s: seq<Key>) {
    forall i, j | 0 <= i < j < |s| :: Less(s[i], s[j])
  }

  lemma {:induction false} BeyondIsFilter(sorted: seq<Key>, after: Option<Key>)
    requires StrictlySorted(sorted)
    ensures StrictlySorted(KeysBeyond(sorted, after))
    ensures forall k :: k in KeysBeyond(sorted, after) <==> k in sorted && Beyond(k, after)
  {
    if sorted != [] {
      BeyondIsFilter(sorted[1..], after);
      assert sorted == [sorted[0]] + sorted[1..];
      forall k | k in sorted[1..] ensures Less(sorted[0], k) {
        var i :| 0 <= i < |sorted[1..]| && sorted[1..][i] == k;
        assert sorted[i + 1] == k;
      }
    }
  }

  /** The lister returns a page: ascending, missing no row up to its last key, empty only at the end. */
  lemma ListedKeysArePage(sorted: seq<Key>, after: Option<Key>, limit: int)
    requires StrictlySorted(sorted)
    ensures IsPage((set k | k in sorted), after, ListImageStorageKeys(sorted, after, limit))
    ensures |ListImageStorageKeys(sorted, after, limit)| <= 1000
    ensures |KeysBeyond(sorted, after)| >= 1000 && limit == 0 ==> |ListImageStorageKeys(sorted, after, limit)| == 500
    ensures |KeysBeyond(sorted, after)| >= 1000 && limit != 0 ==>
      |ListImageStorageKeys(sorted, after, limit)| == if limit < 1 then 1 else if limit > 1000 then 1000 else limit
  {
    var rows := KeysBeyond(sorted, after);
    var page := ListImageStorageKeys(sorted, after, limit);
    BeyondIsFilter(sorted, after);
    forall k | k in sorted && Beyond(k, after) && !Beyond(k, LastOf(page, after)) ensures k in page {
      var i :| 0 <= i < |rows| && rows[i] == k;
      if i >= |page| {
        assert Less(rows[|page| - 1], rows[i]);
      }
    }
  }

  /** Reply `i` is a page of the rows as they are at that moment; no row has an empty key. */
  ghost predicate Faithful(db: Lister, rowsAt: nat -> set<Key>, i: nat) {
    var page := PageAt(db, i);
    page.DbPage? ==>
      && "" !in rowsAt(i)
      && IsPage(rowsAt(i), AfterAt(db, i), page.keys)
      && page.nextAfter == (if page.keys == [] then "" else page.keys[|page.keys| - 1])
  }

  lemma {:induction false} PagesCoverUpTo(db: Lister, prefix: Key, rowsAt: nat -> set<Key>, n: nat, k: Key)
    requires forall i: nat | i < n :: Continues(PageAt(db, i)) && Faithful(db, rowsAt, i)
    requires forall i: nat | i < n :: k in rowsAt(i)
    requires prefix <= k
    ensures k in Collected(db, prefix, n) || Beyond(k, AfterAt(db, n))
  {
    if n > 0 {
      PagesCoverUpTo(db, prefix, rowsAt, n - 1, k);
      assert Faithful(db, rowsAt, n - 1);
      assert AfterAt(db, n) == Some(PageAt(db, n - 1).nextAfter);
    }
  }

  /** A complete read misses no row committed before it began, however many are inserted meanwhile. */
  lemma CompleteReadCoversTheStart(db: Lister, prefix: Key, rowsAt: nat -> set<Key>, n: nat, k: Key)
    requires EndsAt(db, n)
    requires forall i: nat | i <= n :: Faithful(db, rowsAt, i)
    requires forall i: nat | i <= n :: rowsAt(0) <= rowsAt(i)
    requires k in rowsAt(0) && prefix <= k
    ensures k in Collected(db, prefix, n + 1)
  {
    PagesCoverUpTo(db, prefix, rowsAt, n, k);
    assert Faithful(db, rowsAt, n);
    assert PageAt(db, n).keys == [] ==> !Beyond(k, AfterAt(db, n));
  }

  /** So no row committed before a run began is ever deleted by it. */
  lemma NoCommittedRowIsDeleted(db: Lister, prefix: Key, rowsAt: nat -> set<Key>, n: nat, k: Key,
                                items: seq<Item>, threshold: int, size: nat)
    requires EndsAt(db, n) && size > 0
    requires forall i: nat | i <= n :: Faithful(db, rowsAt, i)
    requires forall i: nat | i <= n :: rowsAt(0) <= rowsAt(i)
    requires k in rowsAt(0) && prefix <= k
    ensures k !in Tried(items, Collected(db, prefix, n + 1), threshold, size)
  {
    CompleteReadCoversTheStart(db, prefix, rowsAt, n, k);
    DeletionsAreOrphans(items, Collected(db, prefix, n + 1), threshold, size, k);
  }
}
