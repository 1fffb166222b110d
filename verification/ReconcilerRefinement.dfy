/**
 A whole reconciliation, loop by loop, is a run of the two-store protocol, with any steps of others before
 each of its calls; so what is proved of every interleaving holds of it.
 */
module ReconcilerRefinement {
  import opened Domain
  import opened StorageKeys
  import opened ImageProtocol
  import opened Reconciler
  import ImageSafety

  // ---------------------------------------------------------------- runs of the protocol

  ghost predicate Leads(s: System, s': System, b: Bounds) {
    exists steps :: ImageProtocol.Run(s, steps, b) == s'
  }

  lemma LeadsNowhere(s: System, b: Bounds)
    ensures Leads(s, s, b)
  {
    assert ImageProtocol.Run(s, [], b) == s;
  }

  lemma LeadsBy(s: System, s': System, steps: seq<ImageProtocol.Step>, b: Bounds)
    requires Leads(s, s', b)
    ensures Leads(s, ImageProtocol.Run(s', steps, b), b)
  {
    var before :| ImageProtocol.Run(s, before, b) == s';
    ImageSafety.RunSplits(s, before, steps, b);
  }

  lemma LeadsOn(s: System, s': System, step: ImageProtocol.Step, b: Bounds)
    requires Leads(s, s', b)
    ensures Leads(s, Next(s', step, b), b)
  {
    LeadsBy(s, s', [step], b);
    assert [step][1..] == [];
    assert ImageProtocol.Run(s', [step], b) == Next(s', step, b);
  }

  /** A step that is not one of reconciliation `r`. */
  predicate Foreign(step: ImageProtocol.Step, r: nat) {
    match step
    case BeginRun(q) => q != r
    case ReadPage(q, _) => q != r
    case TakeThreshold(q) => q != r
    case ListObject(q, _) => q != r
    case Delete(q, _) => q != r
    case AbortRun(q) => q != r
    case _ => true
  }

  predicate AllForeign(steps: seq<ImageProtocol.Step>, r: nat) {
    forall step | step in steps :: Foreign(step, r)
  }

  lemma ForeignStepLeavesRun(s: System, step: ImageProtocol.Step, r: nat, b: Bounds)
    requires Foreign(step, r) && r in s.runs
    ensures r in Next(s, step, b).runs && Next(s, step, b).runs[r] == s.runs[r]
  {
  }

  lemma {:induction false} ForeignStepsLeaveRun(s: System, steps: seq<ImageProtocol.Step>, r: nat, b: Bounds)
    requires AllForeign(steps, r) && r in s.runs
    ensures r in ImageProtocol.Run(s, steps, b).runs && ImageProtocol.Run(s, steps, b).runs[r] == s.runs[r]
    decreases |steps|
  {
    if steps != [] {
      ForeignStepLeavesRun(s, steps[0], r, b);
      ForeignStepsLeaveRun(Next(s, steps[0], b), steps[1..], r, b);
    }
  }

  // ---------------------------------------------------------------- the setting of one reconciliation

  /** Where it starts, its number, its prefix, and what others do before each of its calls. */
  datatype Setting = Setting(start: System, r: nat, b: Bounds, prefix: Key,
                             beforeRead: nat -> seq<ImageProtocol.Step>, beforeThreshold: seq<ImageProtocol.Step>,
                             beforeList: nat -> seq<ImageProtocol.Step>, beforeDelete: nat -> seq<ImageProtocol.Step>)

  ghost predicate OthersAct(g: Setting) {
    && g.r !in g.start.runs
    && AllForeign(g.beforeThreshold, g.r)
    && (forall i: nat ::
          AllForeign(g.beforeRead(i), g.r) && AllForeign(g.beforeList(i), g.r) && AllForeign(g.beforeDelete(i), g.r))
  }

  // ---------------------------------------------------------------- phase 1

  /** The two stores just before the i-th page is read. */
  ghost function AtRead(g: Setting, db: Lister, i: nat): System
    decreases i, 0
  {
    if i == 0 then ImageProtocol.Run(Next(g.start, BeginRun(g.r), g.b), g.beforeRead(0), g.b)
    else ImageProtocol.Run(AfterRead(g, db, i - 1), g.beforeRead(i), g.b)
  }

  ghost function AfterRead(g: Setting, db: Lister, i: nat): System
    decreases i, 1
  {
    var page := PageAt(db, i);
    Next(AtRead(g, db, i), ReadPage(g.r, if page.DbPage? then page.keys else []), g.b)
  }

  /** The lister answers from the committed rows of that moment; all their keys are non-empty and under the prefix. */
  ghost predicate TrueRead(g: Setting, db: Lister, i: nat) {
    var page := PageAt(db, i);
    && page.DbPage?
    && IsPage(Rows(AtRead(g, db, i).commits), AfterAt(db, i), page.keys)
    && page.nextAfter == (if page.keys == [] then "" else page.keys[|page.keys| - 1])
    && (forall k | k in page.keys :: k != "" && g.prefix <= k)
  }

  /** What the protocol's reconciliation has read is what the loop has collected. */
  ghost predicate ReadSoFar(g: Setting, db: Lister, n: nat, s: System) {
    && g.r in s.runs
    && s.runs[g.r].stage == Reading(AfterAt(db, n))
    && s.runs[g.r].referenced == Collected(db, g.prefix, n)
    && s.runs[g.r].orphans == {}
  }

  lemma UnderPrefix(keys: seq<Key>, prefix: Key)
    requires forall k | k in keys :: prefix <= k
    ensures KeysUnder(keys, prefix) == KeySet(keys)
  {
  }

  lemma StartsReading(g: Setting, db: Lister)
    requires OthersAct(g)
    ensures ReadSoFar(g, db, 0, AtRead(g, db, 0)) && Leads(g.start, AtRead(g, db, 0), g.b)
  {
    var begun := Next(g.start, BeginRun(g.r), g.b);
    ForeignStepsLeaveRun(begun, g.beforeRead(0), g.r, g.b);
    LeadsNowhere(g.start, g.b);
    LeadsOn(g.start, g.start, BeginRun(g.r), g.b);
    LeadsBy(g.start, begun, g.beforeRead(0), g.b);
  }

  lemma ReadsOneMore(g: Setting, db: Lister, n: nat)
    requires OthersAct(g) && TrueRead(g, db, n) && Continues(PageAt(db, n))
    requires ReadSoFar(g, db, n, AtRead(g, db, n)) && Leads(g.start, AtRead(g, db, n), g.b)
    ensures ReadSoFar(g, db, n + 1, AtRead(g, db, n + 1)) && Leads(g.start, AtRead(g, db, n + 1), g.b)
  {
    var s, page := AtRead(g, db, n), PageAt(db, n);
    var s' := AfterRead(g, db, n);
    assert s' == Next(s, ReadPage(g.r, page.keys), g.b);
    assert MayRead(s, g.r, page.keys);
    UnderPrefix(page.keys, g.prefix);
    ForeignStepsLeaveRun(s', g.beforeRead(n + 1), g.r, g.b);
    LeadsOn(g.start, s, ReadPage(g.r, page.keys), g.b);
    LeadsBy(g.start, s', g.beforeRead(n + 1), g.b);
  }

  lemma {:induction false} ReadingIsReadSteps(g: Setting, db: Lister, n: nat)
    requires OthersAct(g) && forall i: nat | i < n :: TrueRead(g, db, i) && Continues(PageAt(db, i))
    ensures ReadSoFar(g, db, n, AtRead(g, db, n)) && Leads(g.start, AtRead(g, db, n), g.b)
  {
    hide ReadSoFar, TrueRead, AtRead, Continues;
    if n == 0 {
      StartsReading(g, db);
    } else {
      ReadingIsReadSteps(g, db, n - 1);
      ReadsOneMore(g, db, n - 1);
    }
  }

  // ---------------------------------------------------------------- phase 2

  /** After the last, empty page and the threshold. */
  ghost function AtSweep(g: Setting, db: Lister, n: nat): System {
    Next(ImageProtocol.Run(AfterRead(g, db, n), g.beforeThreshold, g.b), TakeThreshold(g.r), g.b)
  }

  /** The clock that the loop reads is the protocol's. */
  ghost function Threshold(g: Setting, db: Lister, n: nat): int {
    ImageProtocol.Run(AfterRead(g, db, n), g.beforeThreshold, g.b).now - g.b.grace
  }

  /** A reconciliation that sweeps with this reference set, this threshold and these orphans so far. */
  ghost predicate Sweeps(g: Setting, s: System, referenced: set<Key>, threshold: int, orphans: set<Key>) {
    && g.r in s.runs && s.runs[g.r].stage == Sweeping(threshold)
    && s.runs[g.r].referenced == referenced && s.runs[g.r].orphans == orphans
  }

  lemma SweepBegins(g: Setting, db: Lister, n: nat)
    requires OthersAct(g) && EndsAt(db, n) && forall i: nat | i <= n :: TrueRead(g, db, i)
    ensures Sweeps(g, AtSweep(g, db, n), Collected(db, g.prefix, n + 1), Threshold(g, db, n), {})
    ensures Leads(g.start, AtSweep(g, db, n), g.b)
  {
    hide TrueRead, ReadSoFar, AfterRead, AtRead, Collected;
    ReadingIsReadSteps(g, db, n);
    LastPageEndsReading(g, db, n);
    TakesThreshold(g, AfterRead(g, db, n), Collected(db, g.prefix, n + 1));
  }

  lemma TakesThreshold(g: Setting, read: System, referenced: set<Key>)
    requires OthersAct(g) && Leads(g.start, read, g.b)
    requires g.r in read.runs && read.runs[g.r].stage.Read? && read.runs[g.r].orphans == {}
    requires read.runs[g.r].referenced == referenced
    ensures var s := ImageProtocol.Run(read, g.beforeThreshold, g.b);
      var s' := Next(s, TakeThreshold(g.r), g.b);
      Sweeps(g, s', referenced, s.now - g.b.grace, {}) && Leads(g.start, s', g.b)
  {
    hide Leads;
    ForeignStepsLeaveRun(read, g.beforeThreshold, g.r, g.b);
    LeadsBy(g.start, read, g.beforeThreshold, g.b);
    LeadsOn(g.start, ImageProtocol.Run(read, g.beforeThreshold, g.b), TakeThreshold(g.r), g.b);
  }

  lemma LastIsMember(keys: seq<Key>)
    ensures keys != [] ==> keys[|keys| - 1] in keys
  {
  }

  lemma LastPageEndsReading(g: Setting, db: Lister, n: nat)
    requires TrueRead(g, db, n) && PageAt(db, n).nextAfter == ""
    requires ReadSoFar(g, db, n, AtRead(g, db, n)) && Leads(g.start, AtRead(g, db, n), g.b)
    ensures var s := AfterRead(g, db, n);
      && g.r in s.runs && s.runs[g.r].stage.Read? && s.runs[g.r].orphans == {}
      && s.runs[g.r].referenced == Collected(db, g.prefix, n + 1)
      && Leads(g.start, s, g.b)
  {
    var s := AtRead(g, db, n);
    var keys := PageAt(db, n).keys;
    LastIsMember(keys);
    assert MayRead(s, g.r, []);
    assert AfterRead(g, db, n) == Next(s, ReadPage(g.r, []), g.b);
    UnderPrefix([], g.prefix);
    LeadsOn(g.start, s, ReadPage(g.r, []), g.b);
  }

  /** Comparing each listed object in turn. */
  ghost function ListEach(s: System, r: nat, items: seq<Item>, b: Bounds): System {
    if items == [] then s
    else Next(ListEach(s, r, items[..|items| - 1], b), ListObject(r, items[|items| - 1].key), b)
  }

  /** The two stores just before the i-th listing call, and after its objects have been compared. */
  ghost function AtList(g: Setting, sweep: System, storage: Storage, i: nat): System
    decreases i, 0
  {
    ImageProtocol.Run(if i == 0 then sweep else AfterList(g, sweep, storage, i - 1), g.beforeList(i), g.b)
  }

  ghost function AfterList(g: Setting, sweep: System, storage: Storage, i: nat): System
    decreases i, 1
  {
    ListEach(AtList(g, sweep, storage, i), g.r, ItemsListed(storage, g.prefix, i), g.b)
  }

  function ItemsListed(storage: Storage, prefix: Key, i: nat): seq<Item> {
    var page := ListedAt(storage, i);
    if page.ListPage? then ItemsUnder(page.items, prefix) else []
  }

  /** Storage answers from the objects of that moment. */
  ghost predicate TrueListing(g: Setting, sweep: System, storage: Storage, i: nat) {
    forall item | item in ItemsListed(storage, g.prefix, i) ::
      var store := AtList(g, sweep, storage, i).store; item.key in store && store[item.key] == item.lastModified
  }

  lemma {:induction false} OrphansOfSplits(a: seq<Item>, c: seq<Item>, referenced: set<Key>, threshold: int)
    ensures OrphansOf(a + c, referenced, threshold) == OrphansOf(a, referenced, threshold) +
      OrphansOf(c, referenced, threshold)
  {
    if c == [] {
      assert a + c == a;
    } else {
      var front, last := c[..|c| - 1], c[|c| - 1];
      OrphansOfSplits(a, front, referenced, threshold);
      assert (a + c)[..|a + c| - 1] == a + front && (a + c)[|a + c| - 1] == last;
    }
  }

  /** Comparing objects that storage lists truly adds exactly the orphans among them. */
  lemma {:induction false} ListingIsListSteps(g: Setting, s: System, items: seq<Item>, referenced: set<Key>,
                                              threshold: int, orphans: set<Key>)
    requires Sweeps(g, s, referenced, threshold, orphans)
    requires forall item | item in items :: item.key in s.store && s.store[item.key] == item.lastModified
    ensures var s' := ListEach(s, g.r, items, g.b);
      && Sweeps(g, s', referenced, threshold, orphans + KeySet(OrphansOf(items, referenced, threshold)))
      && s'.store == s.store && (forall from | Leads(from, s, g.b) :: Leads(from, s', g.b))
  {
    if items == [] {
      assert KeySet(OrphansOf(items, referenced, threshold)) == {};
    } else {
      var front, last := items[..|items| - 1], items[|items| - 1];
      ListingIsListSteps(g, s, front, referenced, threshold, orphans);
      var s1 := ListEach(s, g.r, front, g.b);
      ComparesOne(g, s1, last, referenced, threshold, orphans + KeySet(OrphansOf(front, referenced, threshold)));
      OneMoreOrphan(front, last, referenced, threshold);
      assert items == front + [last];
      forall from | Leads(from, s, g.b) ensures Leads(from, ListEach(s, g.r, items, g.b), g.b) {
        LeadsOn(from, s1, ListObject(g.r, last.key), g.b);
      }
    }
  }

  lemma OneMoreOrphan(items: seq<Item>, item: Item, referenced: set<Key>, threshold: int)
    ensures KeySet(OrphansOf(items + [item], referenced, threshold)) ==
      KeySet(OrphansOf(items, referenced, threshold)) + if IsOrphan(item, referenced, threshold) then {item.key} else {}
  {
    assert (items + [item])[..|items|] == items;
  }

  lemma ComparesOne(g: Setting, s: System, item: Item, referenced: set<Key>, threshold: int, orphans: set<Key>)
    requires Sweeps(g, s, referenced, threshold, orphans) && item.key in s.store
      && s.store[item.key] == item.lastModified
    ensures var s' := Next(s, ListObject(g.r, item.key), g.b);
      && Sweeps(g, s', referenced, threshold, orphans + if IsOrphan(item, referenced, threshold) then
        {item.key} else {})
      && s'.store == s.store
  {
  }

  lemma {:induction false} SweepIsListSteps(g: Setting, sweep: System, storage: Storage, referenced: set<Key>,
                                            threshold: int, n: nat)
    requires OthersAct(g) && Sweeps(g, sweep, referenced, threshold, {}) && Leads(g.start, sweep, g.b)
    requires forall i: nat | i < n :: TrueListing(g, sweep, storage, i)
    ensures var s := if n == 0 then sweep else AfterList(g, sweep, storage, n - 1);
      && Sweeps(g, s, referenced, threshold, KeySet(OrphansOf(Listing(storage, g.prefix, n), referenced, threshold)))
      && Leads(g.start, s, g.b)
  {
    if n == 0 {
      assert KeySet(OrphansOf([], referenced, threshold)) == {};
    } else {
      SweepIsListSteps(g, sweep, storage, referenced, threshold, n - 1);
      var before := if n == 1 then sweep else AfterList(g, sweep, storage, n - 2);
      ListsOneMore(g, sweep, storage, referenced, threshold, n - 1, before);
    }
  }

  lemma ListsOneMore(g: Setting, sweep: System, storage: Storage, referenced: set<Key>, threshold: int, n: nat,
                     before: System)
    requires OthersAct(g) && TrueListing(g, sweep, storage, n)
    requires before == if n == 0 then sweep else AfterList(g, sweep, storage, n - 1)
    requires Sweeps(g, before, referenced, threshold,
      KeySet(OrphansOf(Listing(storage, g.prefix, n), referenced, threshold)))
    requires Leads(g.start, before, g.b)
    ensures Sweeps(g, AfterList(g, sweep, storage, n), referenced, threshold,
                   KeySet(OrphansOf(Listing(storage, g.prefix, n + 1), referenced, threshold)))
    ensures Leads(g.start, AfterList(g, sweep, storage, n), g.b)
  {
    var s := AtList(g, sweep, storage, n);
    var items := ItemsListed(storage, g.prefix, n);
    ForeignStepsLeaveRun(before, g.beforeList(n), g.r, g.b);
    LeadsBy(g.start, before, g.beforeList(n), g.b);
    ListingIsListSteps(g, s, items, referenced, threshold,
      KeySet(OrphansOf(Listing(storage, g.prefix, n), referenced, threshold)));
    OrphansOfSplits(Listing(storage, g.prefix, n), items, referenced, threshold);
    assert Listing(storage, g.prefix, n + 1) == Listing(storage, g.prefix, n) + items;
    KeySetSplits(OrphansOf(Listing(storage, g.prefix, n), referenced, threshold),
      OrphansOf(items, referenced, threshold));
  }

  lemma KeySetSplits(a: seq<Key>, c: seq<Key>)
    ensures KeySet(a + c) == KeySet(a) + KeySet(c)
  {
  }

  // ---------------------------------------------------------------- phase 3

  /** What storage has removed for one batch: all of it, or some of it when the call failed. */
  function Removed(batch: seq<Key>, succeeded: bool, partly: set<Key>): set<Key> {
    if succeeded then KeySet(batch) else KeySet(batch) * partly
  }

  /** After the deletion calls for these batches, the first of them numbered `first`. */
  ghost function AfterDeletes(g: Setting, s: System, batches: seq<seq<Key>>, succeeds: nat -> bool,
                              partly: nat -> set<Key>): System {
    if batches == [] then s
    else
      var n := |batches| - 1;
      Next(ImageProtocol.Run(AfterDeletes(g, s, batches[..n], succeeds, partly), g.beforeDelete(n), g.b),
           Delete(g.r, Removed(batches[n], succeeds(n), partly(n))), g.b)
  }

  lemma {:induction false} DeletionIsDeleteSteps(g: Setting, s: System, batches: seq<seq<Key>>, succeeds: nat -> bool,
                                                 partly: nat -> set<Key>,
                                                 referenced: set<Key>, threshold: int, orphans: set<Key>)
    requires OthersAct(g) && Sweeps(g, s, referenced, threshold, orphans) && Leads(g.start, s, g.b)
    requires forall batch | batch in batches :: KeySet(batch) <= orphans
    ensures var s' := AfterDeletes(g, s, batches, succeeds, partly);
      Sweeps(g, s', referenced, threshold, orphans) && Leads(g.start, s', g.b)
  {
    if batches != [] {
      var n := |batches| - 1;
      DeletionIsDeleteSteps(g, s, batches[..n], succeeds, partly, referenced, threshold, orphans);
      var s1 := AfterDeletes(g, s, batches[..n], succeeds, partly);
      var s2 := ImageProtocol.Run(s1, g.beforeDelete(n), g.b);
      ForeignStepsLeaveRun(s1, g.beforeDelete(n), g.r, g.b);
      LeadsBy(g.start, s1, g.beforeDelete(n), g.b);
      LeadsOn(g.start, s2, Delete(g.r, Removed(batches[n], succeeds(n), partly(n))), g.b);
    }
  }

  lemma {:induction false} BatchKeysAreKeys(batches: seq<seq<Key>>)
    ensures forall batch, k | batch in batches && k in batch :: k in Flatten(batches)
  {
    if batches != [] {
      BatchKeysAreKeys(batches[1..]);
    }
  }

  lemma BatchesAreOrphans(orphans: seq<Key>, size: nat)
    requires size > 0
    ensures forall batch | batch in Batches(Sort(orphans), size) :: KeySet(batch) <= KeySet(orphans)
  {
    SortSorts(orphans);
    BatchesPartition(Sort(orphans), size);
    BatchKeysAreKeys(Batches(Sort(orphans), size));
    forall batch, k | batch in Batches(Sort(orphans), size) && k in batch ensures k in orphans {
      assert k in multiset(Sort(orphans)) && k in multiset(orphans);
    }
  }

  // ---------------------------------------------------------------- the whole run

  /** The two stores after a run that read `n + 1` pages, listed `m` and tried every batch. */
  ghost function Reconciled(g: Setting, db: Lister, storage: Storage, succeeds: nat -> bool, partly: nat -> set<Key>,
                            n: nat, m: nat, size: nat): System
    requires size > 0
  {
    var sweep := AtSweep(g, db, n);
    var orphans := OrphansOf(Listing(storage, g.prefix, m), Collected(db, g.prefix, n + 1), Threshold(g, db, n));
    AfterDeletes(g, if m == 0 then
      sweep else AfterList(g, sweep, storage, m - 1), Batches(Sort(orphans), size), succeeds, partly)
  }

  /** Both stores answer truly, at each call, of that moment. */
  ghost predicate TrueReplies(g: Setting, db: Lister, storage: Storage, n: nat, m: nat) {
    && OthersAct(g) && EndsAt(db, n)
    && (forall i: nat | i <= n :: TrueRead(g, db, i))
    && (forall i: nat | i < m :: TrueListing(g, AtSweep(g, db, n), storage, i))
  }

  /**
   The reconciler's loops are a run of the protocol: what they delete, batch by batch, are the protocol's
   `Delete` steps, after its reads, its threshold and its comparisons, however others interleave.
   */
  lemma ReconcileIsARun(g: Setting, db: Lister, storage: Storage, succeeds: nat -> bool, partly: nat -> set<Key>,
                        n: nat, m: nat, size: nat)
    requires size > 0 && TrueReplies(g, db, storage, n, m)
    ensures Leads(g.start, Reconciled(g, db, storage, succeeds, partly, n, m, size), g.b)
  {
    hide TrueRead, TrueListing, AtSweep, AfterList, AfterDeletes, Threshold, Sweeps, Leads, OthersAct, EndsAt;
    var sweep, referenced, threshold := AtSweep(g, db, n), Collected(db, g.prefix, n + 1), Threshold(g, db, n);
    var orphans := OrphansOf(Listing(storage, g.prefix, m), referenced, threshold);
    var listed := if m == 0 then sweep else AfterList(g, sweep, storage, m - 1);
    SweepBegins(g, db, n);
    SweepIsListSteps(g, sweep, storage, referenced, threshold, m);
    BatchesAreOrphans(orphans, size);
    DeletionIsDeleteSteps(g, listed, Batches(Sort(orphans), size), succeeds, partly, referenced, threshold,
      KeySet(orphans));
  }

  /** So within the grace bound no reconciliation, from any reachable state, loses a committed image. */
  lemma ReconcileLosesNothing(steps: seq<ImageProtocol.Step>, g: Setting, db: Lister, storage: Storage,
                              succeeds: nat -> bool,
                              partly: nat -> set<Key>, n: nat, m: nat, size: nat)
    requires size > 0 && TrueReplies(g, db, storage, n, m)
    requires g.start == ImageProtocol.Run(START, steps, g.b) && g.b.uploadBound + g.b.readBound < g.b.grace
    ensures Safe(Reconciled(g, db, storage, succeeds, partly, n, m, size))
  {
    hide TrueReplies, Reconciled, Safe;
    ReconcileIsARun(g, db, storage, succeeds, partly, n, m, size);
    var more :| ImageProtocol.Run(g.start, more, g.b) == Reconciled(g, db, storage, succeeds, partly, n, m, size);
    ImageSafety.RunSplits(START, steps, more, g.b);
    ImageSafety.SafeExactlyWithinTheGrace(g.b);
  }
}
