/** Storage keys in their listing order, and the keyset page of a table of keys. */
module StorageKeys {
  import opened Domain

  type Key = string

  predicate Less(a: Key, b: Key) {
    b != [] && (a == [] || a[0] < b[0] || (a[0] == b[0] && Less(a[1..], b[1..])))
  }

  predicate AtMost(a: Key, b: Key) {
    a == b || Less(a, b)
  }

  lemma {:induction false} LessIrreflexive(a: Key)
    ensures !Less(a, a)
  {
    if a != [] {
      LessIrreflexive(a[1..]);
    }
  }

  lemma {:induction false} LessTransitive(a: Key, b: Key, c: Key)
    requires Less(a, b) && Less(b, c)
    ensures Less(a, c)
    decreases |a|
  {
    if a != [] && a[0] == b[0] == c[0] {
      LessTransitive(a[1..], b[1..], c[1..]);
    }
  }

  lemma {:induction false} LessTotal(a: Key, b: Key)
    ensures a == b || Less(a, b) || Less(b, a)
    decreases |a|
  {
    if a != [] && b != [] && a[0] == b[0] {
      LessTotal(a[1..], b[1..]);
      assert a == [a[0]] + a[1..] && b == [b[0]] + b[1..];
    }
  }

  // ---------------------------------------------------------------- sorting

  ghost predicate Sorted(s: seq<Key>) {
    forall i, j | 0 <= i < j < |s| :: AtMost(s[i], s[j])
  }

  function Insert(s: seq<Key>, k: Key): seq<Key> {
    if s == [] || AtMost(k, s[0]) then [k] + s else [s[0]] + Insert(s[1..], k)
  }

  function Sort(s: seq<Key>): seq<Key> {
    if s == [] then [] else Insert(Sort(s[1..]), s[0])
  }

  lemma {:induction false} InsertKeepsMembers(s: seq<Key>, k: Key)
    ensures multiset(Insert(s, k)) == multiset(s) + multiset{k}
  {
    if s != [] && !AtMost(k, s[0]) {
      InsertKeepsMembers(s[1..], k);
      assert s == [s[0]] + s[1..];
    }
  }

  lemma {:induction false} InsertSorts(s: seq<Key>, k: Key)
    requires Sorted(s)
    ensures Sorted(Insert(s, k))
  {
    if s != [] && AtMost(k, s[0]) {
      forall j | 0 <= j < |s| ensures AtMost(k, s[j]) {
        if k != s[0] && j > 0 && s[0] != s[j] {
          LessTransitive(k, s[0], s[j]);
        }
      }
    } else if s != [] {
      InsertSorts(s[1..], k);
      InsertKeepsMembers(s[1..], k);
      LessTotal(k, s[0]);
      forall x | x in Insert(s[1..], k) ensures AtMost(s[0], x) {
        assert x in multiset(Insert(s[1..], k));
        assert x in s[1..] || x == k;
      }
    }
  }

  lemma {:induction false} SortSorts(s: seq<Key>)
    ensures Sorted(Sort(s)) && multiset(Sort(s)) == multiset(s)
  {
    if s != [] {
      SortSorts(s[1..]);
      InsertSorts(Sort(s[1..]), s[0]);
      InsertKeepsMembers(Sort(s[1..]), s[0]);
      assert s == [s[0]] + s[1..];
    }
  }

  // ---------------------------------------------------------------- keyset pages

  predicate Beyond(k: Key, after: Option<Key>) {
    after.None? || Less(after.value, k)
  }

  /** A page of `rows` beyond `after`: ascending, and no row up to its last key is missing. */
  ghost predicate IsPage(rows: set<Key>, after: Option<Key>, page: seq<Key>) {
    && (forall k | k in page :: k in rows && Beyond(k, after))
    && (forall k | k in rows && Beyond(k, after) && !Beyond(k, LastOf(page, after)) :: k in page)
    && (page == [] ==> forall k | k in rows :: !Beyond(k, after))
  }

  /** Where the next page starts. */
  function LastOf(page: seq<Key>, after: Option<Key>): Option<Key> {
    if page == [] then after else Some(page[|page| - 1])
  }
}
