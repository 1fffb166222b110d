/**
 The search for exact-location keys in a value about to enter broad audit JSON.  Values form a
 graph that may share nodes and contain cycles; the search marks the nodes it has entered.
 */
module LocationPrivacy {
  import opened Domain

  const FORBIDDEN_FIELDS: seq<string> := [
    "latitude", "longitude", "location", "locationLatitude", "locationLongitude", "serviceLocation",
    "providerLocation", "liveLocation", "trackingHistory", "coordinates", "coordinate", "point",
    "mapUrl", "mapURL", "mapsUrl", "mapsURL"
  ]

  // ---------------------------------------------------------------- keys

  predicate Upper(c: char) { 'A' <= c <= 'Z' }

  predicate Alphanumeric(c: char) { 'a' <= c <= 'z' || Upper(c) || '0' <= c <= '9' }

  function Lower(c: char): char {
    if Upper(c) then ((c as int) + 32) as char else c
  }

  /** Letters and digits only, in lower case. */
  function NormalizeKey(key: string): string {
    if key == [] then []
    else Kept(key[0]) + NormalizeKey(key[1..])
  }

  function Kept(c: char): string {
    if Alphanumeric(c) then [Lower(c)] else []
  }

  predicate Forbidden(key: string) {
    exists field | field in FORBIDDEN_FIELDS :: NormalizeKey(key) == NormalizeKey(field)
  }

  lemma {:induction false} NormalizedHasNoSeparators(key: string)
    ensures forall c | c in NormalizeKey(key) :: Alphanumeric(c) && !Upper(c)
  {
    if key != [] {
      NormalizedHasNoSeparators(key[1..]);
    }
  }

  /** Normal forms are fixed points, so a spelling is forbidden exactly when its normal form is. */
  lemma {:induction false} NormalizeKeyIsIdempotent(key: string)
    ensures NormalizeKey(NormalizeKey(key)) == NormalizeKey(key)
  {
    if key != [] {
      var rest := NormalizeKey(key[1..]);
      NormalizeKeyIsIdempotent(key[1..]);
      if Alphanumeric(key[0]) {
        assert Alphanumeric(Lower(key[0])) && Lower(Lower(key[0])) == Lower(key[0]);
        assert ([Lower(key[0])] + rest)[1..] == rest;
      } else {
        assert NormalizeKey(key) == rest;
      }
    }
  }

  lemma {:induction false} NormalizeKeyConcatenates(a: string, b: string)
    ensures NormalizeKey(a + b) == NormalizeKey(a) + NormalizeKey(b)
  {
    if a == [] {
      assert a + b == b && NormalizeKey(a) == [];
    } else {
      NormalizeKeyConcatenates(a[1..], b);
      NormalizeFirst(a, b);
    }
  }

  lemma Unfold(key: string)
    requires key != []
    ensures NormalizeKey(key) == Kept(key[0]) + NormalizeKey(key[1..])
  {
  }

  lemma NormalizeFirst(a: string, b: string)
    requires a != [] && NormalizeKey(a[1..] + b) == NormalizeKey(a[1..]) + NormalizeKey(b)
    ensures NormalizeKey(a + b) == NormalizeKey(a) + NormalizeKey(b)
  {
    hide Kept, NormalizeKey;
    Unfold(a);
    Unfold(a + b);
    assert (a + b)[1..] == a[1..] + b && (a + b)[0] == a[0];
    var k, x, y := Kept(a[0]), NormalizeKey(a[1..]), NormalizeKey(b);
    assert k + (x + y) == (k + x) + y;
  }

  /** Only the normal form decides. */
  lemma SameNormalForm(a: string, b: string)
    requires NormalizeKey(a) == NormalizeKey(b)
    ensures Forbidden(a) <==> Forbidden(b)
  {
    hide NormalizeKey;
  }

  /** A separator anywhere in a key never changes its normal form, so neither whether it is forbidden. */
  lemma SpellingDoesNotMatter(a: string, b: string, separator: char)
    requires !Alphanumeric(separator)
    ensures NormalizeKey(a + [separator] + b) == NormalizeKey(a + b)
  {
    hide NormalizeKey;
    NormalizeKeyConcatenates(a + [separator], b);
    NormalizeKeyConcatenates(a, [separator]);
    NormalizeKeyConcatenates(a, b);
    SeparatorVanishes(separator);
  }

  lemma SeparatorVanishes(separator: char)
    requires !Alphanumeric(separator)
    ensures NormalizeKey([separator]) == []
  {
    assert [separator][1..] == [];
  }

  /** Swapping the case of a letter anywhere in a key never changes its normal form. */
  lemma CaseDoesNotMatter(a: string, b: string, k: nat)
    requires k < 26
    ensures NormalizeKey(a + [('A' as int + k) as char] + b) == NormalizeKey(a + [('a' as int + k) as char] + b)
  {
    hide NormalizeKey;
    var capital, small := ('A' as int + k) as char, ('a' as int + k) as char;
    NormalizeKeyConcatenates(a + [capital], b);
    NormalizeKeyConcatenates(a, [capital]);
    NormalizeKeyConcatenates(a + [small], b);
    NormalizeKeyConcatenates(a, [small]);
    BothCasesAlike(k);
  }

  lemma BothCasesAlike(k: nat)
    requires k < 26
    ensures NormalizeKey([('A' as int + k) as char]) == [('a' as int + k) as char]
            == NormalizeKey([('a' as int + k) as char])
  {
    var capital, small := ('A' as int + k) as char, ('a' as int + k) as char;
    assert [capital][1..] == [] && [small][1..] == [];
  }

  predicate Normal(key: string) {
    forall c | c in key :: 'a' <= c <= 'z' || '0' <= c <= '9'
  }

  /** Small letters and digits stay, in order; with the two lemmas above this decides every key. */
  lemma {:induction false} NormalKeysStay(key: string)
    requires Normal(key)
    ensures NormalizeKey(key) == key
  {
    if key != [] {
      assert key == [key[0]] + key[1..];
      assert forall c | c in key[1..] :: c in key;
      NormalKeysStay(key[1..]);
      assert key[0] in key;
    }
  }

  const FORBIDDEN_FORMS: seq<string> := [
    "latitude", "longitude", "location", "locationlatitude", "locationlongitude", "servicelocation",
    "providerlocation", "livelocation", "trackinghistory", "coordinates", "coordinate", "point",
    "mapurl", "mapurl", "mapsurl", "mapsurl"
  ]

  lemma TwoWords(front: string, back: string, normalFront: string, normalBack: string, field: string, form: string)
    requires NormalizeKey(front) == normalFront && NormalizeKey(back) == normalBack
    requires field == front + back && form == normalFront + normalBack
    ensures NormalizeKey(field) == form
  {
    NormalizeKeyConcatenates(front, back);
  }

  lemma Capitalised(k: nat, rest: string, word: string, form: string)
    requires k < 26 && Normal(rest) && word == [('A' as int + k) as char] + rest
    requires form == [('a' as int + k) as char] + rest
    ensures NormalizeKey(word) == form
  {
    NormalizeKeyConcatenates([('A' as int + k) as char], rest);
    BothCasesAlike(k);
    NormalKeysStay(rest);
  }

  lemma ShortWords()
    ensures NormalizeKey("service") == "service"
    ensures NormalizeKey("live") == "live"
    ensures NormalizeKey("point") == "point"
    ensures NormalizeKey("map") == "map"
    ensures NormalizeKey("maps") == "maps"
    ensures NormalizeKey("s") == "s"
  {
    hide NormalizeKey;
    NormalKeysStay("service");
    NormalKeysStay("live");
    NormalKeysStay("point");
    NormalKeysStay("map");
    NormalKeysStay("maps");
    NormalKeysStay("s");
  }

  lemma Urls()
    ensures NormalizeKey("Url") == "url" && NormalizeKey("URL") == "url"
  {
  }

  lemma Places()
    ensures NormalizeKey("location") == "location"
    ensures NormalizeKey("Location") == "location"
  {
    hide NormalizeKey;
    NormalKeysStay("location");
    Capitalised(11, "ocation", "Location", "location");
  }

  lemma Latitudes()
    ensures NormalizeKey("latitude") == "latitude"
    ensures NormalizeKey("Latitude") == "latitude"
  {
    hide NormalizeKey;
    NormalKeysStay("latitude");
    Capitalised(11, "atitude", "Latitude", "latitude");
  }

  lemma Longitudes()
    ensures NormalizeKey("longitude") == "longitude"
    ensures NormalizeKey("Longitude") == "longitude"
  {
    hide NormalizeKey;
    NormalKeysStay("longitude");
    Capitalised(11, "ongitude", "Longitude", "longitude");
  }

  lemma LongWords()
    ensures NormalizeKey("provider") == "provider"
    ensures NormalizeKey("tracking") == "tracking"
    ensures NormalizeKey("coordinate") == "coordinate"
    ensures NormalizeKey("History") == "history"
  {
    hide NormalizeKey;
    NormalKeysStay("provider");
    NormalKeysStay("tracking");
    NormalKeysStay("coordinate");
    Capitalised(7, "istory", "History", "history");
  }

  lemma LocationFields()
    ensures NormalizeKey("locationLatitude") == "locationlatitude"
    ensures NormalizeKey("locationLongitude") == "locationlongitude"
    ensures NormalizeKey("serviceLocation") == "servicelocation"
    ensures NormalizeKey("providerLocation") == "providerlocation"
    ensures NormalizeKey("liveLocation") == "livelocation"
  {
    hide NormalizeKey;
    ShortWords();
    Urls();
    Places();
    Latitudes();
    Longitudes();
    LongWords();
    TwoWords("location", "Latitude", "location", "latitude", "locationLatitude", "locationlatitude");
    TwoWords("location", "Longitude", "location", "longitude", "locationLongitude", "locationlongitude");
    TwoWords("service", "Location", "service", "location", "serviceLocation", "servicelocation");
    TwoWords("provider", "Location", "provider", "location", "providerLocation", "providerlocation");
    TwoWords("live", "Location", "live", "location", "liveLocation", "livelocation");
  }

  lemma OtherFields()
    ensures NormalizeKey("trackingHistory") == "trackinghistory"
    ensures NormalizeKey("coordinates") == "coordinates"
    ensures NormalizeKey("mapUrl") == "mapurl"
    ensures NormalizeKey("mapURL") == "mapurl"
    ensures NormalizeKey("mapsUrl") == "mapsurl"
    ensures NormalizeKey("mapsURL") == "mapsurl"
  {
    hide NormalizeKey;
    ShortWords();
    Urls();
    Places();
    Latitudes();
    Longitudes();
    LongWords();
    TwoWords("tracking", "History", "tracking", "history", "trackingHistory", "trackinghistory");
    TwoWords("coordinate", "s", "coordinate", "s", "coordinates", "coordinates");
    TwoWords("map", "Url", "map", "url", "mapUrl", "mapurl");
    TwoWords("map", "URL", "map", "url", "mapURL", "mapurl");
    TwoWords("maps", "Url", "maps", "url", "mapsUrl", "mapsurl");
    TwoWords("maps", "URL", "maps", "url", "mapsURL", "mapsurl");
  }

  lemma FormsOfFields()
    ensures |FORBIDDEN_FIELDS| == |FORBIDDEN_FORMS|
    ensures forall i | 0 <= i < |FORBIDDEN_FIELDS| :: NormalizeKey(FORBIDDEN_FIELDS[i]) == FORBIDDEN_FORMS[i]
  {
    hide NormalizeKey;
    ShortWords();
    Places();
    Latitudes();
    Longitudes();
    LongWords();
    LocationFields();
    OtherFields();
  }

  /** A key is forbidden exactly when its letters and digits, in small letters, spell one of fourteen words. */
  lemma ForbiddenExactly(key: string)
    ensures Forbidden(key) <==> NormalizeKey(key) in FORBIDDEN_FORMS
  {
    hide NormalizeKey;
    FormsOfFields();
    if Forbidden(key) {
      var i :| 0 <= i < |FORBIDDEN_FIELDS| && NormalizeKey(key) == NormalizeKey(FORBIDDEN_FIELDS[i]);
      assert FORBIDDEN_FORMS[i] in FORBIDDEN_FORMS;
    }
    if NormalizeKey(key) in FORBIDDEN_FORMS {
      var i :| 0 <= i < |FORBIDDEN_FORMS| && FORBIDDEN_FORMS[i] == NormalizeKey(key);
      assert FORBIDDEN_FIELDS[i] in FORBIDDEN_FIELDS;
    }
  }

  // ---------------------------------------------------------------- values

  /** A primitive (null and undefined included), or a reference to a node of the graph. */
  datatype Value = Primitive | Ref(node: nat)

  datatype Entry = Entry(key: string, child: Value)

  /** An array's items, or an object's own enumerable entries in order; the search never changes it. */
  datatype Node = Node(isArray: bool, entries: seq<Entry>)

  type Graph = map<nat, Node>

  predicate NoDangling(graph: Graph) {
    forall n, e | n in graph && e in graph[n].entries && e.child.Ref? :: e.child.node in graph
  }

  predicate In(graph: Graph, value: Value) {
    value.Ref? ==> value.node in graph
  }

  predicate Offends(node: Node) {
    !node.isArray && exists e | e in node.entries :: Forbidden(e.key)
  }

  lemma OffendsMeans(node: Node)
    ensures Offends(node) <==> !node.isArray && exists e | e in node.entries :: NormalizeKey(e.key) in FORBIDDEN_FORMS
  {
    hide Forbidden, NormalizeKey;
    forall e | e in node.entries ensures Forbidden(e.key) <==> NormalizeKey(e.key) in FORBIDDEN_FORMS {
      ForbiddenExactly(e.key);
    }
  }

  predicate Child(graph: Graph, n: nat, m: nat) {
    n in graph && exists e | e in graph[n].entries :: e.child == Ref(m)
  }

  predicate IsPath(graph: Graph, path: seq<nat>) {
    path != [] && (forall n | n in path :: n in graph) && forall i | 0 <= i < |path| - 1 ::
      Child(graph, path[i], path[i + 1])
  }

  /** The path of references ends at an object with a forbidden key. */
  predicate Exposes(graph: Graph, path: seq<nat>) {
    IsPath(graph, path) && Offends(graph[path[|path| - 1]])
  }

  /** References lead from the value to an object with a forbidden key. */
  ghost predicate Exposed(graph: Graph, value: Value) {
    value.Ref? && exists path :: Exposes(graph, path) && path[0] == value.node
  }

  lemma ExposedThroughChild(graph: Graph, n: nat, e: Entry)
    requires n in graph && e in graph[n].entries && Exposed(graph, e.child)
    ensures Exposed(graph, Ref(n))
  {
    hide Forbidden;
    var path :| Exposes(graph, path) && path[0] == e.child.node;
    assert Child(graph, n, path[0]);
    assert Exposes(graph, [n] + path) && ([n] + path)[0] == n;
  }

  lemma ExposedItself(graph: Graph, n: nat)
    requires n in graph && Offends(graph[n])
    ensures Exposed(graph, Ref(n))
  {
    hide Offends;
    assert Exposes(graph, [n]) && [n][0] == n;
  }

  // ---------------------------------------------------------------- the search

  /** None of these nodes offends, and all their children have been visited. */
  predicate Cleared(graph: Graph, nodes: set<nat>, visited: set<nat>) {
    forall n | n in nodes && n in graph ::
      !Offends(graph[n]) && forall e | e in graph[n].entries && e.child.Ref? :: e.child.node in visited
  }

  lemma {:induction false} PathsStayVisited(graph: Graph, visited: set<nat>, path: seq<nat>, i: nat)
    requires Cleared(graph, visited, visited) && IsPath(graph, path) && path[0] in visited && i < |path|
    ensures path[i] in visited
  {
    if i > 0 {
      PathsStayVisited(graph, visited, path, i - 1);
      assert Child(graph, path[i - 1], path[i - 1 + 1]);
    }
  }

  lemma ClearedMeansSafe(graph: Graph, visited: set<nat>, value: Value)
    requires Cleared(graph, visited, visited) && (value.Ref? ==> value.node in visited)
    ensures !Exposed(graph, value)
  {
    hide Forbidden;
    if Exposed(graph, value) {
      var path :| Exposes(graph, path) && path[0] == value.node;
      PathsStayVisited(graph, visited, path, |path| - 1);
    }
  }

  class Search {
    var visited: set<nat>

    constructor ()
      ensures visited == {}
    {
      visited := {};
    }

    /**
     A node visited before may soundly answer false: whatever it leads to is being searched already.
     Terminates on cyclic graphs, because every node is entered at most once.
     */
    method ContainsForbiddenLocationKey(graph: Graph, value: Value) returns (found: bool)
      requires NoDangling(graph) && In(graph, value)
      modifies this`visited
      ensures old(visited) <= visited <= old(visited) + graph.Keys
      ensures found ==> Exposed(graph, value)
      ensures !found ==> Cleared(graph, visited - old(visited), visited) && (value.Ref? ==> value.node in visited)
      decreases |graph.Keys - visited|, 1
    {
      if value.Primitive? { return false; }
      if value.node in visited { return false; }
      ghost var before := visited;
      visited := visited + {value.node};
      EnteringShrinksRest(graph.Keys, before, value.node);
      found := SearchEntries(graph, value.node, before);
    }

    /** The `some` over an array's items or an object's entries. */
    method SearchEntries(graph: Graph, n: nat, ghost before: set<nat>) returns (found: bool)
      requires NoDangling(graph) && n in graph
      requires n !in before && visited == before + {n}
      modifies this`visited
      ensures old(visited) <= visited <= old(visited) + graph.Keys
      ensures found ==> Exposed(graph, Ref(n))
      ensures !found ==> Cleared(graph, visited - before, visited)
      decreases |graph.Keys - visited|, 2
    {
      hide Forbidden, NormalizeKey, Exposed;
      var node := graph[n];
      for i := 0 to |node.entries|
        invariant old(visited) <= visited <= old(visited) + graph.Keys
        invariant Cleared(graph, visited - old(visited), visited)
        invariant forall k | 0 <= k < i ::
          && (node.isArray || !Forbidden(node.entries[k].key))
          && (node.entries[k].child.Ref? ==> node.entries[k].child.node in visited)
      {
        var entry := node.entries[i];
        if !node.isArray && Forbidden(entry.key) {
          assert entry in node.entries;
          ExposedItself(graph, n);
          return true;
        }
        RestShrinks(graph.Keys, old(visited), visited);
        ghost var now := visited;
        var inside := ContainsForbiddenLocationKey(graph, entry.child);
        if inside {
          ExposedThroughChild(graph, n, entry);
          return true;
        }
        StillCleared(graph, old(visited), now, visited);
      }
      found := false;
    }
  }

  lemma EnteringShrinksRest(all: set<nat>, visited: set<nat>, n: nat)
    requires n in all && n !in visited
    ensures |all - (visited + {n})| < |all - visited|
  {
    assert all - (visited + {n}) == all - visited - {n};
  }

  lemma RestShrinks(all: set<nat>, before: set<nat>, after: set<nat>)
    requires before <= after
    ensures |all - after| <= |all - before|
  {
    assert all - before == (all - after) + (all * after - before);
  }

  lemma StillCleared(graph: Graph, before: set<nat>, mid: set<nat>, after: set<nat>)
    requires before <= mid <= after
    requires Cleared(graph, mid - before, mid) && Cleared(graph, after - mid, after)
    ensures Cleared(graph, after - before, after)
  {
  }

  /** The policy refuses a value exactly when references lead from it to a forbidden key. */
  method BroadAuditLocationSafe(graph: Graph, value: Value) returns (safe: bool)
    requires NoDangling(graph) && In(graph, value)
    ensures safe <==> !Exposed(graph, value)
  {
    var search := new Search();
    var found := search.ContainsForbiddenLocationKey(graph, value);
    if !found {
      assert search.visited - {} == search.visited;
      ClearedMeansSafe(graph, search.visited, value);
    }
    return !found;
  }
}
