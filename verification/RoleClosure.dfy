/** The role-membership closure of a test session and the check that refuses a dangerous one. */
module RoleClosure {
  import opened Domain

  const DATABASE_OWNER_ROLE := "pg_database_owner"

  /** A catalog fact that should be boolean, and a catalog name that should be text. */
  datatype Fact = Is(value: bool) | NotBoolean
  type Name = Option<string>

  datatype Role = Role(name: Name, superuser: Fact, createDb: Fact, createRole: Fact, replication: Fact,
                       bypassRls: Fact, predefined: Fact)

  datatype Membership = Membership(member: Name, target: Name, inherits: Fact, sets: Fact, admin: Fact)

  datatype Refusal =
    | AmbiguousCatalog
    | OwnerAbsent
    | OptionNotBoolean
    | UnknownRole
    | RoleAbsent
    | NothingReachable
    | SessionMissing
    | FactNotBoolean
    | DangerousRole

  datatype Outcome<T> = Accepted(value: T) | Refused(reason: Refusal)

  // ---------------------------------------------------------------- the graph

  predicate WellFormedCatalog(roles: seq<Role>) {
    && (forall r | r in roles :: r.name.Some? && r.name.value != "")
    && (forall i, j | 0 <= i < j < |roles| :: roles[i].name != roles[j].name)
  }

  function Names(roles: seq<Role>): set<string> {
    set r | r in roles && r.name.Some? :: r.name.value
  }

  predicate Boolean(m: Membership) {
    m.inherits.Is? && m.sets.Is? && m.admin.Is?
  }

  predicate Known(m: Membership, names: set<string>) {
    m.member.Some? && m.target.Some? && m.member.value in names && m.target.value in names
  }

  predicate Granting(m: Membership) {
    Is(true) in [m.inherits, m.sets, m.admin]
  }

  /** The first malformed membership decides the refusal. */
  function MembershipFault(memberships: seq<Membership>, names: set<string>): Option<Refusal> {
    if memberships == [] then None
    else if !Boolean(memberships[0]) then Some(OptionNotBoolean)
    else if !Known(memberships[0], names) then Some(UnknownRole)
    else MembershipFault(memberships[1..], names)
  }

  predicate Grant(memberships: seq<Membership>, a: string, b: string) {
    exists m | m in memberships :: m.member == Some(a) && m.target == Some(b) && Granting(m)
  }

  /** One way to act as another role: any granting membership, or owning the database. */
  predicate Edge(memberships: seq<Membership>, owner: string, a: string, b: string) {
    Grant(memberships, a, b) || (a == owner && b == DATABASE_OWNER_ROLE)
  }

  predicate IsPath(memberships: seq<Membership>, owner: string, path: seq<string>) {
    path != [] && forall i | 0 <= i < |path| - 1 :: Edge(memberships, owner, path[i], path[i + 1])
  }

  ghost predicate Reachable(memberships: seq<Membership>, owner: string, from: string, role: string) {
    exists path :: IsPath(memberships, owner, path) && path[0] == from && path[|path| - 1] == role
  }

  lemma ReachableItself(memberships: seq<Membership>, owner: string, role: string)
    ensures Reachable(memberships, owner, role, role)
  {
    assert IsPath(memberships, owner, [role]) && [role][0] == role;
  }

  lemma ReachableOneFurther(memberships: seq<Membership>, owner: string, from: string, a: string, b: string)
    requires Reachable(memberships, owner, from, a) && Edge(memberships, owner, a, b)
    ensures Reachable(memberships, owner, from, b)
  {
    var path :| IsPath(memberships, owner, path) && path[0] == from && path[|path| - 1] == a;
    var longer := path + [b];
    assert IsPath(memberships, owner, longer) && longer[0] == from && longer[|longer| - 1] == b;
  }

  ghost predicate Closed(memberships: seq<Membership>, owner: string, roles: set<string>) {
    forall a, b | a in roles && Edge(memberships, owner, a, b) :: b in roles
  }

  lemma {:induction false} PathsStayInClosedSets(memberships: seq<Membership>, owner: string, roles: set<string>,
                                                 path: seq<string>, n: nat)
    requires Closed(memberships, owner, roles) && IsPath(memberships, owner, path) && path[0] in roles && n < |path|
    ensures path[n] in roles
  {
    if n > 0 {
      PathsStayInClosedSets(memberships, owner, roles, path, n - 1);
      assert Edge(memberships, owner, path[n - 1], path[n - 1 + 1]);
    }
  }

  /** A closed set of reachable roles that holds the session is the whole closure. */
  lemma ClosedIsLeast(memberships: seq<Membership>, owner: string, roles: set<string>, from: string)
    requires Closed(memberships, owner, roles) && from in roles
    requires forall a | a in roles :: Reachable(memberships, owner, from, a)
    ensures forall a :: a in roles <==> Reachable(memberships, owner, from, a)
  {
    forall a | Reachable(memberships, owner, from, a) ensures a in roles {
      var path :| IsPath(memberships, owner, path) && path[0] == from && path[|path| - 1] == a;
      PathsStayInClosedSets(memberships, owner, roles, path, |path| - 1);
    }
  }

  // ---------------------------------------------------------------- indexing the catalog

  /** Roles by name; refused for an unnamed or repeated role. */
  method IndexRoles(roles: seq<Role>) returns (byName: map<string, Role>, ok: bool)
    ensures ok <==> WellFormedCatalog(roles)
    ensures ok ==> Indexed(roles, byName)
  {
    byName := map[];
    for i := 0 to |roles|
      invariant WellFormedCatalog(roles[..i]) && Indexed(roles[..i], byName)
    {
      var r := roles[i];
      assert roles[..i + 1] == roles[..i] + [r] && r in roles;
      if r.name.None? || r.name.value == "" {
        return byName, false;
      }
      if r.name.value in byName {
        RepeatedName(roles, i, byName[r.name.value]);
        return byName, false;
      }
      byName := byName[r.name.value := r];
    }
    assert roles[..|roles|] == roles;
    ok := true;
  }

  predicate Indexed(roles: seq<Role>, byName: map<string, Role>) {
    && byName.Keys == Names(roles)
    && (forall r | r in roles && r.name.Some? :: r.name.value in byName && byName[r.name.value] == r)
    && (forall n | n in byName :: byName[n] in roles && byName[n].name == Some(n))
  }

  lemma RepeatedName(roles: seq<Role>, i: nat, earlier: Role)
    requires i < |roles| && earlier in roles[..i] && earlier.name == roles[i].name
    ensures !WellFormedCatalog(roles)
  {
    var k :| 0 <= k < i && roles[..i][k] == earlier;
    assert roles[k].name == roles[i].name;
  }

  /** Granting memberships by member; refused at the first malformed one. */
  method IndexMemberships(memberships: seq<Membership>, names: set<string>)
    returns (edges: map<string, seq<string>>, fault: Option<Refusal>)
    ensures fault == MembershipFault(memberships, names)
    ensures fault.None? ==> forall a, b :: (a in edges && b in edges[a]) <==> Grant(memberships, a, b)
    ensures fault.None? ==> forall a, b | a in edges && b in edges[a] :: b in names
  {
    edges, fault := map[], None;
    assert memberships[0..] == memberships;
    for i := 0 to |memberships|
      invariant MembershipFault(memberships, names) == MembershipFault(memberships[i..], names)
      invariant forall a, b :: (a in edges && b in edges[a]) <==> Grant(memberships[..i], a, b)
      invariant forall a, b | a in edges && b in edges[a] :: b in names
    {
      var m := memberships[i];
      assert memberships[i..][0] == m && memberships[i..][1..] == memberships[i + 1..];
      if !Boolean(m) { return edges, Some(OptionNotBoolean); }
      if !Known(m, names) { return edges, Some(UnknownRole); }
      GrantsSoFar(memberships, i);
      if Granting(m) {
        var targets := if m.member.value in edges then edges[m.member.value] else [];
        edges := edges[m.member.value := targets + [m.target.value]];
      }
    }
    assert memberships[..|memberships|] == memberships;
  }

  lemma GrantsSoFar(memberships: seq<Membership>, i: nat)
    requires i < |memberships|
    ensures forall a, b :: Grant(memberships[..i + 1], a, b) <==>
      Grant(memberships[..i], a, b)
        || (memberships[i].member == Some(a) && memberships[i].target == Some(b) && Granting(memberships[i]))
  {
    assert memberships[..i + 1] == memberships[..i] + [memberships[i]];
  }

  // ---------------------------------------------------------------- the worklist

  function SetOf(s: seq<string>): set<string> {
    set x | x in s
  }

  predicate Distinct(s: seq<string>) {
    forall i, j | 0 <= i < j < |s| :: s[i] != s[j]
  }

  ghost predicate EdgesOf(edges: map<string, seq<string>>, memberships: seq<Membership>, names: set<string>) {
    && (forall a, b :: (a in edges && b in edges[a]) <==> Grant(memberships, a, b))
    && (forall a, b | a in edges && b in edges[a] :: b in names && b != "")
  }

  /** What the worklist keeps: visited and queued roles are reachable, and together they hold every successor. */
  ghost predicate Progress(memberships: seq<Membership>, owner: string, names: set<string>, sessionUser: string,
                           visited: seq<string>, queue: seq<string>) {
    && Distinct(visited) && SetOf(visited) <= names
    && (forall a | a in visited || a in queue :: Reachable(memberships, owner, sessionUser, a))
    && (forall a | a in visited || a in queue ::
          a == sessionUser || a in names || (a == DATABASE_OWNER_ROLE && owner in visited))
    && (forall a, b | a in visited && Edge(memberships, owner, a, b) :: b in visited || b in queue)
    && (sessionUser in visited || sessionUser in queue)
  }

  lemma VisitKeepsProgress(memberships: seq<Membership>, owner: string, names: set<string>, edges: map<string,
                           seq<string>>,
                           sessionUser: string, visited: seq<string>, queue: seq<string>)
    requires queue != [] && Progress(memberships, owner, names, sessionUser, visited, queue)
    requires EdgesOf(edges, memberships, names)
    requires queue[0] in names && queue[0] !in visited
    ensures var role := queue[0];
      var pushed := (if role in edges then edges[role] else []) + (if role == owner then [DATABASE_OWNER_ROLE] else []);
      Progress(memberships, owner, names, sessionUser, visited + [role], queue[1..] + pushed)
  {
    var role := queue[0];
    var pushed := (if role in edges then edges[role] else []) + (if role == owner then [DATABASE_OWNER_ROLE] else []);
    var visited', queue' := visited + [role], queue[1..] + pushed;
    forall a | a in visited' || a in queue' ensures Reachable(memberships, owner, sessionUser, a) {
      if a in pushed {
        assert Edge(memberships, owner, role, a);
        ReachableOneFurther(memberships, owner, sessionUser, role, a);
      } else {
        assert a in visited || a in queue;
      }
    }
    forall a, b | a in visited' && Edge(memberships, owner, a, b) ensures b in visited' || b in queue' {
      if a == role {
        assert b in pushed;
      } else {
        assert b in visited || b in queue;
        assert queue == [role] + queue[1..];
      }
    }
    assert queue == [role] + queue[1..];
  }

  lemma SkipKeepsProgress(memberships: seq<Membership>, owner: string, names: set<string>, sessionUser: string,
                          visited: seq<string>, queue: seq<string>)
    requires queue != [] && queue[0] in visited && Progress(memberships, owner, names, sessionUser, visited, queue)
    ensures Progress(memberships, owner, names, sessionUser, visited, queue[1..])
  {
    assert queue == [queue[0]] + queue[1..];
  }

  lemma VisitShrinksRest(names: set<string>, visited: seq<string>, role: string)
    requires role in names && role !in visited
    ensures |names - SetOf(visited + [role])| < |names - SetOf(visited)|
  {
    assert names - SetOf(visited + [role]) == names - SetOf(visited) - {role};
  }

  /** When the worklist is empty the visited roles are the closure; a missing role stops it earlier. */
  method Traverse(memberships: seq<Membership>, edges: map<string, seq<string>>, names: set<string>,
                  sessionUser: string, owner: string)
    returns (visited: seq<string>, complete: bool)
    requires sessionUser != "" && "" !in names && EdgesOf(edges, memberships, names)
    ensures Distinct(visited)
    ensures complete ==> SetOf(visited) <= names && forall a :: a in visited <==>
      Reachable(memberships, owner, sessionUser, a)
    ensures complete <==> !Missing(memberships, owner, names, sessionUser)
  {
    visited, complete := [], false;
    var queue := [sessionUser];
    ReachableItself(memberships, owner, sessionUser);
    while |queue| > 0
      invariant Progress(memberships, owner, names, sessionUser, visited, queue)
      decreases |names - SetOf(visited)|, |queue|
    {
      var roleName := queue[0];
      if roleName == "" || roleName in visited {
        SkipKeepsProgress(memberships, owner, names, sessionUser, visited, queue);
        queue := queue[1..];
      } else if roleName !in names {
        MissingFound(memberships, owner, names, sessionUser, visited, queue);
        return;
      } else {
        VisitKeepsProgress(memberships, owner, names, edges, sessionUser, visited, queue);
        VisitShrinksRest(names, visited, roleName);
        visited := visited + [roleName];
        queue := queue[1..];
        if roleName in edges { queue := queue + edges[roleName]; }
        if roleName == owner { queue := queue + [DATABASE_OWNER_ROLE]; }
      }
    }
    complete := true;
    NothingMissing(memberships, owner, names, sessionUser, visited);
  }

  /** The closure would need a role that the catalog does not list. */
  ghost predicate Missing(memberships: seq<Membership>, owner: string, names: set<string>, sessionUser: string) {
    sessionUser !in names || (DATABASE_OWNER_ROLE !in names && Reachable(memberships, owner, sessionUser, owner))
  }

  lemma MissingFound(memberships: seq<Membership>, owner: string, names: set<string>, sessionUser: string,
                     visited: seq<string>, queue: seq<string>)
    requires queue != [] && queue[0] !in names && Progress(memberships, owner, names, sessionUser, visited, queue)
    ensures Missing(memberships, owner, names, sessionUser)
  {
    assert queue[0] in queue;
  }

  lemma NothingMissing(memberships: seq<Membership>, owner: string, names: set<string>, sessionUser: string,
                       visited: seq<string>)
    requires Progress(memberships, owner, names, sessionUser, visited, [])
    ensures !Missing(memberships, owner, names, sessionUser)
    ensures forall a :: a in visited <==> Reachable(memberships, owner, sessionUser, a)
  {
    ClosedIsLeast(memberships, owner, SetOf(visited), sessionUser);
    assert sessionUser in SetOf(visited);
    if Reachable(memberships, owner, sessionUser, owner) {
      assert Edge(memberships, owner, owner, DATABASE_OWNER_ROLE);
      assert owner in SetOf(visited);
      assert DATABASE_OWNER_ROLE in SetOf(visited);
    }
  }

  // ---------------------------------------------------------------- the two exported functions

  ghost predicate IsClosure(list: seq<Role>, roles: seq<Role>, memberships: seq<Membership>, sessionUser: string,
                            owner: string) {
    && (forall r | r in list :: r in roles && r.name.Some?)
    && (forall i, j | 0 <= i < j < |list| :: list[i].name != list[j].name)
    && (forall n: string :: Some(n) in (set r | r in list :: r.name) <==>
          sessionUser != "" && Reachable(memberships, owner, sessionUser, n))
  }

  /** The closure without repeats, or the reason to refuse, first check first. */
  method ResolveReachableRoles(roles: seq<Role>, memberships: seq<Membership>, sessionUser: string,
                               databaseOwner: string)
    returns (r: Outcome<seq<Role>>)
    ensures r == Refused(AmbiguousCatalog) <==> !WellFormedCatalog(roles)
    ensures r == Refused(OwnerAbsent) <==> WellFormedCatalog(roles) && databaseOwner !in Names(roles)
    ensures WellFormedCatalog(roles) && databaseOwner in Names(roles) ==>
      var fault := MembershipFault(memberships, Names(roles));
      if fault.Some? then r == Refused(fault.value)
      else if sessionUser != "" && Missing(memberships, databaseOwner, Names(roles), sessionUser) then
        r == Refused(RoleAbsent)
      else r.Accepted? && IsClosure(r.value, roles, memberships, sessionUser, databaseOwner)
  {
    hide Missing, IsPath, Reachable, Edge, EdgesOf;
    var byName, ok := IndexRoles(roles);
    if !ok { return Refused(AmbiguousCatalog); }
    if databaseOwner !in byName { return Refused(OwnerAbsent); }
    var edges, fault := IndexMemberships(memberships, byName.Keys);
    if fault.Some? {
      FaultIsOne(memberships, Names(roles));
      return Refused(fault.value);
    }
    if sessionUser == "" {
      assert IsClosure([], roles, memberships, sessionUser, databaseOwner);
      return Accepted([]);
    }
    var visited, complete := Traverse(memberships, edges, byName.Keys, sessionUser, databaseOwner);
    if !complete { return Refused(RoleAbsent); }
    var list: seq<Role> := [];
    for i := 0 to |visited|
      invariant |list| == i
      invariant forall k | 0 <= k < i :: list[k] in roles && list[k].name == Some(visited[k])
    {
      assert visited[i] in SetOf(visited);
      list := list + [byName[visited[i]]];
    }
    NamesAreVisited(list, visited);
    r := Accepted(list);
  }

  lemma NamesAreVisited(list: seq<Role>, visited: seq<string>)
    requires |list| == |visited| && forall k | 0 <= k < |list| :: list[k].name == Some(visited[k])
    ensures forall n :: Some(n) in (set r | r in list :: r.name) <==> n in visited
  {
    forall n | n in visited ensures Some(n) in (set r | r in list :: r.name) {
      var k :| 0 <= k < |visited| && visited[k] == n;
      assert list[k] in list;
    }
  }

  lemma {:induction false} FaultIsOne(memberships: seq<Membership>, names: set<string>)
    ensures var fault := MembershipFault(memberships, names);
      fault.None? || fault.value == OptionNotBoolean || fault.value == UnknownRole
    ensures MembershipFault(memberships, names).None? <==> forall m | m in memberships :: Boolean(m) && Known(m, names)
  {
    if memberships != [] {
      FaultIsOne(memberships[1..], names);
    }
  }

  /** No dangerous attribute, not a predefined system role, and every fact really boolean. */
  predicate Harmless(r: Role) {
    forall f | f in Facts(r) :: f == Is(false)
  }

  function Facts(r: Role): seq<Fact> {
    [r.superuser, r.createDb, r.createRole, r.replication, r.bypassRls, r.predefined]
  }

  /** In the order of roles and, in a role, of facts this is the first that is not plainly false, and it is `f`. */
  predicate FirstHarm(reachable: seq<Role>, i: int, j: int, f: Fact) {
    && 0 <= i < |reachable| && 0 <= j < 6
    && (forall k | 0 <= k < i :: Harmless(reachable[k]))
    && (forall k | 0 <= k < j :: Facts(reachable[i])[k] == Is(false))
    && Facts(reachable[i])[j] == f
  }

  /** Refuses at the first role with a fact that is not plainly false. */
  method AssertSafeRoleReachability(reachable: seq<Role>, sessionUser: string) returns (refusal: Option<Refusal>)
    ensures refusal.None? <==>
      && (exists r | r in reachable :: r.name == Some(sessionUser))
      && forall r | r in reachable :: Harmless(r)
    ensures refusal == Some(NothingReachable) <==> reachable == []
    ensures refusal == Some(DangerousRole) ==> exists i, j :: FirstHarm(reachable, i, j, Is(true))
    ensures refusal == Some(FactNotBoolean) ==> exists i, j :: FirstHarm(reachable, i, j, NotBoolean)
    ensures refusal == Some(SessionMissing) <==> reachable != [] && forall r | r in reachable ::
      r.name != Some(sessionUser)
  {
    if |reachable| == 0 { return Some(NothingReachable); }
    var found := false;
    for i := 0 to |reachable|
      invariant found <==> exists r | r in reachable[..i] :: r.name == Some(sessionUser)
    {
      assert reachable[..i + 1] == reachable[..i] + [reachable[i]];
      if reachable[i].name == Some(sessionUser) { found := true; }
    }
    assert reachable[..|reachable|] == reachable;
    if !found { return Some(SessionMissing); }
    for i := 0 to |reachable|
      invariant forall k | 0 <= k < i :: Harmless(reachable[k])
    {
      var facts := Facts(reachable[i]);
      for j := 0 to |facts|
        invariant forall k | 0 <= k < j :: facts[k] == Is(false)
      {
        if facts[j] != Is(false) {
          assert facts[j] in facts && reachable[i] in reachable;
          assert FirstHarm(reachable, i, j, facts[j]);
          return Some(if facts[j].NotBoolean? then FactNotBoolean else DangerousRole);
        }
      }
    }
    refusal := None;
  }

  // ---------------------------------------------------------------- what the terms mean for the catalog rows

  /** Any one of the three options lets a member act as the role; owning the database always does. */
  lemma EdgeMeans(memberships: seq<Membership>, owner: string, a: string, b: string)
    ensures Edge(memberships, owner, a, b) <==>
      || (a == owner && b == "pg_database_owner")
      || (exists m | m in memberships ::
            && m.member == Some(a) && m.target == Some(b)
            && (m.inherits == Is(true) || m.sets == Is(true) || m.admin == Is(true)))
  {
  }

  lemma HarmlessMeans(r: Role)
    ensures Harmless(r) <==>
      && r.superuser == Is(false) && r.createDb == Is(false) && r.createRole == Is(false)
      && r.replication == Is(false) && r.bypassRls == Is(false) && r.predefined == Is(false)
  {
    var facts := Facts(r);
    assert facts[0] in facts && facts[1] in facts && facts[2] in facts;
    assert facts[3] in facts && facts[4] in facts && facts[5] in facts;
  }

  predicate BooleanOptions(m: Membership) {
    m.inherits != NotBoolean && m.sets != NotBoolean && m.admin != NotBoolean
  }

  predicate BetweenKnownRoles(m: Membership, names: set<string>) {
    exists a, b | a in names && b in names :: m.member == Some(a) && m.target == Some(b)
  }

  predicate SoundBefore(memberships: seq<Membership>, names: set<string>, n: nat)
    requires n <= |memberships|
  {
    forall i | 0 <= i < n :: BooleanOptions(memberships[i]) && BetweenKnownRoles(memberships[i], names)
  }

  /** The refusal is that of the first membership that is not sound, for its options before its roles. */
  lemma {:induction false} FirstFaultDecides(memberships: seq<Membership>, names: set<string>)
    ensures var fault := MembershipFault(memberships, names);
      && (fault.None? <==> SoundBefore(memberships, names, |memberships|))
      && (fault.Some? ==>
            exists i | 0 <= i < |memberships| ::
              && SoundBefore(memberships, names, i)
              && (if !BooleanOptions(memberships[i]) then fault == Some(OptionNotBoolean)
                  else !BetweenKnownRoles(memberships[i], names) && fault == Some(UnknownRole)))
  {
    if memberships != [] {
      var m, rest := memberships[0], memberships[1..];
      KnownMeans(m, names);
      if !Boolean(m) || !Known(m, names) {
        assert SoundBefore(memberships, names, 0);
      } else {
        FirstFaultDecides(rest, names);
        assert forall i | 0 <= i < |rest| :: rest[i] == memberships[i + 1];
        var fault := MembershipFault(rest, names);
        if fault.Some? {
          var i :| 0 <= i < |rest| && SoundBefore(rest, names, i)
                   && (if !BooleanOptions(rest[i]) then fault == Some(OptionNotBoolean)
                       else !BetweenKnownRoles(rest[i], names) && fault == Some(UnknownRole));
          assert SoundBefore(memberships, names, i + 1);
        }
      }
    }
  }

  lemma KnownMeans(m: Membership, names: set<string>)
    ensures Known(m, names) <==> BetweenKnownRoles(m, names)
  {
  }

  /**
   The session may run exactly when the catalog is sound and no path of memberships and ownership
   leads from it to a role that is not harmless.
   */
  method MayRun(roles: seq<Role>, memberships: seq<Membership>, sessionUser: string, databaseOwner: string)
    returns (ok: bool)
    ensures ok <==>
      && WellFormedCatalog(roles) && databaseOwner in Names(roles)
      && (forall m | m in memberships :: Boolean(m) && Known(m, Names(roles)))
      && sessionUser != "" && !Missing(memberships, databaseOwner, Names(roles), sessionUser)
      && forall r | r in roles && Reachable(memberships, databaseOwner, sessionUser, r.name.value) :: Harmless(r)
  {
    FaultIsOne(memberships, Names(roles));
    var r := ResolveReachableRoles(roles, memberships, sessionUser, databaseOwner);
    if r.Refused? { return false; }
    var refusal := AssertSafeRoleReachability(r.value, sessionUser);
    ClosureDecides(r.value, roles, memberships, sessionUser, databaseOwner);
    return refusal.None?;
  }

  lemma ClosureDecides(list: seq<Role>, roles: seq<Role>, memberships: seq<Membership>, sessionUser: string,
                       owner: string)
    requires WellFormedCatalog(roles) && IsClosure(list, roles, memberships, sessionUser, owner)
    ensures (exists r | r in list :: r.name == Some(sessionUser)) <==> sessionUser != ""
    ensures sessionUser != "" ==> ((forall r | r in list :: Harmless(r)) <==>
      forall r | r in roles && Reachable(memberships, owner, sessionUser, r.name.value) :: Harmless(r))
  {
    ReachableItself(memberships, owner, sessionUser);
    var names := set r | r in list :: r.name;
    if sessionUser != "" {
      assert Some(sessionUser) in names;
      forall r | r in roles && Reachable(memberships, owner, sessionUser, r.name.value) ensures r in list {
        assert r.name in names;
        var x :| x in list && x.name == r.name;
        var i :| 0 <= i < |roles| && roles[i] == r;
        var j :| 0 <= j < |roles| && roles[j] == x;
      }
      forall r | r in list ensures Reachable(memberships, owner, sessionUser, r.name.value) {
        assert r.name in names;
      }
    } else {
      assert Some(sessionUser) !in names;
    }
  }
}
