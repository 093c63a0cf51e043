/**
 * The route table of src/routes/index.tsx and the access decision it yields
 * when the guards on a path are evaluated from the outermost in.
 */
module Routes {
  import opened Wrappers
  import opened Paths
  import opened AuthStore
  import opened ProtectedRoute

  /** A route: its path and the `roles` prop of each ProtectedRoute around it, outermost first. */
  datatype Route = Route(path: string, guards: seq<Option<seq<string>>>)

  const ProductsPath := "/products"
  const UsersPath := "/users"
  const AuditPath := "/audit"

  /** The five routes, with the child path '' of /users and /audit folded into their parent. */
  const Table: seq<Route> := [
    Route(LoginPath, []),
    Route(HomePath, [None]),
    Route(ProductsPath, [None]),
    Route(UsersPath, [None, Some([Admin])]),
    Route(AuditPath, [None, Some([Admin, Operator])])
  ]

  /** ASCII lower case: the router's path patterns match without regard to case. */
  function LowerAscii(c: char): char {
    if 'A' <= c <= 'Z' then (c as int + 32) as char else c
  }

  /** The path with every trailing '/' removed, which the router's patterns accept. */
  function StripSlashes(s: string): string
    decreases |s|
  {
    if s != [] && s[|s| - 1] == '/' then StripSlashes(s[..|s| - 1]) else s
  }

  /** Stripping keeps a prefix that does not end in '/' and removes only slashes. */
  lemma {:induction false} StripSlashesRemovesOnlySlashes(s: string)
    ensures StripSlashes(s) <= s
    ensures StripSlashes(s) == [] || StripSlashes(s)[|StripSlashes(s)| - 1] != '/'
    ensures forall i :: |StripSlashes(s)| <= i < |s| ==> s[i] == '/'
    decreases |s|
  {
    if s != [] && s[|s| - 1] == '/' {
      StripSlashesRemovesOnlySlashes(s[..|s| - 1]);
    }
  }

  /** The form in which the router compares a location with a pattern. */
  function Normal(path: string): string {
    StripSlashes(seq(|path|, i requires 0 <= i < |path| => LowerAscii(path[i])))
  }

  /** A route pattern matches a location up to ASCII case and trailing slashes. */
  predicate Matches(pattern: string, path: string) {
    Normal(path) == Normal(pattern)
  }

  /** The first route whose pattern matches `path`. */
  function Find(table: seq<Route>, path: string): (r: Option<Route>)
    ensures r.Some? ==> r.value in table && Matches(r.value.path, path)
    ensures r.None? ==> forall i :: 0 <= i < |table| ==> !Matches(table[i].path, path)
    decreases |table|
  {
    if table == [] then None
    else if Matches(table[0].path, path) then Some(table[0])
    else Find(table[1..], path)
  }

  /** The position of the first guard that does not render its outlet, or |guards| if every one does. */
  function FirstRefusal(guards: seq<Option<seq<string>>>, hydrated: bool, token: Option<string>, path: string, user: Option<User>): (i: nat)
    ensures i <= |guards|
    ensures forall j :: 0 <= j < i ==> Decide(hydrated, token, path, guards[j], user) == Outlet
    ensures i < |guards| ==> Decide(hydrated, token, path, guards[i], user) != Outlet
    decreases |guards|
  {
    if guards == [] then 0
    else if Decide(hydrated, token, path, guards[0], user) != Outlet then 0
    else 1 + FirstRefusal(guards[1..], hydrated, token, path, user)
  }

  /** Nested guards: each renders its Outlet into the next; the first that does not decides. */
  function Chain(guards: seq<Option<seq<string>>>, hydrated: bool, token: Option<string>, path: string, user: Option<User>): (v: View)
    ensures v == Outlet <==> forall i :: 0 <= i < |guards| ==> Decide(hydrated, token, path, guards[i], user) == Outlet
    ensures var i := FirstRefusal(guards, hydrated, token, path, user);
      v == if i == |guards| then Outlet else Decide(hydrated, token, path, guards[i], user)
    decreases |guards|
  {
    if guards == [] then Outlet
    else
      var v := Decide(hydrated, token, path, guards[0], user);
      if v != Outlet then v
      else
        var r := Chain(guards[1..], hydrated, token, path, user);
        var k := FirstRefusal(guards[1..], hydrated, token, path, user);
        assert k < |guards[1..]| ==> guards[k + 1] == guards[1..][k];
        r
  }

  /** What the router shows for `path`: None when no route matches. */
  function Access(hydrated: bool, token: Option<string>, path: string, user: Option<User>): Option<View> {
    match Find(Table, path)
    case None => None
    case Some(route) => Some(Chain(route.guards, hydrated, token, path, user))
  }

  /** The patterns of the table in normal form: the five are distinct. */
  lemma NormalPatterns()
    ensures Normal(LoginPath) == LoginPath && Normal(HomePath) == "" && Normal(ProductsPath) == ProductsPath
    ensures Normal(UsersPath) == UsersPath && Normal(AuditPath) == AuditPath
  {
    assert seq(|LoginPath|, i requires 0 <= i < |LoginPath| => LowerAscii(LoginPath[i])) == LoginPath;
    assert seq(|HomePath|, i requires 0 <= i < |HomePath| => LowerAscii(HomePath[i])) == HomePath;
    assert HomePath[..0] == "";
    assert seq(|ProductsPath|, i requires 0 <= i < |ProductsPath| => LowerAscii(ProductsPath[i])) == ProductsPath;
    assert seq(|UsersPath|, i requires 0 <= i < |UsersPath| => LowerAscii(UsersPath[i])) == UsersPath;
    assert seq(|AuditPath|, i requires 0 <= i < |AuditPath| => LowerAscii(AuditPath[i])) == AuditPath;
  }

  /** A location reaches the route of the one pattern it matches. */
  lemma {:induction false} FindTable(path: string)
    ensures Matches(LoginPath, path) ==> Find(Table, path) == Some(Table[0])
    ensures Matches(HomePath, path) ==> Find(Table, path) == Some(Table[1])
    ensures Matches(ProductsPath, path) ==> Find(Table, path) == Some(Table[2])
    ensures Matches(UsersPath, path) ==> Find(Table, path) == Some(Table[3])
    ensures Matches(AuditPath, path) ==> Find(Table, path) == Some(Table[4])
  {
    NormalPatterns();
    var t1, t2, t3, t4 := Table[1..], Table[2..], Table[3..], Table[4..];
    assert t1[1..] == t2 && t2[1..] == t3 && t3[1..] == t4;
    assert t1[0] == Table[1] && t2[0] == Table[2] && t3[0] == Table[3] && t4[0] == Table[4];
    assert LoginPath != "" && LoginPath != ProductsPath && LoginPath != UsersPath && LoginPath != AuditPath;
    assert "" != ProductsPath && "" != UsersPath && "" != AuditPath;
    assert ProductsPath[1] == 'p' && UsersPath[1] == 'u' && AuditPath[1] == 'a';
  }

  /** The router folds case and drops trailing slashes: "/Users/" is /users and "/LOGIN" is /login. */
  lemma CaseAndTrailingSlashIgnored()
    ensures Find(Table, "/Users/") == Some(Table[3])
    ensures Find(Table, "/LOGIN") == Some(Table[0])
  {
    var u := "/Users/";
    var fu := seq(|u|, i requires 0 <= i < |u| => LowerAscii(u[i]));
    assert fu == "/users/";
    assert fu[..|fu| - 1] == UsersPath;
    var l := "/LOGIN";
    assert seq(|l|, i requires 0 <= i < |l| => LowerAscii(l[i])) == LoginPath;
    NormalPatterns();
    FindTable(u);
    FindTable(l);
  }

  /** /login is outside every guard: it renders whatever the session. */
  lemma LoginAlwaysRenders(hydrated: bool, token: Option<string>, path: string, user: Option<User>)
    requires Matches(LoginPath, path)
    ensures Access(hydrated, token, path, user) == Some(Outlet)
  {
    FindTable(path);
  }

  /** / and /products need only hydration and a token. */
  lemma TokenOnlyPaths(hydrated: bool, token: Option<string>, path: string, user: Option<User>)
    requires Matches(HomePath, path) || Matches(ProductsPath, path)
    ensures Access(hydrated, token, path, user) == Some(Outlet) <==> hydrated && Truthy(token)
    ensures hydrated && !Truthy(token) ==> Access(hydrated, token, path, user) == Some(RedirectTo(LoginPath, true))
  {
    FindTable(path);
    NormalPatterns();
    assert path != LoginPath;
  }

  /** /users: a token and the role admin (or no user object at all). */
  lemma UsersNeedsAdmin(hydrated: bool, token: Option<string>, path: string, user: Option<User>)
    requires Matches(UsersPath, path)
    ensures Access(hydrated, token, path, user) == Some(Outlet) <==>
      hydrated && Truthy(token) && (user.None? || user.value.role == Admin)
    ensures hydrated && Truthy(token) && user.Some? && user.value.role != Admin ==>
      Access(hydrated, token, path, user) == Some(AccessDenied(user.value.role))
  {
    FindTable(path);
    NormalPatterns();
    assert path != LoginPath;
    var guards := Table[3].guards;
    assert guards[1] == Some([Admin]);
    assert user.Some? ==> (user.value.role in [Admin] <==> user.value.role == Admin);
    assert Chain(guards, hydrated, token, path, user) == Outlet <==>
      Decide(hydrated, token, path, guards[0], user) == Outlet && Decide(hydrated, token, path, guards[1], user) == Outlet;
  }

  /** /audit: a token and the role admin or operator (or no user object at all). */
  lemma AuditNeedsAdminOrOperator(hydrated: bool, token: Option<string>, path: string, user: Option<User>)
    requires Matches(AuditPath, path)
    ensures Access(hydrated, token, path, user) == Some(Outlet) <==>
      hydrated && Truthy(token) && (user.None? || user.value.role == Admin || user.value.role == Operator)
    ensures hydrated && Truthy(token) && user.Some? && user.value.role != Admin && user.value.role != Operator ==>
      Access(hydrated, token, path, user) == Some(AccessDenied(user.value.role))
  {
    FindTable(path);
    NormalPatterns();
    assert path != LoginPath;
    var guards := Table[4].guards;
    assert guards[1] == Some([Admin, Operator]);
    assert user.Some? ==> (user.value.role in [Admin, Operator] <==> user.value.role == Admin || user.value.role == Operator);
    assert Chain(guards, hydrated, token, path, user) == Outlet <==>
      Decide(hydrated, token, path, guards[0], user) == Outlet && Decide(hydrated, token, path, guards[1], user) == Outlet;
  }

  /** Without a token the outer guard redirects before any role is looked at. */
  lemma NoTokenRedirectsFirst(token: Option<string>, path: string, user: Option<User>)
    requires Matches(UsersPath, path) || Matches(AuditPath, path)
    requires !Truthy(token)
    ensures Access(true, token, path, user) == Some(RedirectTo(LoginPath, true))
  {
    FindTable(path);
    NormalPatterns();
    assert path != LoginPath;
  }

  /** Locations that match no pattern of the table match no route. */
  lemma UnknownPathsMatchNothing(hydrated: bool, token: Option<string>, path: string, user: Option<User>)
    requires forall i :: 0 <= i < |Table| ==> !Matches(Table[i].path, path)
    ensures Access(hydrated, token, path, user) == None
  {
  }
}
