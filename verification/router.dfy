/** The route guards `ProtectedRoute` and `PublicRoute`, the two role-to-
    dashboard switches, and the route table of `router.tsx`. */
module Router {
  import opened Values
  import opened AuthStore
  import opened Text

  /** What a guard renders. `AccessDenied` shows the user's role and offers a
      button to `dashboard`; it does not navigate by itself. */
  datatype Decision = Loading | Redirect(path: string) | AccessDenied(role: string, dashboard: string) | Render

  /** The target of the "Go to Your Dashboard" button on the Access Denied page. */
  function DeniedDashboard(role: string): (path: string)
    ensures path == "/admin" <==> role == "admin"
    ensures path == "/member" <==> role == "member"
    ensures path == "/user" <==> role != "admin" && role != "member"
  {
    if role == "admin" then "/admin"
    else if role == "member" then "/member"
    else "/user"
  }

  /** Where `PublicRoute` sends a signed-in user (`'user'` and every unknown
      role share the default branch). */
  function RoleHome(role: string): (path: string)
    ensures path == "/admin" <==> role == "admin"
    ensures path == "/member" <==> role == "member"
    ensures path == "/user" <==> role != "admin" && role != "member"
  {
    if role == "admin" then "/admin"
    else if role == "member" then "/member"
    else if role == "user" then "/user"
    else "/user"
  }

  /** The two switches send every role to the same place. */
  lemma SwitchesAgree(role: string)
    ensures DeniedDashboard(role) == RoleHome(role)
  {
  }

  /** `ProtectedRoute`: loading first, then sign-in redirect, then the role
      check against `allowedRoles`. */
  function ProtectedRoute(state: AuthState, allowedRoles: seq<string>): (d: Decision)
    ensures d == Loading <==> state.loading
    ensures d == Redirect("/auth") <==> !state.loading && state.user.None?
    ensures d.Redirect? ==> d.path == "/auth"
    ensures d.AccessDenied? <==>
              !state.loading && state.user.Some? && state.user.value.role !in allowedRoles
    ensures d.AccessDenied? ==>
              d.role == state.user.value.role && d.dashboard == DeniedDashboard(d.role)
    ensures d == Render <==>
              !state.loading && state.user.Some? && state.user.value.role in allowedRoles
  {
    if state.loading then Loading
    else if state.user.None? then Redirect("/auth")
    else if state.user.value.role !in allowedRoles then
      AccessDenied(state.user.value.role, DeniedDashboard(state.user.value.role))
    else Render
  }

  /** `PublicRoute`: loading first; a signed-in user goes to their role's
      home; otherwise the page renders. */
  function PublicRoute(state: AuthState): (d: Decision)
    ensures d == Loading <==> state.loading
    ensures d.Redirect? <==> !state.loading && state.user.Some?
    ensures d.Redirect? ==> d.path == RoleHome(state.user.value.role)
    ensures d == Render <==> !state.loading && state.user.None?
    ensures !d.AccessDenied?
  {
    if state.loading then Loading
    else if state.user.Some? then Redirect(RoleHome(state.user.value.role))
    else Render
  }

  /** While the store is loading, every guard shows the placeholder. */
  lemma LoadingGuardsEverything(state: AuthState, allowedRoles: seq<string>)
    requires state.loading
    ensures ProtectedRoute(state, allowedRoles) == Loading
    ensures PublicRoute(state) == Loading
  {
  }

  /** The pages behind the routes. */
  datatype Page = PackagesPage | AuthPage | AdminDashboard | AdminMembers
                | MemberDashboard | MemberBills | UserDashboard

  /** A route's element: a fixed redirect, a page behind `PublicRoute`, or a
      page behind `ProtectedRoute` with its allowed roles. */
  datatype Element = NavigateTo(to: string) | Public(page: Page) | Protected(allowedRoles: seq<string>, page: Page)

  datatype Route = Route(path: string, element: Element)

  /** The route table, in declaration order. */
  const Routes: seq<Route> := [
    Route("/", NavigateTo("/auth")),
    Route("/packages", Public(PackagesPage)),
    Route("/auth", Public(AuthPage)),
    Route("/admin", Protected(["admin"], AdminDashboard)),
    Route("/admin/members", Protected(["admin"], AdminMembers)),
    Route("/member", Protected(["member"], MemberDashboard)),
    Route("/member/bills", Protected(["member"], MemberBills)),
    Route("/user", Protected(["user"], UserDashboard))
  ]

  /** The element of the first route whose path is `path`. */
  function Find(routes: seq<Route>, path: string): (r: Option<Element>)
    ensures r.None? <==> forall i :: 0 <= i < |routes| ==> routes[i].path != path
    ensures r.Some? ==> exists i :: 0 <= i < |routes| && routes[i] == Route(path, r.value)
  {
    if routes == [] then None
    else if routes[0].path == path then Some(routes[0].element)
    else Find(routes[1..], path)
  }

  /** `s` without its trailing slashes, except that a leading one is kept. */
  function DropTrailingSlashes(s: string): (r: string)
    ensures r <= s
    ensures forall i :: |r| <= i < |s| ==> s[i] == '/'
    ensures |r| > 1 ==> r[|r| - 1] != '/'
    ensures s != "" ==> r != ""
  {
    if |s| > 1 && s[|s| - 1] == '/' then DropTrailingSlashes(s[..|s| - 1]) else s
  }

  /** What a route's path is compared with. `createBrowserRouter` builds each
      pattern case-insensitive and lets it end in any number of slashes, so a
      URL path is compared in lower case with its trailing slashes dropped (a
      path of slashes alone keeps the first). */
  function MatchKey(path: string): (k: string)
    ensures |k| <= |path| && k == ToLower(path)[..|k|]
    ensures forall i :: |k| <= i < |path| ==> path[i] == '/'
    ensures |k| > 1 ==> k[|k| - 1] != '/'
    ensures path != "" ==> k != ""
  {
    var lower := ToLower(path);
    var k := DropTrailingSlashes(lower);
    assert forall i :: |k| <= i < |path| ==> path[i] == '/' by {
      forall i | |k| <= i < |path| ensures path[i] == '/' {
        assert lower[i] == LowerChar(path[i]) == '/';
      }
    }
    k
  }

  /** A lower-case path without a trailing slash is its own key: the table's
      paths are compared as written. */
  lemma MatchKeyFixes(p: string)
    requires forall i :: 0 <= i < |p| ==> !IsUpper(p[i])
    requires p == "/" || (p != "" && p[|p| - 1] != '/')
    ensures MatchKey(p) == p
  {
    assert ToLower(p) == p;
  }

  /** Letter case plays no part in which route a path reaches. */
  lemma {:induction false} MatchKeyIgnoresCase(p: string)
    ensures MatchKey(ToLower(p)) == MatchKey(p)
  {
    assert ToLower(ToLower(p)) == ToLower(p);
  }

  /** Nor does a trailing slash after a non-empty path. */
  lemma {:induction false} MatchKeyIgnoresTrailingSlash(p: string)
    requires p != ""
    ensures MatchKey(p + "/") == MatchKey(p)
  {
    assert ToLower(p + "/") == ToLower(p) + "/";
    assert (ToLower(p) + "/")[..|ToLower(p) + "/"| - 1] == ToLower(p);
  }

  /** What navigating to `path` shows (None: no route matches). */
  function Visit(state: AuthState, path: string): (d: Option<Decision>)
    ensures d.None? <==> forall i :: 0 <= i < |Routes| ==> Routes[i].path != MatchKey(path)
  {
    match Find(Routes, MatchKey(path))
    case None => None
    case Some(NavigateTo(to)) => Some(Redirect(to))
    case Some(Public(_)) => Some(PublicRoute(state))
    case Some(Protected(roles, _)) => Some(ProtectedRoute(state, roles))
  }

  /** `/Admin/`, `/ADMIN` and `/admin//` all reach the `/admin` route. */
  lemma VisitIgnoresCaseAndTrailingSlash(state: AuthState, path: string)
    requires path != ""
    ensures Visit(state, ToLower(path)) == Visit(state, path)
    ensures Visit(state, path + "/") == Visit(state, path)
  {
    MatchKeyIgnoresCase(path);
    VisitByKey(state, ToLower(path), path);
    MatchKeyIgnoresTrailingSlash(path);
    VisitByKey(state, path + "/", path);
  }

  /** Paths with the same key reach the same decision. */
  lemma VisitByKey(state: AuthState, a: string, b: string)
    requires MatchKey(a) == MatchKey(b)
    ensures Visit(state, a) == Visit(state, b)
  {
  }

  /** A path whose key finds a protected route is guarded by that route's
      roles. */
  lemma VisitProtected(state: AuthState, path: string, roles: seq<string>, page: Page)
    requires Find(Routes, MatchKey(path)) == Some(Protected(roles, page))
    ensures Visit(state, path) == Some(ProtectedRoute(state, roles))
  {
  }

  /** No two routes share a path, so the first match is the only one. */
  lemma PathsDistinct()
    ensures forall i, j :: 0 <= i < j < |Routes| ==> Routes[i].path != Routes[j].path
  {
  }

  /** Every protected route admits exactly one role. */
  lemma ProtectedRoutesAllowOneRole()
    ensures forall i :: 0 <= i < |Routes| && Routes[i].element.Protected? ==>
              |Routes[i].element.allowedRoles| == 1
  {
  }

  /** `/` always redirects to `/auth`, whoever is signed in. */
  lemma RootRedirectsToAuth(state: AuthState)
    ensures Visit(state, "/") == Some(Redirect("/auth"))
  {
  }

  /** The roles the profile type declares. */
  predicate KnownRole(role: string) {
    role == "admin" || role == "member" || role == "user"
  }

  /** The home route of every known role is protected for that role alone. */
  lemma HomeRouteAllowsRole(role: string)
    requires KnownRole(role)
    ensures Find(Routes, RoleHome(role)).Some?
    ensures Find(Routes, RoleHome(role)).value.Protected?
    ensures Find(Routes, RoleHome(role)).value.allowedRoles == [role]
  {
    if role == "admin" {
      AdminRoute();
    } else if role == "member" {
      MemberRoute();
    } else {
      UserRoute();
    }
  }

  /** The `/admin` route, found in the table. */
  lemma AdminRoute()
    ensures Find(Routes, "/admin") == Some(Protected(["admin"], AdminDashboard))
  {
    FindAt(Routes, "/admin", 3);
  }

  /** The `/member` route, found in the table. */
  lemma MemberRoute()
    ensures Find(Routes, "/member") == Some(Protected(["member"], MemberDashboard))
  {
    FindAt(Routes, "/member", 5);
  }

  /** The `/user` route, found in the table. */
  lemma UserRoute()
    ensures Find(Routes, "/user") == Some(Protected(["user"], UserDashboard))
  {
    FindAt(Routes, "/user", 7);
  }

  /** The lookup returns the first route carrying the path. */
  lemma {:induction false} FindAt(routes: seq<Route>, path: string, i: nat)
    requires i < |routes| && routes[i].path == path
    requires forall j :: 0 <= j < i ==> routes[j].path != path
    ensures Find(routes, path) == Some(routes[i].element)
    decreases i
  {
    if i > 0 {
      FindAt(routes[1..], path, i - 1);
    }
  }

  /** The home path of a known role reaches its route as written. */
  lemma HomeIsItsOwnKey(role: string)
    requires KnownRole(role)
    ensures MatchKey(RoleHome(role)) == RoleHome(role)
  {
    var home := RoleHome(role);
    assert home == "/admin" || home == "/member" || home == "/user";
    assert forall i :: 0 <= i < |home| ==> !IsUpper(home[i]);
    MatchKeyFixes(home);
  }

  /** Visiting the home of a known role with that role signed in renders. */
  lemma VisitHomeRenders(state: AuthState)
    requires !state.loading && state.user.Some? && KnownRole(state.user.value.role)
    ensures Visit(state, RoleHome(state.user.value.role)) == Some(Render)
  {
    var role := state.user.value.role;
    HomeRouteAllowsRole(role);
    HomeIsItsOwnKey(role);
    var e := Find(Routes, RoleHome(role)).value;
    assert ProtectedRoute(state, e.allowedRoles) == Render;
  }

  /** Following `PublicRoute`'s redirect for a signed-in user with a known
      role renders their dashboard; it never ends on Access Denied. */
  lemma PublicRedirectNeverDenied(state: AuthState)
    requires !state.loading && state.user.Some? && KnownRole(state.user.value.role)
    ensures PublicRoute(state).Redirect?
    ensures Visit(state, PublicRoute(state).path) == Some(Render)
  {
    VisitHomeRenders(state);
  }

  /** The Access Denied button of a known role names a page that renders for
      that user. The button assigns `window.location.href`, a full page load
      that starts a new store; the statement is about that new store once it
      has settled on the same signed-in profile. */
  lemma DeniedDashboardRenders(state: AuthState, allowedRoles: seq<string>)
    requires !state.loading && state.user.Some? && KnownRole(state.user.value.role)
    requires ProtectedRoute(state, allowedRoles).AccessDenied?
    ensures Visit(state, ProtectedRoute(state, allowedRoles).dashboard) == Some(Render)
  {
    SwitchesAgree(state.user.value.role);
    VisitHomeRenders(state);
  }

  /** A role outside the three (the column is a plain string) is sent to
      `/user` and denied there. */
  lemma UnknownRoleDeniedAtHome(p: Profile)
    requires !KnownRole(p.role)
    ensures PublicRoute(AuthState(Some(p), false)) == Redirect("/user")
    ensures Visit(AuthState(Some(p), false), "/user") == Some(AccessDenied(p.role, "/user"))
  {
    var state := AuthState(Some(p), false);
    UserRoute();
    HomeIsItsOwnKey("user");
    VisitProtected(state, "/user", ["user"], UserDashboard);
    assert p.role !in ["user"];
    assert ProtectedRoute(state, ["user"]) == AccessDenied(p.role, DeniedDashboard(p.role));
  }
}
