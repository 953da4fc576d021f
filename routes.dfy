/** The route table (RoutesComponent): two public routes behind
    PublicRoute, five protected routes nested under the ProtectedRoute
    layout, and a wildcard to NotFound with no guard. Paths are matched as
    React Router does by default: letters compare case-insensitively and
    trailing slashes are ignored. */
module Routes {
  import opened JsValues
  import opened Strings
  import opened RouteGuards

  datatype Page = Login | SignUp | Home | UserList | DashboardUserList | Profile | Contacts | NotFound

  datatype Guard = Public | Protected | Unguarded

  datatype Route = Route(path: string, guard: Guard, page: Page)

  const RouteTable: seq<Route> := [
    Route("/login", Public, Login),
    Route("/signup", Public, SignUp),
    Route("/", Protected, Home),
    Route("/userlist", Protected, UserList),
    Route("/dashboarduserlist", Protected, DashboardUserList),
    Route("/profile", Protected, Profile),
    Route("/contacts", Protected, Contacts)
  ]

  /** `<Route path='*' element={<NotFound />} />`. */
  const Wildcard := Route("*", Unguarded, NotFound)

  /** `p` without the slashes it ends with. */
  function StripTrailingSlashes(p: string): (r: string)
    ensures |r| <= |p| && r == p[..|r|]
    ensures r == [] || r[|r| - 1] != '/'
    ensures forall i :: |r| <= i < |p| ==> p[i] == '/'
  {
    if p != [] && p[|p| - 1] == '/' then StripTrailingSlashes(p[..|p| - 1]) else p
  }

  /** Whether a route path (all lower case, starting with a slash) matches a
      pathname: the pathname without its trailing slashes equals the path up
      to the case of ASCII letters; the root path matches a non-empty
      pathname made only of slashes. */
  predicate PathMatches(pattern: string, pathname: string) {
    if pattern == "/" then pathname != "" && StripTrailingSlashes(pathname) == ""
    else Lower(StripTrailingSlashes(pathname)) == pattern
  }

  function FirstMatch(routes: seq<Route>, pathname: string): (r: Option<Route>)
    ensures r.Some? <==> exists i :: 0 <= i < |routes| && PathMatches(routes[i].path, pathname)
    ensures r.Some? ==> r.value in routes && PathMatches(r.value.path, pathname)
  {
    if routes == [] then None
    else if PathMatches(routes[0].path, pathname) then Some(routes[0])
    else
      var r := FirstMatch(routes[1..], pathname);
      assert forall i :: 1 <= i < |routes| ==> routes[i] == routes[1..][i - 1];
      r
  }

  /** The route a pathname selects: the table entry that matches it, or the
      wildcard when none does. */
  function Lookup(pathname: string): (r: Route)
    ensures r == Wildcard <==> forall i :: 0 <= i < |RouteTable| ==> !PathMatches(RouteTable[i].path, pathname)
    ensures r != Wildcard ==> r in RouteTable && PathMatches(r.path, pathname)
  {
    FirstMatch(RouteTable, pathname).GetOr(Wildcard)
  }

  /** What the router ends up rendering for a location. */
  datatype Render = Show(page: Page) | Redirect(to: string, replace: bool, state: Option<Location>)

  function FromGuard(g: GuardResult, page: Page): Render {
    match g
    case RenderInner => Show(page)
    case Navigate(to, replace, state) => Redirect(to, replace, state)
  }

  /** The guard of the selected route, applied to the token state at render
      time. */
  function Resolve(location: Location, hasToken: bool): (r: Render)
    ensures Lookup(location.pathname).guard == Public ==>
              r == (if hasToken then Redirect("/", true, None) else Show(Lookup(location.pathname).page))
    ensures Lookup(location.pathname).guard == Protected ==>
              r == (if hasToken then Show(Lookup(location.pathname).page) else Redirect("/login", true, Some(location)))
    ensures Lookup(location.pathname).guard == Unguarded ==> r == Show(NotFound)
  {
    var route := Lookup(location.pathname);
    match route.guard
    case Public => FromGuard(PublicRoute(hasToken), route.page)
    case Protected => FromGuard(ProtectedRoute(hasToken, location), route.page)
    case Unguarded => Show(route.page)
  }

  function At(pathname: string): Location {
    Location(pathname, "", "")
  }

  /** No pathname matches two table entries, so the public and protected
      path sets are disjoint and the order of the table does not matter. */
  lemma AtMostOneRouteMatches(pathname: string, i: int, j: int)
    requires 0 <= i < |RouteTable| && 0 <= j < |RouteTable|
    requires PathMatches(RouteTable[i].path, pathname) && PathMatches(RouteTable[j].path, pathname)
    ensures i == j
  {
    assert Lower("") == "";
  }

  /** A pathname that matches entry `i` selects entry `i`. */
  lemma LookupFindsMatch(pathname: string, i: int)
    requires 0 <= i < |RouteTable| && PathMatches(RouteTable[i].path, pathname)
    ensures Lookup(pathname) == RouteTable[i]
  {
    var r := Lookup(pathname);
    assert r != Wildcard;
    assert r in RouteTable;
    var j :| 0 <= j < |RouteTable| && RouteTable[j] == r;
    AtMostOneRouteMatches(pathname, i, j);
  }

  /** Each path of the table is its own matching key. */
  lemma PublicKeys()
    ensures StripTrailingSlashes("/login") == "/login" && Lower("/login") == "/login"
    ensures StripTrailingSlashes("/signup") == "/signup" && Lower("/signup") == "/signup"
  {
  }

  lemma ProtectedKeys()
    ensures StripTrailingSlashes("/") == ""
    ensures StripTrailingSlashes("/userlist") == "/userlist" && Lower("/userlist") == "/userlist"
    ensures StripTrailingSlashes("/dashboarduserlist") == "/dashboarduserlist"
    ensures Lower("/dashboarduserlist") == "/dashboarduserlist"
    ensures StripTrailingSlashes("/profile") == "/profile" && Lower("/profile") == "/profile"
    ensures StripTrailingSlashes("/contacts") == "/contacts" && Lower("/contacts") == "/contacts"
  {
  }

  lemma UnroutedKeys()
    ensures StripTrailingSlashes("/states") == "/states" && Lower("/states") == "/states"
    ensures StripTrailingSlashes("/quizes") == "/quizes" && Lower("/quizes") == "/quizes"
    ensures StripTrailingSlashes("/ ai-quiz") == "/ ai-quiz" && Lower("/ ai-quiz") == "/ ai-quiz"
    ensures StripTrailingSlashes("/%20ai-quiz") == "/%20ai-quiz" && Lower("/%20ai-quiz") == "/%20ai-quiz"
  {
  }

  /** `/login` and `/signup` sit behind PublicRoute. */
  lemma PublicPaths()
    ensures Lookup("/login") == Route("/login", Public, Login)
    ensures Lookup("/signup") == Route("/signup", Public, SignUp)
  {
    PublicKeys();
    LookupFindsMatch("/login", 0);
    LookupFindsMatch("/signup", 1);
  }

  /** `/`, `/userlist`, `/dashboarduserlist`, `/profile` and `/contacts` sit
      behind ProtectedRoute. */
  lemma ProtectedPaths()
    ensures Lookup("/") == Route("/", Protected, Home)
    ensures Lookup("/userlist") == Route("/userlist", Protected, UserList)
    ensures Lookup("/dashboarduserlist") == Route("/dashboarduserlist", Protected, DashboardUserList)
    ensures Lookup("/profile") == Route("/profile", Protected, Profile)
    ensures Lookup("/contacts") == Route("/contacts", Protected, Contacts)
  {
    ProtectedKeys();
    LookupFindsMatch("/", 2);
    LookupFindsMatch("/userlist", 3);
    LookupFindsMatch("/dashboarduserlist", 4);
    LookupFindsMatch("/profile", 5);
    LookupFindsMatch("/contacts", 6);
  }

  /** A pathname whose key is no table path, and which is not made only of
      slashes, reaches NotFound with no guard, token or not. */
  lemma NoEntryMeansNotFound(pathname: string, hasToken: bool)
    requires StripTrailingSlashes(pathname) != ""
    requires forall i :: 0 <= i < |RouteTable| ==> RouteTable[i].path != Lower(StripTrailingSlashes(pathname))
    ensures Lookup(pathname) == Wildcard
    ensures Resolve(At(pathname), hasToken) == Show(NotFound)
  {
    forall i | 0 <= i < |RouteTable|
      ensures !PathMatches(RouteTable[i].path, pathname)
    {
      if RouteTable[i].path == "/" {
        assert !PathMatches("/", pathname);
      }
    }
  }

  /** The targets of the header's States, Quizes and AI-Quiz links. The
      last is written `/ ai-quiz`, with a space, which the browser sends as
      `%20`; both spellings are listed. */
  const UnroutedLinks := ["/states", "/quizes", "/ ai-quiz", "/%20ai-quiz"]

  /** None of them is a table path, so each reaches NotFound. */
  lemma UnroutedLinkIsNotFound(link: string, hasToken: bool)
    requires link in UnroutedLinks
    ensures Resolve(At(link), hasToken) == Show(NotFound)
  {
    UnroutedKeys();
    NoEntryMeansNotFound(link, hasToken);
  }

  /** The header's States, Quizes and AI-Quiz links point at `/states`,
      `/quizes` and `/ ai-quiz`. No route entry has these paths, in either
      spelling of the space: they reach NotFound with no guard, token or
      not. */
  lemma HeaderLinksAreNotFound(hasToken: bool)
    ensures Resolve(At("/states"), hasToken) == Show(NotFound)
    ensures Resolve(At("/quizes"), hasToken) == Show(NotFound)
    ensures Resolve(At("/ ai-quiz"), hasToken) == Show(NotFound)
    ensures Resolve(At("/%20ai-quiz"), hasToken) == Show(NotFound)
  {
    UnroutedLinkIsNotFound("/states", hasToken);
    UnroutedLinkIsNotFound("/quizes", hasToken);
    UnroutedLinkIsNotFound("/ ai-quiz", hasToken);
    UnroutedLinkIsNotFound("/%20ai-quiz", hasToken);
  }

  /** Following a guard's redirect once always reaches a page that renders:
      `/login` without a token, `/` with one. */
  lemma OneRedirectSuffices(location: Location, hasToken: bool)
    ensures Resolve(location, hasToken).Redirect? ==>
              Resolve(At(Resolve(location, hasToken).to), hasToken).Show?
  {
    PublicPaths();
    ProtectedPaths();
  }

  lemma {:induction false} StripCommutesWithLower(p: string)
    ensures StripTrailingSlashes(Lower(p)) == Lower(StripTrailingSlashes(p))
  {
    if p != [] {
      assert Lower(p)[..|p| - 1] == Lower(p[..|p| - 1]);
      StripCommutesWithLower(p[..|p| - 1]);
    }
  }

  lemma {:induction false} FirstMatchAgrees(routes: seq<Route>, p: string, q: string)
    requires forall i :: 0 <= i < |routes| ==> (PathMatches(routes[i].path, p) <==> PathMatches(routes[i].path, q))
    ensures FirstMatch(routes, p) == FirstMatch(routes, q)
  {
    if routes != [] {
      FirstMatchAgrees(routes[1..], p, q);
    }
  }

  /** The route a pathname selects does not depend on the case of its
      letters or on an added trailing slash. */
  lemma MatchIgnoresCaseAndTrailingSlash(pathname: string)
    requires pathname != ""
    ensures Lookup(Lower(pathname) + "/") == Lookup(pathname)
  {
    var q := Lower(pathname) + "/";
    var stripped := StripTrailingSlashes(pathname);
    assert q[..|q| - 1] == Lower(pathname);
    assert StripTrailingSlashes(q) == StripTrailingSlashes(Lower(pathname));
    StripCommutesWithLower(pathname);
    LowerIdempotent(stripped);
    assert Lower(stripped) == "" <==> stripped == "";
    FirstMatchAgrees(RouteTable, q, pathname);
  }
}
