/** Access control and routing (App.tsx): the guard every protected page
    goes through, the element each path renders, and where a chain of
    redirects ends. Pages render inside the common layout, which is not
    part of this model. */
module App {
  import opened Common
  import opened Domain
  import opened Text

  /** What a route renders. */
  datatype View =
    | LoadingScreen
    | Redirect(to: string)
    | Unauthorized(roleText: string)
    | LoginPage
    | LibrarianDashboard
    | StudentDashboard

  /** `ProtectedRoute`: loading first, then the sign-in redirect, then the
      role check, and only then the protected page. */
  function Protected(isLoading: bool, user: Option<User>, requiredRole: Option<Role>, page: View): (v: View)
    ensures isLoading ==> v == LoadingScreen
    ensures !isLoading && user.None? ==> v == Redirect("/login")
    ensures !isLoading && user.Some? && requiredRole.Some? && user.value.role != requiredRole.value ==>
      v == Unauthorized(RoleName(user.value.role))
    ensures v == page || v == LoadingScreen || v == Redirect("/login") || v.Unauthorized?
    ensures v == page && page != LoadingScreen && page != Redirect("/login") && !page.Unauthorized? ==>
      !isLoading && user.Some? && (requiredRole.None? || user.value.role == requiredRole.value)
  {
    if isLoading then LoadingScreen
    else if user.None? then Redirect("/login")
    else if requiredRole.Some? && user.value.role != requiredRole.value then
      Unauthorized(RoleName(user.value.role))
    else page
  }

  /** Whether the router's pattern for the route path `route` accepts
      `path`: the route's characters, compared without letter case, then
      any number of slashes. */
  predicate MatchesRoute(path: string, route: string)
  {
    |route| <= |path| &&
    (forall i :: 0 <= i < |route| ==> LowerChar(path[i]) == route[i]) &&
    (forall i :: |route| <= i < |path| ==> path[i] == '/')
  }

  /** The paths `AppRoutes` declares before its catch-all. */
  const RoutePaths: set<string> := {"/login", "/", "/librarian", "/student"}

  /** A trailing slash and the case of letters do not change whether a
      pathname reaches a route whose path ends without a slash (or is the
      root). */
  lemma MatchesRouteLaws(path: string, route: string)
    requires route == "/" || (route != [] && route[|route| - 1] != '/')
    ensures path != [] ==> (MatchesRoute(path + "/", route) <==> MatchesRoute(path, route))
    ensures MatchesRoute(Upper(path), route) <==> MatchesRoute(path, route)
  {
    assert forall i :: 0 <= i < |path| ==> LowerChar(Upper(path)[i]) == LowerChar(path[i]);
    var q := path + "/";
    assert forall i :: 0 <= i < |path| ==> q[i] == path[i];
    if path != [] && |route| == |q| {
      assert route != "/" && route[|path|] != '/';
      assert LowerChar(q[|path|]) != route[|path|];
    }
  }

  /** No pathname reaches two of the declared routes, so their order in
      `AppRoutes` does not matter. */
  lemma RoutesExclusive(path: string)
    ensures !(MatchesRoute(path, "/") && MatchesRoute(path, "/login"))
    ensures !(MatchesRoute(path, "/") && MatchesRoute(path, "/librarian"))
    ensures !(MatchesRoute(path, "/") && MatchesRoute(path, "/student"))
    ensures !(MatchesRoute(path, "/login") && MatchesRoute(path, "/librarian"))
    ensures !(MatchesRoute(path, "/login") && MatchesRoute(path, "/student"))
    ensures !(MatchesRoute(path, "/librarian") && MatchesRoute(path, "/student"))
  {
    var login, librarian, student := "/login", "/librarian", "/student";
    assert login[1] == 'l' && login[2] == 'o';
    assert librarian[1] == 'l' && librarian[2] == 'i';
    assert student[1] == 's';
  }

  /** The element of each route of `AppRoutes`; any other path falls
      through to the catch-all. */
  function Route(path: string, isLoading: bool, user: Option<User>): (v: View)
    ensures MatchesRoute(path, "/login") ==> v == (if user.Some? then Redirect("/") else LoginPage)
    ensures (forall r :: r in RoutePaths ==> !MatchesRoute(path, r)) ==> v == Redirect("/")
    ensures v == LibrarianDashboard ==> !isLoading && user.Some? && user.value.role == Librarian
    ensures v == StudentDashboard ==> !isLoading && user.Some? && user.value.role == Student
  {
    if MatchesRoute(path, "/login") then
      if user.Some? then Redirect("/") else LoginPage
    else if MatchesRoute(path, "/") then
      Protected(isLoading, user, None,
        if user.Some? && user.value.role == Librarian then LibrarianDashboard else Redirect("/student"))
    else if MatchesRoute(path, "/librarian") then
      Protected(isLoading, user, Some(Librarian), LibrarianDashboard)
    else if MatchesRoute(path, "/student") then
      Protected(isLoading, user, Some(Student), StudentDashboard)
    else Redirect("/")
  }

  /** Whatever route a pathname reaches, it renders that route's element. */
  lemma RouteTable(path: string, isLoading: bool, user: Option<User>)
    ensures MatchesRoute(path, "/") ==>
      Route(path, isLoading, user) == Protected(isLoading, user, None,
        if user.Some? && user.value.role == Librarian then LibrarianDashboard else Redirect("/student"))
    ensures MatchesRoute(path, "/librarian") ==>
      Route(path, isLoading, user) == Protected(isLoading, user, Some(Librarian), LibrarianDashboard)
    ensures MatchesRoute(path, "/student") ==>
      Route(path, isLoading, user) == Protected(isLoading, user, Some(Student), StudentDashboard)
  {
    RoutesExclusive(path);
  }

  /** A student who reaches the librarian area, also with a trailing slash
      or in capitals, meets the role check. */
  lemma StudentMeetsRoleCheck(user: User, path: string)
    requires user.role == Student && MatchesRoute(path, "/librarian")
    ensures Route(path, false, Some(user)) == Unauthorized("Estudiante")
    ensures Route(path + "/", false, Some(user)) == Unauthorized("Estudiante")
    ensures Route(Upper(path), false, Some(user)) == Unauthorized("Estudiante")
  {
    MatchesRouteLaws(path, "/librarian");
    RouteTable(path, false, Some(user));
    RouteTable(path + "/", false, Some(user));
    RouteTable(Upper(path), false, Some(user));
  }

  /** The view reached from `path` after following at most `hops`
      redirects. */
  function Follow(path: string, isLoading: bool, user: Option<User>, hops: nat): View
    decreases hops
  {
    var v := Route(path, isLoading, user);
    if v.Redirect? && hops > 0 then Follow(v.to, isLoading, user, hops - 1) else v
  }

  /** On the root path a librarian gets the dashboard and every other
      signed-in user is sent to the student area. */
  lemma RootByRole(user: User)
    ensures Route("/", false, Some(user)) ==
      (if user.role == Librarian then LibrarianDashboard else Redirect("/student"))
  {
  }

  /** Where the redirect targets lead after one more redirect at most. */
  lemma TargetsSettle(isLoading: bool, user: Option<User>)
    ensures Follow("/", isLoading, user, 1) ==
      if isLoading then LoadingScreen
      else if user.None? then LoginPage
      else if user.value.role == Librarian then LibrarianDashboard
      else StudentDashboard
    ensures Follow("/student", isLoading, user, 1) ==
      if isLoading then LoadingScreen
      else if user.None? then LoginPage
      else if user.value.role == Student then StudentDashboard
      else Unauthorized("Bibliotecario")
    ensures user.None? ==> Follow("/login", isLoading, user, 1) == LoginPage
  {
    assert MatchesRoute("/", "/") && MatchesRoute("/login", "/login");
    assert MatchesRoute("/student", "/student");
    RouteTable("/", isLoading, user);
    RouteTable("/student", isLoading, user);
  }

  /** Two redirects always suffice, and where they end depends only on the
      session: the loading screen while it is being restored (or the sign-in
      page on its own path, when nobody is signed in), the sign-in page
      when nobody is signed in, and otherwise the user's own dashboard, or
      the unauthorized screen when the path names the other role's area. */
  lemma {:induction false} RedirectsSettle(path: string, isLoading: bool, user: Option<User>)
    ensures !Follow(path, isLoading, user, 2).Redirect?
    ensures isLoading && !(MatchesRoute(path, "/login") && user.None?) ==> Follow(path, isLoading, user, 2) == LoadingScreen
    ensures !isLoading && user.None? ==> Follow(path, isLoading, user, 2) == LoginPage
    ensures !isLoading && user.Some? && user.value.role == Librarian ==>
      Follow(path, isLoading, user, 2) ==
        (if MatchesRoute(path, "/student") then Unauthorized("Bibliotecario") else LibrarianDashboard)
    ensures !isLoading && user.Some? && user.value.role == Student ==>
      Follow(path, isLoading, user, 2) ==
        (if MatchesRoute(path, "/librarian") then Unauthorized("Estudiante") else StudentDashboard)
  {
    RouteTable(path, isLoading, user);
    TargetsSettle(isLoading, user);
  }
}
