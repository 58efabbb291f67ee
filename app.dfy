/**
 * The router of `App`: which element each declared route renders for the
 * current session, the catch-all route, and the navigation bar's links.
 * The session comes from the auth service's subscription and is an input.
 */
module App {
  import opened Forms

  /** The auth session: user id, `user.email`, and `user.user_metadata.type` when it is set. */
  datatype Session = Session(userId: string, email: Option<string>, metadataType: Option<string>)

  /** `session?.user?.user_metadata?.type`: undefined without a session. */
  function UserType(session: Option<Session>): (t: Option<string>)
    ensures session.None? ==> t.None?
    ensures t.Some? ==> session.Some? && session.value.metadataType == t
  {
    match session
    case None => None
    case Some(s) => s.metadataType
  }

  /** `session && userType === role` */
  predicate HasRole(session: Option<Session>, role: string) {
    session.Some? && UserType(session) == Some(role)
  }

  /** The `<Route>`s, in declaration order, and the catch-all `path="*"`. */
  datatype Route =
    | Landing | HomeRoute | AuthRoute
    | WhiteCollarRoute | BlueCollarRoute | DashboardRoute | CompanyProfileRoute
    | CatchAll

  const DeclaredRoutes: seq<Route> :=
    [Landing, HomeRoute, AuthRoute, WhiteCollarRoute, BlueCollarRoute, DashboardRoute, CompanyProfileRoute]

  function RoutePath(r: Route): string {
    match r
    case Landing => "/"
    case HomeRoute => "/home"
    case AuthRoute => "/auth"
    case WhiteCollarRoute => "/whitecollar"
    case BlueCollarRoute => "/bluecollar"
    case DashboardRoute => "/dashboard"
    case CompanyProfileRoute => "/company-profile"
    case CatchAll => "*"
  }

  /** The route a pathname selects: the declared route with that path, else the catch-all. */
  function MatchRoute(path: string): (r: Route)
    ensures r != CatchAll ==> r in DeclaredRoutes && RoutePath(r) == path
    ensures r == CatchAll <==> forall d :: d in DeclaredRoutes ==> RoutePath(d) != path
  {
    if path == "/" then Landing
    else if path == "/home" then HomeRoute
    else if path == "/auth" then AuthRoute
    else if path == "/whitecollar" then WhiteCollarRoute
    else if path == "/bluecollar" then BlueCollarRoute
    else if path == "/dashboard" then DashboardRoute
    else if path == "/company-profile" then CompanyProfileRoute
    else CatchAll
  }

  /** The components a route can render. */
  datatype Page =
    | OriginalPage | HomePage | AuthFormPage
    | WhiteCollarProfilePage | BlueCollarProfilePage | EmployerDashboardPage | CompanyProfilePage

  /** A route's element: a page, or `<Navigate to={to} replace />`. */
  datatype Element = Render(page: Page) | Navigate(to: string)

  /** The role a protected route asks for; `None` for the routes that are never guarded. */
  function RequiredRole(r: Route): Option<string> {
    match r
    case WhiteCollarRoute => Some("white")
    case BlueCollarRoute => Some("blue")
    case DashboardRoute => Some("company")
    case CompanyProfileRoute => Some("company")
    case _ => None
  }

  /** The `element` of each `<Route>`. */
  function RouteElement(r: Route, session: Option<Session>): Element {
    match r
    case Landing => Render(OriginalPage)
    case HomeRoute => Render(HomePage)
    case AuthRoute => Render(AuthFormPage)
    case WhiteCollarRoute =>
      if HasRole(session, "white") then Render(WhiteCollarProfilePage) else Navigate("hiteCollarProfile")
    case BlueCollarRoute =>
      if HasRole(session, "blue") then Render(BlueCollarProfilePage) else Navigate("BlueCollarProfile")
    case DashboardRoute =>
      if HasRole(session, "company") then Render(EmployerDashboardPage) else Navigate("/")
    case CompanyProfileRoute =>
      if HasRole(session, "company") then Render(CompanyProfilePage) else Navigate("/")
    case CatchAll => Navigate("/")
  }

  /** `<AuthForm />` is rendered without a `userType` prop. */
  const AuthFormUserTypeProp: Option<string> := None

  /** The target a protected route navigates to when its guard fails. */
  function FallbackTarget(r: Route): string {
    match r
    case WhiteCollarRoute => "hiteCollarProfile"
    case BlueCollarRoute => "BlueCollarProfile"
    case _ => "/"
  }

  /** Only the two job-seeker routes fall back to a relative target; every other route goes to `/`. */
  lemma FallbackRelativeOnlyForJobSeekers(r: Route)
    ensures (|FallbackTarget(r)| > 0 && FallbackTarget(r)[0] == '/') <==> r != WhiteCollarRoute && r != BlueCollarRoute
    ensures r != WhiteCollarRoute && r != BlueCollarRoute ==> FallbackTarget(r) == "/"
  {
  }

  /** A route navigates away exactly when it is the catch-all or a guarded route whose role the session lacks. */
  lemma RouteNavigatesIff(r: Route, session: Option<Session>)
    ensures RouteElement(r, session).Navigate? <==>
      r == CatchAll || (RequiredRole(r).Some? && !HasRole(session, RequiredRole(r).value))
  {
  }

  /**
   * A protected route renders its page exactly when a session exists and its
   * type is the route's role; otherwise it navigates to its fallback target.
   */
  lemma ProtectedRouteRendersIff(r: Route, session: Option<Session>)
    requires RequiredRole(r).Some?
    ensures RouteElement(r, session).Render? <==> HasRole(session, RequiredRole(r).value)
    ensures !HasRole(session, RequiredRole(r).value) ==> RouteElement(r, session) == Navigate(FallbackTarget(r))
  {
  }

  /** `/`, `/home`, `/auth` and the catch-all decide the same way with or without a session. */
  lemma UnguardedRoutesIgnoreSession(r: Route, s1: Option<Session>, s2: Option<Session>)
    requires RequiredRole(r).None?
    ensures RouteElement(r, s1) == RouteElement(r, s2)
    ensures r == CatchAll <==> RouteElement(r, s1).Navigate?
    ensures r == CatchAll ==> RouteElement(r, s1) == Navigate("/")
  {
  }

  /** An entry of the `links` array of the navigation bar. */
  datatype NavLink = NavLink(nameKey: string, path: string, roles: seq<string>)

  const HomeLink := NavLink("home", "/home", ["white", "blue", "company"])
  const WhiteCollarLink := NavLink("whitecollar", "/whitecollar", ["white"])
  const BlueCollarLink := NavLink("bluecollar", "/bluecollar", ["blue"])
  const DashboardLink := NavLink("dashboard", "/dashboard", ["company"])
  const CompanyProfileLink := NavLink("company_profile", "/company-profile", ["company"])

  const Links: seq<NavLink> := [HomeLink, WhiteCollarLink, BlueCollarLink, DashboardLink, CompanyProfileLink]

  /** The filter's test: `session && link.roles.includes(userType)`. */
  predicate LinkShown(link: NavLink, session: Option<Session>, userType: Option<string>) {
    session.Some? && userType.Some? && userType.value in link.roles
  }

  /** `links.filter(link => session && link.roles.includes(userType))` */
  function VisibleLinks(links: seq<NavLink>, session: Option<Session>, userType: Option<string>): (r: seq<NavLink>)
    ensures forall l :: l in r <==> l in links && LinkShown(l, session, userType)
    ensures |r| <= |links|
    ensures session.None? ==> r == []
  {
    if links == [] then []
    else
      (if LinkShown(links[0], session, userType) then [links[0]] else [])
      + VisibleLinks(links[1..], session, userType)
  }

  /** What the navigation bar shows. */
  datatype NavBarView = NavBarView(
    links: seq<NavLink>, loginLink: bool, email: Option<Option<string>>, logoutButton: bool)

  function NavBar(session: Option<Session>): (v: NavBarView)
    ensures v.loginLink <==> session.None?
    ensures v.logoutButton <==> session.Some?
    ensures v.email.Some? <==> session.Some?
    ensures session.Some? ==> v.email == Some(session.value.email)
    ensures forall l :: l in v.links <==> l in Links && LinkShown(l, session, UserType(session))
  {
    NavBarView(
      VisibleLinks(Links, session, UserType(session)),
      session.None?,
      if session.Some? then Some(session.value.email) else None,
      session.Some?)
  }

  /** Where logging out goes (`navigate('/', { replace: true })`). */
  const LogoutTarget := "/"

  /** The filter keeps `link` when it is shown, and drops it otherwise. */
  function Keep(link: NavLink, session: Option<Session>, userType: Option<string>): seq<NavLink> {
    if LinkShown(link, session, userType) then [link] else []
  }

  /** The filter distributes over concatenation, so it keeps the declaration order. */
  lemma {:induction false} VisibleLinksAppend(a: seq<NavLink>, b: seq<NavLink>, session: Option<Session>, t: Option<string>)
    ensures VisibleLinks(a + b, session, t) == VisibleLinks(a, session, t) + VisibleLinks(b, session, t)
    decreases |a|
  {
    if a == [] {
      assert a + b == b;
    } else {
      assert (a + b)[1..] == a[1..] + b;
      VisibleLinksAppend(a[1..], b, session, t);
    }
  }

  /** One step of the filter: the first link is kept or dropped, then the rest is filtered. */
  lemma VisibleLinksCons(l: NavLink, rest: seq<NavLink>, session: Option<Session>, t: Option<string>)
    ensures VisibleLinks([l] + rest, session, t) == Keep(l, session, t) + VisibleLinks(rest, session, t)
  {
    assert ([l] + rest)[1..] == rest;
  }

  /** The filter over five links written out link by link. */
  lemma VisibleLinksOfFive(a: NavLink, b: NavLink, c: NavLink, d: NavLink, e: NavLink, session: Option<Session>, t: Option<string>)
    ensures VisibleLinks([a, b, c, d, e], session, t)
      == Keep(a, session, t) + (Keep(b, session, t) + (Keep(c, session, t) + (Keep(d, session, t) + Keep(e, session, t))))
  {
    var s4 := [e];
    var s3 := [d] + s4;
    var s2 := [c] + s3;
    var s1 := [b] + s2;
    assert [a, b, c, d, e] == [a] + s1;
    VisibleLinksCons(e, [], session, t);
    assert [e] + [] == s4;
    VisibleLinksCons(d, s4, session, t);
    VisibleLinksCons(c, s3, session, t);
    VisibleLinksCons(b, s2, session, t);
    VisibleLinksCons(a, s1, session, t);
  }

  /** The filter over `Links` written out link by link. */
  lemma VisibleLinksUnrolled(session: Option<Session>, t: Option<string>)
    ensures VisibleLinks(Links, session, t)
      == Keep(HomeLink, session, t) + (Keep(WhiteCollarLink, session, t) + (Keep(BlueCollarLink, session, t)
         + (Keep(DashboardLink, session, t) + Keep(CompanyProfileLink, session, t))))
  {
    VisibleLinksOfFive(HomeLink, WhiteCollarLink, BlueCollarLink, DashboardLink, CompanyProfileLink, session, t);
  }

  /** The links a session of type `t` sees, written out as the five keep-or-drop decisions. */
  lemma NavBarLinksUnrolled(session: Option<Session>, t: Option<string>)
    requires session.Some? && UserType(session) == t
    ensures NavBar(session).links
      == Keep(HomeLink, session, t) + (Keep(WhiteCollarLink, session, t) + (Keep(BlueCollarLink, session, t)
         + (Keep(DashboardLink, session, t) + Keep(CompanyProfileLink, session, t))))
  {
    VisibleLinksUnrolled(session, t);
  }

  lemma WhiteLinks(session: Option<Session>)
    requires session.Some? && UserType(session) == Some("white")
    ensures NavBar(session).links == [HomeLink, WhiteCollarLink]
  {
    var t := UserType(session);
    NavBarLinksUnrolled(session, t);
    assert "white" != "blue" && "white" != "company";
    assert Keep(BlueCollarLink, session, t) == [] && Keep(DashboardLink, session, t) == [];
    assert Keep(CompanyProfileLink, session, t) == [];
  }

  lemma BlueLinks(session: Option<Session>)
    requires session.Some? && UserType(session) == Some("blue")
    ensures NavBar(session).links == [HomeLink, BlueCollarLink]
  {
    var t := UserType(session);
    NavBarLinksUnrolled(session, t);
    assert "blue" != "white" && "blue" != "company";
    assert Keep(WhiteCollarLink, session, t) == [] && Keep(DashboardLink, session, t) == [];
    assert Keep(CompanyProfileLink, session, t) == [];
  }

  lemma CompanyLinks(session: Option<Session>)
    requires session.Some? && UserType(session) == Some("company")
    ensures NavBar(session).links == [HomeLink, DashboardLink, CompanyProfileLink]
  {
    var t := UserType(session);
    NavBarLinksUnrolled(session, t);
    assert "company" != "white" && "company" != "blue";
    assert Keep(WhiteCollarLink, session, t) == [] && Keep(BlueCollarLink, session, t) == [];
    assert Keep(DashboardLink, session, t) + Keep(CompanyProfileLink, session, t) == [DashboardLink, CompanyProfileLink];
  }

  lemma NoLinksForOtherTypes(session: Option<Session>)
    requires session.Some?
    requires UserType(session) != Some("white") && UserType(session) != Some("blue")
    requires UserType(session) != Some("company")
    ensures NavBar(session).links == []
  {
    var t := UserType(session);
    NavBarLinksUnrolled(session, t);
    assert Keep(HomeLink, session, t) == [] && Keep(WhiteCollarLink, session, t) == [];
    assert Keep(BlueCollarLink, session, t) == [] && Keep(DashboardLink, session, t) == [];
    assert Keep(CompanyProfileLink, session, t) == [];
  }

  /** The links each role sees, in declaration order; a type outside the three roles sees none. */
  lemma LinksPerRole(session: Option<Session>)
    requires session.Some?
    ensures UserType(session) == Some("white") ==> NavBar(session).links == [HomeLink, WhiteCollarLink]
    ensures UserType(session) == Some("blue") ==> NavBar(session).links == [HomeLink, BlueCollarLink]
    ensures UserType(session) == Some("company") ==>
      NavBar(session).links == [HomeLink, DashboardLink, CompanyProfileLink]
    ensures UserType(session) !in {Some("white"), Some("blue"), Some("company")} ==> NavBar(session).links == []
  {
    var t := UserType(session);
    if t == Some("white") {
      WhiteLinks(session);
    } else if t == Some("blue") {
      BlueLinks(session);
    } else if t == Some("company") {
      CompanyLinks(session);
    } else {
      NoLinksForOtherTypes(session);
    }
  }
}
