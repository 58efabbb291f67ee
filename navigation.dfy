/**
 * The router and the landing page together as a transition system: from a
 * location, the matched route either renders a page or navigates, and the
 * landing page itself navigates away when a session exists.  `Step` is one
 * such redirect and `Run` follows them.
 */
module Navigation {
  import opened Forms
  import App
  import Original
  import Home
  import Auth

  /** A location: its pathname and its `?query` part (empty when there is none). */
  datatype Location = Location(path: string, search: string)

  const Root := Location("/", "")
  const Dashboard := Location("/dashboard", "")

  /** The index of the first `c` in `s` at or after `from`, or `|s|` when there is none. */
  function IndexOf(s: string, c: char, from: nat): (k: nat)
    requires from <= |s|
    ensures from <= k <= |s|
    ensures k < |s| ==> s[k] == c
    ensures forall j :: from <= j < k ==> s[j] != c
    decreases |s| - from
  {
    if from == |s| then from
    else if s[from] == c then from
    else IndexOf(s, c, from + 1)
  }

  /** A navigation target split at its first `?` into pathname and query. */
  function ParseTarget(to: string): (loc: Location)
    ensures loc.path + loc.search == to
    ensures '?' !in loc.path
    ensures loc.search == [] || loc.search[0] == '?'
  {
    var k := IndexOf(to, '?', 0);
    if k == |to| then Location(to, "") else Location(to[..k], to[k..])
  }

  /** `<Navigate to>`: a target that does not start with `/` is relative to the route's path. */
  function Resolve(routePath: string, to: string): Location {
    if |to| > 0 && to[0] == '/' then ParseTarget(to)
    else ParseTarget(routePath + "/" + to)
  }

  /** One redirect from `loc`, or `None` when the page it shows stays put. */
  function Step(session: Option<App.Session>, loc: Location): Option<Location> {
    match App.RouteElement(App.MatchRoute(loc.path), session)
    case Navigate(to) => Some(Resolve(loc.path, to))
    case Render(page) =>
      if page == App.OriginalPage then
        match Original.Render(session)
        case RedirectTo(target) => Some(ParseTarget(target))
        case Chooser => None
      else None
  }

  predicate Settled(session: Option<App.Session>, loc: Location) {
    Step(session, loc).None?
  }

  /** The location reached after following at most `n` redirects. */
  function Run(session: Option<App.Session>, loc: Location, n: nat): Location
    decreases n
  {
    if n == 0 then loc
    else
      match Step(session, loc)
      case None => loc
      case Some(next) => Run(session, next, n - 1)
  }

  /** An absolute target is taken as it is; any other is appended to the route's path after a `/`. */
  lemma ResolveJoinsRelativeTargets(routePath: string, to: string)
    ensures |to| > 0 && to[0] == '/' ==> Resolve(routePath, to).path + Resolve(routePath, to).search == to
    ensures !(|to| > 0 && to[0] == '/') ==>
      Resolve(routePath, to).path + Resolve(routePath, to).search == routePath + "/" + to
  {
  }

  /**
   * Every `<Navigate>` element redirects; of the pages, only the landing page
   * moves on, and it does so exactly when there is a session, to `/dashboard`.
   */
  lemma StepRedirects(session: Option<App.Session>, loc: Location)
    ensures App.RouteElement(App.MatchRoute(loc.path), session).Navigate? ==> Step(session, loc).Some?
    ensures App.MatchRoute(loc.path) == App.Landing ==>
      Step(session, loc) == (if session.Some? then Some(Dashboard) else None)
    ensures Step(session, loc).Some? && App.RouteElement(App.MatchRoute(loc.path), session).Render? ==>
      App.MatchRoute(loc.path) == App.Landing && session.Some?
  {
    ParsePlain("/dashboard");
  }

  /** Following redirects from a settled location, or following none, stays where it is. */
  lemma RunFromSettled(session: Option<App.Session>, loc: Location, n: nat)
    requires n == 0 || Settled(session, loc)
    ensures Run(session, loc, n) == loc
  {
  }

  /** Where the fallback targets resolve: `/whitecollar/hiteCollarProfile` and `/bluecollar/BlueCollarProfile`. */
  const WhiteCollarFallbackPath := "/whitecollar" + "/" + "hiteCollarProfile"
  const BlueCollarFallbackPath := "/bluecollar" + "/" + "BlueCollarProfile"

  /** A path longer than every declared path, `/company-profile` being the longest, matches only the catch-all. */
  lemma LongPathIsUndeclared(path: string)
    requires |path| > |"/company-profile"|
    ensures App.MatchRoute(path) == App.CatchAll
  {
  }

  /** A route whose element is `<Navigate to="/">` sends its location to `/`. */
  lemma NavigateToRoot(session: Option<App.Session>, loc: Location)
    requires App.RouteElement(App.MatchRoute(loc.path), session) == App.Navigate("/")
    ensures Step(session, loc) == Some(Root)
  {
    ParsePlain("/");
  }

  /** The catch-all sends every location to `/`. */
  lemma UndeclaredGoesToRoot(session: Option<App.Session>, loc: Location)
    requires App.MatchRoute(loc.path) == App.CatchAll
    ensures Step(session, loc) == Some(Root)
  {
    NavigateToRoot(session, loc);
  }

  /** The landing page at `/` moves on to `/dashboard` exactly when there is a session. */
  lemma RootStep(session: Option<App.Session>)
    ensures Step(session, Root) == (if session.Some? then Some(Dashboard) else None)
  {
    assert App.MatchRoute("/") == App.Landing;
    ParsePlain("/dashboard");
  }

  /** The relative fallback targets, joined to their route's path. */
  lemma FallbackTargetsResolve()
    ensures Resolve("/whitecollar", "hiteCollarProfile") == Location(WhiteCollarFallbackPath, "")
    ensures Resolve("/bluecollar", "BlueCollarProfile") == Location(BlueCollarFallbackPath, "")
  {
    assert '?' !in "/whitecollar" && '?' !in "/" && '?' !in "hiteCollarProfile";
    assert '?' !in "/bluecollar" && '?' !in "BlueCollarProfile";
    ParsePlain(WhiteCollarFallbackPath);
    ParsePlain(BlueCollarFallbackPath);
  }

  /**
   * The fallback target of `/whitecollar` resolves to a path no route
   * declares, so the catch-all sends the user on to `/`.
   */
  lemma WhiteCollarFallbackEndsAtRoot(session: Option<App.Session>, search: string)
    ensures !App.HasRole(session, "white") ==>
      Step(session, Location("/whitecollar", search)) == Some(Location(WhiteCollarFallbackPath, ""))
    ensures App.MatchRoute(WhiteCollarFallbackPath) == App.CatchAll
    ensures Step(session, Location(WhiteCollarFallbackPath, "")) == Some(Root)
  {
    FallbackTargetsResolve();
    assert App.MatchRoute("/whitecollar") == App.WhiteCollarRoute;
    LongPathIsUndeclared(WhiteCollarFallbackPath);
    UndeclaredGoesToRoot(session, Location(WhiteCollarFallbackPath, ""));
  }

  /** The same for `/bluecollar` and its fallback target. */
  lemma BlueCollarFallbackEndsAtRoot(session: Option<App.Session>, search: string)
    ensures !App.HasRole(session, "blue") ==>
      Step(session, Location("/bluecollar", search)) == Some(Location(BlueCollarFallbackPath, ""))
    ensures App.MatchRoute(BlueCollarFallbackPath) == App.CatchAll
    ensures Step(session, Location(BlueCollarFallbackPath, "")) == Some(Root)
  {
    FallbackTargetsResolve();
    assert App.MatchRoute("/bluecollar") == App.BlueCollarRoute;
    LongPathIsUndeclared(BlueCollarFallbackPath);
    UndeclaredGoesToRoot(session, Location(BlueCollarFallbackPath, ""));
  }

  /** A logged-in user whose type is not `company` is sent from `/` to `/dashboard` and back. */
  lemma NonCompanyRedirectLoop(session: Option<App.Session>)
    requires session.Some? && !App.HasRole(session, "company")
    ensures Step(session, Root) == Some(Dashboard)
    ensures Step(session, Dashboard) == Some(Root)
  {
    RootStep(session);
    assert App.MatchRoute("/dashboard") == App.DashboardRoute;
    NavigateToRoot(session, Dashboard);
  }

  /** ... and that loop never settles: after `n` redirects the user is at `/` or `/dashboard`, never at rest. */
  lemma {:induction false} NonCompanyNeverSettles(session: Option<App.Session>, start: Location, n: nat)
    requires session.Some? && !App.HasRole(session, "company")
    requires start == Root || start == Dashboard
    ensures Run(session, start, n) == (if n % 2 == 0 then start else if start == Root then Dashboard else Root)
    ensures !Settled(session, Run(session, start, n))
    decreases n
  {
    NonCompanyRedirectLoop(session);
    var next := if start == Root then Dashboard else Root;
    assert Step(session, start) == Some(next);
    if n > 0 {
      assert Run(session, start, n) == Run(session, next, n - 1);
      NonCompanyNeverSettles(session, next, n - 1);
    }
  }

  /**
   * Without a session every location settles within three redirects, and a
   * protected or undeclared path ends at the landing chooser `/`, not at `/auth`.
   */
  lemma NoSessionSettles(loc: Location)
    ensures Settled(None, Run(None, loc, 3))
    ensures App.RequiredRole(App.MatchRoute(loc.path)).Some? || App.MatchRoute(loc.path) == App.CatchAll ==>
      Run(None, loc, 3) == Root
  {
    RootStep(None);
    var r := App.MatchRoute(loc.path);
    if r == App.WhiteCollarRoute {
      assert loc == Location("/whitecollar", loc.search);
      WhiteCollarFallbackEndsAtRoot(None, loc.search);
      assert Run(None, loc, 3) == Run(None, Location(WhiteCollarFallbackPath, ""), 2);
      assert Run(None, Location(WhiteCollarFallbackPath, ""), 2) == Run(None, Root, 1);
      RunFromSettled(None, Root, 1);
    } else if r == App.BlueCollarRoute {
      assert loc == Location("/bluecollar", loc.search);
      BlueCollarFallbackEndsAtRoot(None, loc.search);
      assert Run(None, loc, 3) == Run(None, Location(BlueCollarFallbackPath, ""), 2);
      assert Run(None, Location(BlueCollarFallbackPath, ""), 2) == Run(None, Root, 1);
      RunFromSettled(None, Root, 1);
    } else if r == App.CatchAll || r == App.DashboardRoute || r == App.CompanyProfileRoute {
      NavigateToRoot(None, loc);
      assert Run(None, loc, 3) == Run(None, Root, 2);
      RunFromSettled(None, Root, 2);
    } else {
      assert r == App.Landing || r == App.HomeRoute || r == App.AuthRoute;
      assert Settled(None, loc);
      RunFromSettled(None, loc, 3);
    }
  }

  /** A company session at `/` goes on to `/dashboard` and stays there. */
  lemma CompanyRootRun(session: Option<App.Session>, n: nat)
    requires App.HasRole(session, "company")
    requires n >= 1
    ensures Run(session, Root, n) == Dashboard
    ensures Settled(session, Dashboard)
  {
    RootStep(session);
    assert App.MatchRoute("/dashboard") == App.DashboardRoute;
    assert Settled(session, Dashboard);
    assert Run(session, Root, n) == Run(session, Dashboard, n - 1);
    RunFromSettled(session, Dashboard, n - 1);
  }

  /** A company session at a job-seeker route is sent through the fallback and `/` to `/dashboard`. */
  lemma CompanyFromJobSeekerRoute(session: Option<App.Session>, loc: Location)
    requires App.HasRole(session, "company")
    requires App.MatchRoute(loc.path) == App.WhiteCollarRoute || App.MatchRoute(loc.path) == App.BlueCollarRoute
    ensures Run(session, loc, 4) == Dashboard
  {
    CompanyRootRun(session, 2);
    if App.MatchRoute(loc.path) == App.WhiteCollarRoute {
      assert loc == Location("/whitecollar", loc.search);
      WhiteCollarFallbackEndsAtRoot(session, loc.search);
      assert Run(session, loc, 4) == Run(session, Location(WhiteCollarFallbackPath, ""), 3);
    } else {
      assert loc == Location("/bluecollar", loc.search);
      BlueCollarFallbackEndsAtRoot(session, loc.search);
      assert Run(session, loc, 4) == Run(session, Location(BlueCollarFallbackPath, ""), 3);
    }
  }

  /** A company session at `/` or at an undeclared path ends at `/dashboard`. */
  lemma CompanyFromLandingOrUndeclared(session: Option<App.Session>, loc: Location)
    requires App.HasRole(session, "company")
    requires App.MatchRoute(loc.path) == App.Landing || App.MatchRoute(loc.path) == App.CatchAll
    ensures Run(session, loc, 4) == Dashboard
  {
    if App.MatchRoute(loc.path) == App.CatchAll {
      assert Step(session, loc) == Some(Root) by {
        ParsePlain("/");
      }
      CompanyRootRun(session, 3);
    } else {
      assert loc.path == "/";
      CompanyRootRun(session, 4);
      assert Run(session, loc, 4) == Run(session, Root, 4);
    }
  }

  /**
   * A company session settles from every location within four redirects: at
   * `/dashboard` when it starts at `/`, at a job-seeker route or at an
   * undeclared path, and where it started otherwise.
   */
  lemma CompanySessionSettles(session: Option<App.Session>, loc: Location)
    requires App.HasRole(session, "company")
    ensures Settled(session, Run(session, loc, 4))
    ensures var r := App.MatchRoute(loc.path);
      Run(session, loc, 4) ==
        if r == App.Landing || r == App.WhiteCollarRoute || r == App.BlueCollarRoute || r == App.CatchAll
        then Dashboard else loc
  {
    var r := App.MatchRoute(loc.path);
    CompanyRootRun(session, 1);
    if r == App.WhiteCollarRoute || r == App.BlueCollarRoute {
      CompanyFromJobSeekerRoute(session, loc);
    } else if r == App.CatchAll || r == App.Landing {
      CompanyFromLandingOrUndeclared(session, loc);
    } else {
      assert Settled(session, loc);
    }
  }

  /**
   * For any other session a location either shows its page at once (`/home`,
   * `/auth`, or the route of the user's own type) or leads into the loop
   * between `/` and `/dashboard` within three redirects.
   */
  lemma OtherSessionSettlesOrLoops(session: Option<App.Session>, loc: Location)
    requires session.Some? && !App.HasRole(session, "company")
    ensures Settled(session, loc) <==>
      App.MatchRoute(loc.path) != App.Landing && App.RouteElement(App.MatchRoute(loc.path), session).Render?
    ensures !Settled(session, loc) ==> Run(session, loc, 3) == Root || Run(session, loc, 3) == Dashboard
  {
    StepRedirects(session, loc);
    if !Settled(session, loc) {
      var r := App.MatchRoute(loc.path);
      if r == App.WhiteCollarRoute {
        assert loc == Location("/whitecollar", loc.search);
        WhiteCollarFallbackEndsAtRoot(session, loc.search);
        assert Run(session, loc, 3) == Run(session, Location(WhiteCollarFallbackPath, ""), 2);
        assert Run(session, Location(WhiteCollarFallbackPath, ""), 2) == Run(session, Root, 1);
        NonCompanyNeverSettles(session, Root, 1);
      } else if r == App.BlueCollarRoute {
        assert loc == Location("/bluecollar", loc.search);
        BlueCollarFallbackEndsAtRoot(session, loc.search);
        assert Run(session, loc, 3) == Run(session, Location(BlueCollarFallbackPath, ""), 2);
        assert Run(session, Location(BlueCollarFallbackPath, ""), 2) == Run(session, Root, 1);
        NonCompanyNeverSettles(session, Root, 1);
      } else if r == App.Landing {
        assert Run(session, loc, 3) == Run(session, Dashboard, 2);
        NonCompanyNeverSettles(session, Dashboard, 2);
      } else {
        assert r == App.CatchAll || r == App.DashboardRoute || r == App.CompanyProfileRoute;
        NavigateToRoot(session, loc);
        assert Run(session, loc, 3) == Run(session, Root, 2);
        NonCompanyNeverSettles(session, Root, 2);
      }
    }
  }

  /** A target without `?` is all pathname. */
  lemma ParsePlain(to: string)
    requires '?' !in to
    ensures ParseTarget(to) == Location(to, "")
  {
  }

  /** A plain path whose route shows a page other than the landing page stays put. */
  lemma RenderedPathSettles(session: Option<App.Session>, path: string)
    requires '?' !in path
    requires App.MatchRoute(path) != App.Landing && App.RouteElement(App.MatchRoute(path), session).Render?
    ensures Settled(session, ParseTarget(path))
  {
    ParsePlain(path);
  }

  /** The path a successful login goes to shows its page for that user: it never redirects. */
  lemma LoginLandsOnItsPage(session: Option<App.Session>)
    requires session.Some?
    ensures Settled(session, ParseTarget(Auth.LandingPath(App.UserType(session))))
  {
    var t := App.UserType(session);
    if t == Some("white") {
      RenderedPathSettles(session, "/whitecollar");
    } else if t == Some("blue") {
      RenderedPathSettles(session, "/bluecollar");
    } else if t == Some("company") {
      RenderedPathSettles(session, "/dashboard");
    } else {
      RenderedPathSettles(session, "/home");
    }
  }

  /** A pathname free of `?` followed by a query parses back into the two. */
  lemma ParsePathAndQuery(p: string, q: string)
    requires '?' !in p
    requires |q| > 0 && q[0] == '?'
    ensures ParseTarget(p + q) == Location(p, q)
  {
    var k := IndexOf(p + q, '?', 0);
    assert (p + q)[|p|] == '?';
    assert forall j :: 0 <= j < |p| ==> (p + q)[j] == p[j];
    assert (p + q)[..|p|] == p;
    assert (p + q)[|p|..] == q;
  }

  /** The target `/home` puts on `/auth` parses to the pathname `/auth`, whatever the type. */
  lemma HomeTargetParses(t: string)
    ensures ParseTarget(Home.SelectType(t)) == Location("/auth", "?type=" + t)
  {
    assert Home.AuthPrefix == "/auth" + "?type=";
    assert Home.SelectType(t) == "/auth" + ("?type=" + t);
    ParsePathAndQuery("/auth", "?type=" + t);
  }

  /** So does the target of the landing page's company box. */
  lemma CompanyTargetParses()
    ensures ParseTarget(Original.SelectType(Original.CompanyChoice).value) == Location("/auth", "?type=company")
  {
    assert "/auth?type=company" == "/auth" + "?type=company";
    ParsePathAndQuery("/auth", "?type=company");
  }

  /** `/auth` shows the form whatever the query, and stays there. */
  lemma AuthPathShowsTheForm(session: Option<App.Session>, search: string)
    ensures App.RouteElement(App.MatchRoute("/auth"), session) == App.Render(App.AuthFormPage)
    ensures Step(session, Location("/auth", search)) == None
  {
    assert App.MatchRoute("/auth") == App.AuthRoute;
  }

  /**
   * The `?type=` hint has no effect: the route renders the form without a
   * `userType` prop, so it is `"white"` and the form asks for an e-mail
   * address in every mode.
   */
  lemma AuthTypeHintIgnored(t: string, session: Option<App.Session>, m: Auth.Mode)
    ensures Step(session, ParseTarget(Home.SelectType(t))) == None
    ensures Step(session, ParseTarget(Original.SelectType(Original.CompanyChoice).value)) == None
    ensures App.RouteElement(App.MatchRoute(ParseTarget(Home.SelectType(t)).path), session) == App.Render(App.AuthFormPage)
    ensures Auth.IdentifierKindOf(Auth.EffectiveUserType(App.AuthFormUserTypeProp), m) == Auth.EmailAddress
  {
    HomeTargetParses(t);
    CompanyTargetParses();
    AuthPathShowsTheForm(session, "?type=" + t);
    AuthPathShowsTheForm(session, "?type=company");
    assert "white" != "blue";
  }
}
