/**
 * The application shell of `src/App.jsx`: the session flag, set at startup
 * from the token kept in `localStorage`, and the route table in which every
 * dashboard page is wrapped in the authentication guard.
 *
 * Storage is the `storedToken` field (`getItem` returns `null`, here `None`,
 * for a missing key). The guard component itself is not part of this model:
 * a guarded route is represented by the page together with the flag the
 * guard receives.
 */
module App {
  import opened Optional

  datatype Session = Session(storedToken: Option<string>, authenticated: bool)

  /** The flag starts false, whatever is stored. */
  function InitialSession(stored: Option<string>): Session
  {
    Session(stored, false)
  }

  /** JavaScript truthiness of `getItem`'s result: a non-empty string. */
  predicate TokenPresent(token: Option<string>)
  {
    token.Some? && token.value != ""
  }

  /** The startup effect: a present token sets the flag; nothing here ever clears it. */
  function Startup(s: Session): (r: Session)
    ensures r.authenticated <==> s.authenticated || TokenPresent(s.storedToken)
    ensures r.storedToken == s.storedToken
  {
    if TokenPresent(s.storedToken) then s.(authenticated := true) else s
  }

  /** From a fresh start the flag reflects exactly whether a non-empty token is stored. */
  lemma StartupFromInitial(stored: Option<string>)
    ensures Startup(InitialSession(stored)).authenticated <==> TokenPresent(stored)
  {
  }

  /** An empty stored token counts as none. */
  lemma EmptyTokenIgnored(s: Session)
    requires s.storedToken == Some("")
    ensures Startup(s) == s
  {
  }

  /** Running the effect again changes nothing. */
  lemma StartupIdempotent(s: Session)
    ensures Startup(Startup(s)) == Startup(s)
  {
  }

  // ---------------------------------------------------------------------------
  // routes

  datatype Page =
    | HomePage | HostingPlansPage | DomainSearchPage | AboutPage | ContactPage | LoginPage | RegisterPage
    | DashboardPage | ServicesPage | InvoicesPage | InvoiceDetailsPage | ProfilePage | SupportPage

  /** A route: its path pattern, its page, and whether the page is wrapped in the guard. */
  datatype Route = Route(pattern: string, page: Page, guarded: bool)

  const Routes: seq<Route> := [
    Route("/", HomePage, false),
    Route("/hosting-plans", HostingPlansPage, false),
    Route("/domain-search", DomainSearchPage, false),
    Route("/about", AboutPage, false),
    Route("/contact", ContactPage, false),
    Route("/login", LoginPage, false),
    Route("/register", RegisterPage, false),
    Route("/dashboard", DashboardPage, true),
    Route("/dashboard/services", ServicesPage, true),
    Route("/dashboard/invoices", InvoicesPage, true),
    Route("/dashboard/invoices/:id", InvoiceDetailsPage, true),
    Route("/dashboard/profile", ProfilePage, true),
    Route("/dashboard/support", SupportPage, true)
  ]

  const PublicPaths: set<string> := {"/", "/hosting-plans", "/domain-search", "/about", "/contact", "/login", "/register"}

  /** No two routes share a pattern. */
  lemma RoutePatternsDistinct()
    ensures forall i, j :: 0 <= i < j < |Routes| ==> Routes[i].pattern != Routes[j].pattern
  {
  }

  /** A route is guarded exactly when its pattern starts with "/dashboard". */
  lemma GuardedIffDashboard()
    ensures forall i :: 0 <= i < |Routes| ==> (Routes[i].guarded <==> "/dashboard" <= Routes[i].pattern)
  {
    assert Routes[1].pattern[1] != "/dashboard"[1];
    assert Routes[2].pattern[2] != "/dashboard"[2];
    forall i | 7 <= i < |Routes|
      ensures Routes[i].pattern[..10] == "/dashboard"
    {
    }
  }

  /** The unguarded routes are exactly the seven public pages. */
  lemma PublicRoutesUnguarded()
    ensures forall i :: 0 <= i < |Routes| ==> (!Routes[i].guarded <==> Routes[i].pattern in PublicPaths)
    ensures forall p :: p in PublicPaths ==> exists i :: 0 <= i < |Routes| && Routes[i].pattern == p
  {
    assert Routes[0].pattern == "/";
    assert Routes[1].pattern == "/hosting-plans";
    assert Routes[2].pattern == "/domain-search";
    assert Routes[3].pattern == "/about";
    assert Routes[4].pattern == "/contact";
    assert Routes[5].pattern == "/login";
    assert Routes[6].pattern == "/register";
  }

  /** How a pattern with a route parameter ends. */
  const ParamSuffix := ":id"

  predicate IsParamPattern(pattern: string)
  {
    |pattern| >= 3 && pattern[|pattern| - 3..] == ParamSuffix
  }

  /**
   * Whether `pathname` matches `pattern`: a static pattern only itself; a
   * pattern ending in ":id" its prefix followed by one non-empty segment.
   */
  predicate Matches(pattern: string, pathname: string)
  {
    if IsParamPattern(pattern) then
      var base := pattern[..|pattern| - 3];
      base <= pathname && |pathname| > |base| && '/' !in pathname[|base|..]
    else pattern == pathname
  }

  /** The element a route renders: the page, or the page behind the guard given the current flag. */
  datatype Element = Open(page: Page) | Guarded(page: Page, authenticated: bool)

  function ElementFor(route: Route, authenticated: bool): Element
  {
    if route.guarded then Guarded(route.page, authenticated) else Open(route.page)
  }

  /** The first route whose pattern matches. */
  function Resolve(routes: seq<Route>, pathname: string): (r: Option<nat>)
    ensures r.Some? ==>
      && r.value < |routes|
      && Matches(routes[r.value].pattern, pathname)
      && forall j :: 0 <= j < r.value ==> !Matches(routes[j].pattern, pathname)
    ensures r.None? ==> forall j :: 0 <= j < |routes| ==> !Matches(routes[j].pattern, pathname)
  {
    if |routes| == 0 then None
    else if Matches(routes[0].pattern, pathname) then Some(0)
    else match Resolve(routes[1..], pathname)
      case None => None
      case Some(k) => Some(k + 1)
  }

  /** The first matching route is the one `Resolve` picks: the converse of its contract. */
  lemma {:induction false} ResolveFirstMatch(routes: seq<Route>, pathname: string, k: nat)
    requires k < |routes| && Matches(routes[k].pattern, pathname)
    requires forall j :: 0 <= j < k ==> !Matches(routes[j].pattern, pathname)
    ensures Resolve(routes, pathname) == Some(k)
  {
    if k > 0 {
      ResolveFirstMatch(routes[1..], pathname, k - 1);
    }
  }

  /** Any invoice id, a single non-empty segment, reaches the guarded invoice details page. */
  lemma InvoiceIdResolves(id: string)
    requires id != "" && '/' !in id
    ensures Resolve(Routes, "/dashboard/invoices/" + id) == Some(10)
    ensures ElementFor(Routes[10], false) == Guarded(InvoiceDetailsPage, false)
  {
    var path := "/dashboard/invoices/" + id;
    assert |path| > 20;
    assert Routes[10].pattern[..20] == "/dashboard/invoices/";
    assert path[20..] == id;
    forall j | 0 <= j < 10
      ensures !Matches(Routes[j].pattern, path)
    {
      assert |Routes[j].pattern| < 20;
    }
    ResolveFirstMatch(Routes, path, 10);
  }

  /** Only the invoice details route takes a parameter; every other pattern is static. */
  lemma OnlyInvoiceRouteHasParam()
    ensures forall i :: 0 <= i < |Routes| ==> (IsParamPattern(Routes[i].pattern) <==> i == 10)
    ensures forall i :: 0 <= i < |Routes| && i != 10 ==> |Routes[i].pattern| < 20
  {
    forall i | 0 <= i < |Routes| && i != 10 && |Routes[i].pattern| >= 3
      ensures Routes[i].pattern[|Routes[i].pattern| - 3..] != ParamSuffix
    {
      var p := Routes[i].pattern;
      assert p[|p| - 3] != ':';
      assert p[|p| - 3..][0] == p[|p| - 3];
    }
    assert Routes[10].pattern[20..] == ParamSuffix;
  }

  /**
   * No path matches two routes. React Router ranks the routes of `<Routes>`
   * by specificity rather than taking the first in order; with this table
   * the two agree, since at most one route can match.
   */
  lemma AtMostOneRouteMatches(pathname: string, i: nat, j: nat)
    requires i < |Routes| && j < |Routes|
    requires Matches(Routes[i].pattern, pathname) && Matches(Routes[j].pattern, pathname)
    ensures i == j
  {
    OnlyInvoiceRouteHasParam();
    RoutePatternsDistinct();
    if i != j && (i == 10 || j == 10) {
      assert false;
    }
  }

  /**
   * The page a path resolves to sits behind the guard exactly when the path
   * lies under "/dashboard"; the guard gets the current flag.
   */
  lemma GuardFollowsPath(pathname: string, authenticated: bool)
    requires Resolve(Routes, pathname).Some?
    ensures var route := Routes[Resolve(Routes, pathname).value];
      ElementFor(route, authenticated)
        == if "/dashboard" <= pathname then Guarded(route.page, authenticated) else Open(route.page)
  {
    var k := Resolve(Routes, pathname).value;
    OnlyInvoiceRouteHasParam();
    GuardedIffDashboard();
    if k == 10 {
      assert "/dashboard/invoices/" <= pathname;
      assert pathname[..10] == "/dashboard/invoices/"[..10];
    } else {
      assert Routes[k].pattern == pathname;
    }
  }
}
