/** The route table of the application and what it renders for a path. */
module AppRoutes {
  import opened AuthContext
  import ProtectedRoute
  import Layout

  datatype Page =
    | Landing | Login | Signup | ForgotPassword | About | Services | Contact | Security
    | Kyc | Dashboard | Wallet | Strategies | Trading | CopyTrading | Admin | NotFound

  /** How a route's element is wrapped. */
  datatype Wrap = Bare | Guarded(requireAdmin: bool)

  datatype Route = Route(path: string, page: Page, wrap: Wrap)

  /** The `<Route>` elements before the `*` fallback, in order. */
  const Table: seq<Route> := [
    Route("/", Landing, Bare),
    Route("/login", Login, Bare),
    Route("/signup", Signup, Bare),
    Route("/forgot-password", ForgotPassword, Bare),
    Route("/about", About, Bare),
    Route("/services", Services, Bare),
    Route("/contact", Contact, Bare),
    Route("/security", Security, Bare),
    Route("/kyc", Kyc, Guarded(false)),
    Route("/dashboard", Dashboard, Guarded(false)),
    Route("/wallet", Wallet, Guarded(false)),
    Route("/strategies", Strategies, Guarded(false)),
    Route("/trading", Trading, Guarded(false)),
    Route("/copy-trading", CopyTrading, Guarded(false)),
    Route("/admin", Admin, Guarded(true))
  ]

  const PublicPaths: seq<string> :=
    ["/", "/login", "/signup", "/forgot-password", "/about", "/services", "/contact", "/security"]

  const UserPaths: seq<string> :=
    ["/kyc", "/dashboard", "/wallet", "/strategies", "/trading", "/copy-trading"]

  predicate InTable(path: string)
  {
    exists k :: 0 <= k < |Table| && Table[k].path == path
  }

  /** The first entry of `routes` for `path`, or the `*` fallback. */
  function MatchIn(routes: seq<Route>, path: string): (r: Route)
    ensures r in routes || r == Route(path, NotFound, Bare)
    ensures r in routes ==> r.path == path
    ensures (exists k :: 0 <= k < |routes| && routes[k].path == path) <==> r in routes
    ensures r in routes ==> exists k :: 0 <= k < |routes| && routes[k] == r
                              && forall j :: 0 <= j < k ==> routes[j].path != path
    decreases |routes|
  {
    if routes == [] then Route(path, NotFound, Bare)
    else if routes[0].path == path then routes[0]
    else
      var r := MatchIn(routes[1..], path);
      assert forall k :: 1 <= k < |routes| ==> routes[k] == routes[1..][k - 1];
      if r in routes[1..] then
        var k :| 0 <= k < |routes[1..]| && routes[1..][k] == r
                 && forall j :: 0 <= j < k ==> routes[1..][j].path != path;
        assert routes[k + 1] == r;
        r
      else r
  }

  function Match(path: string): Route
  {
    MatchIn(Table, path)
  }

  /** What the user sees at `path`. */
  datatype View = Show(page: Page) | Gate(screen: ProtectedRoute.Screen)

  function Render(path: string, isLoading: bool, user: UserSlot): (v: View)
    ensures !InTable(path) ==> v == Show(NotFound)
  {
    var route := Match(path);
    match route.wrap
    case Bare => Show(route.page)
    case Guarded(requireAdmin) =>
      var screen := ProtectedRoute.Decide(isLoading, user, requireAdmin);
      if screen == ProtectedRoute.Children then Show(route.page) else Gate(screen)
  }

  lemma {:induction false} PathsDistinct()
    ensures forall i, j :: 0 <= i < j < |Table| ==> Table[i].path != Table[j].path
  {
  }

  /** In a list of routes with distinct paths, every entry is the one its own path selects. */
  lemma {:induction false} MatchInFindsEntry(routes: seq<Route>, k: nat)
    requires k < |routes|
    requires forall i, j :: 0 <= i < j < |routes| ==> routes[i].path != routes[j].path
    ensures MatchIn(routes, routes[k].path) == routes[k]
    decreases |routes|
  {
    if k > 0 {
      var tail := routes[1..];
      assert routes[0].path != routes[k].path;
      assert tail[k - 1] == routes[k];
      forall i, j | 0 <= i < j < |tail|
        ensures tail[i].path != tail[j].path
      {
        assert tail[i] == routes[i + 1] && tail[j] == routes[j + 1];
      }
      MatchInFindsEntry(tail, k - 1);
    }
  }

  /** A path in the table is found at its own entry, so lookup is deterministic. */
  lemma {:induction false} MatchFindsEntry(k: nat)
    requires k < |Table|
    ensures Match(Table[k].path) == Table[k]
  {
    PathsDistinct();
    MatchInFindsEntry(Table, k);
  }

  /** The marketing and sign-in pages render without any guard. */
  lemma {:induction false} PublicPathsAreBare(path: string, isLoading: bool, user: UserSlot)
    requires path in PublicPaths
    ensures Match(path).wrap == Bare
    ensures Render(path, isLoading, user) == Show(Match(path).page)
  {
    var k :| 0 <= k < |PublicPaths| && PublicPaths[k] == path;
    assert forall j :: 0 <= j < |PublicPaths| ==> Table[j].path == PublicPaths[j];
    assert forall j :: 0 <= j < 8 ==> Table[j].wrap == Bare;
    MatchFindsEntry(k);
  }

  /** The user pages are guarded without an admin requirement. */
  lemma {:induction false} UserPathsAreGuarded(path: string)
    requires path in UserPaths
    ensures Match(path).wrap == Guarded(false)
  {
    var k :| 0 <= k < |UserPaths| && UserPaths[k] == path;
    assert forall j :: 0 <= j < |UserPaths| ==> Table[j + 8].path == UserPaths[j];
    assert forall j :: 8 <= j < 14 ==> Table[j].wrap == Guarded(false);
    MatchFindsEntry(k + 8);
  }

  /** `/admin` is the only route that requires the admin role. */
  lemma {:induction false} OnlyAdminRequiresAdmin(path: string)
    ensures Match(path).wrap == Guarded(true) <==> path == "/admin"
  {
    assert forall k :: 0 <= k < |Table| ==> (Table[k].wrap == Guarded(true) <==> k == 14);
    MatchFindsEntry(14);
  }

  /** The Admin page is rendered exactly for a finished check with an admin user. */
  lemma {:induction false} AdminPageOnlyForAdmins(isLoading: bool, user: UserSlot)
    ensures Render("/admin", isLoading, user) == Show(Admin) <==> !isLoading && ProtectedRoute.IsAdmin(user)
    ensures !isLoading && user.Present? && !ProtectedRoute.IsAdmin(user) ==>
              Render("/admin", isLoading, user) == Gate(ProtectedRoute.RedirectDashboard)
  {
    MatchFindsEntry(14);
  }

  /**
   * The shell and the guard apply the same role test: the badge shows, the
   * Admin link is listed, and a finished check renders the Admin page, all
   * for exactly the same users.
   */
  lemma {:induction false} OneAdminTest(user: UserSlot)
    ensures Layout.AdminBadgeShown(user) <==> Layout.AdminItem in Layout.NavItems(user)
    ensures Layout.AdminBadgeShown(user) <==> Render("/admin", false, user) == Show(Admin)
  {
    AdminPageOnlyForAdmins(false, user);
  }

  /** Every link of the navigation list leads to a guarded route of this table. */
  lemma {:induction false} NavLinksAreGuarded(user: UserSlot, item: Layout.NavItem)
    requires item in Layout.NavItems(user)
    ensures InTable(item.path) && Match(item.path).wrap.Guarded?
  {
    var items := Layout.NavItems(user);
    var i :| 0 <= i < |items| && items[i] == item;
    if i < 6 {
      assert items[i] == Layout.BaseItems[i];
      var k := [9, 10, 12, 13, 8, 11][i];
      assert Table[k].path == item.path;
      MatchFindsEntry(k);
    } else {
      assert item == Layout.AdminItem;
      MatchFindsEntry(14);
    }
  }
}
