/**
 * The application's route table: an ordered list of entries, resolved by
 * taking the first entry that matches the URL.
 */
module Routes {
  import opened Wrappers

  datatype Page = LoginPage | RegisterPage | DashboardPage | AccountSettingsPage

  datatype PathMatch = Prefix | Full

  /** What an entry does: show a page, behind the authentication guard or not, or redirect. */
  datatype Target = Show(page: Page, guarded: bool) | RedirectTo(url: string)

  datatype Route = Route(path: string, pathMatch: PathMatch, target: Target)

  /** The wildcard path. */
  const Wildcard: string := "**"

  /** The routes, in order. */
  const AppRoutes: seq<Route> := [
    Route("login", Prefix, Show(LoginPage, false)),
    Route("register", Prefix, Show(RegisterPage, false)),
    Route("dashboard", Prefix, Show(DashboardPage, true)),
    Route("account-settings", Prefix, Show(AccountSettingsPage, true)),
    Route("", Full, RedirectTo("/login")),
    Route(Wildcard, Prefix, RedirectTo("/login"))
  ]

  /** The URL segments an entry's path stands for. */
  function PathSegments(path: string): seq<string>
  {
    if path == "" then [] else [path]
  }

  /**
   * Whether `route` matches a URL given as its segments. No entry has
   * children, so under either match mode an entry matches only when its
   * path consumes the whole URL; the wildcard matches everything.
   */
  predicate Matches(route: Route, segments: seq<string>)
  {
    route.path == Wildcard || segments == PathSegments(route.path)
  }

  /** The index of the first entry of `routes` from `from` on that matches, if any. */
  function FirstMatch(routes: seq<Route>, segments: seq<string>, from: nat): (r: Option<nat>)
    requires from <= |routes|
    ensures r.Some? ==> from <= r.value < |routes| && Matches(routes[r.value], segments)
                        && forall k :: from <= k < r.value ==> !Matches(routes[k], segments)
    ensures r.None? ==> forall k :: from <= k < |routes| ==> !Matches(routes[k], segments)
    decreases |routes| - from
  {
    if from == |routes| then None
    else if Matches(routes[from], segments) then Some(from)
    else FirstMatch(routes, segments, from + 1)
  }

  /** The paths of the table are pairwise distinct: they already differ in their first character. */
  lemma PathsDiffer()
    ensures forall i, j :: 0 <= i < j < |AppRoutes| ==> AppRoutes[i].path != AppRoutes[j].path
  {
  }

  /** The URLs with an entry of their own. */
  const KnownUrls: set<seq<string>> := {["login"], ["register"], ["dashboard"], ["account-settings"]}

  /**
   * What the router does for a URL: login and register are shown freely,
   * dashboard and account settings behind the guard, and everything else,
   * the empty URL included, redirects to `/login`.
   */
  function Resolve(segments: seq<string>): (target: Target)
    ensures segments == ["login"] ==> target == Show(LoginPage, false)
    ensures segments == ["register"] ==> target == Show(RegisterPage, false)
    ensures segments == ["dashboard"] ==> target == Show(DashboardPage, true)
    ensures segments == ["account-settings"] ==> target == Show(AccountSettingsPage, true)
    ensures segments !in KnownUrls ==> target == RedirectTo("/login")
  {
    EntryResolvesToItself(0);
    EntryResolvesToItself(1);
    EntryResolvesToItself(2);
    EntryResolvesToItself(3);
    match FirstMatch(AppRoutes, segments, 0)
    case Some(i) => AppRoutes[i].target
    case None => assert Matches(AppRoutes[5], segments); RedirectTo("/login")
  }

  /** The catch-all is the last entry and the only wildcard, so the lookup never falls off the end. */
  lemma CatchAllIsLast(segments: seq<string>)
    ensures FirstMatch(AppRoutes, segments, 0).Some?
    ensures forall k :: 0 <= k < |AppRoutes| - 1 ==> AppRoutes[k].path != Wildcard
  {
    assert Matches(AppRoutes[|AppRoutes| - 1], segments);
  }

  /** Each entry before the catch-all is the first match for its own path. */
  lemma EntryResolvesToItself(i: nat)
    requires i < |AppRoutes| - 1
    ensures FirstMatch(AppRoutes, PathSegments(AppRoutes[i].path), 0) == Some(i)
  {
    PathsDiffer();
    var segments := PathSegments(AppRoutes[i].path);
    assert Matches(AppRoutes[i], segments);
    forall k | 0 <= k < i ensures !Matches(AppRoutes[k], segments) {
      assert AppRoutes[k].path != AppRoutes[i].path;
    }
  }

  /** The outcome of a navigation. */
  datatype Navigation = Activated(page: Page) | Blocked(page: Page)

  /** The segments of the absolute one-segment redirect URLs used in the table. */
  function RedirectSegments(url: string): seq<string>
  {
    if |url| > 0 && url[0] == '/' then PathSegments(url[1..]) else PathSegments(url)
  }

  /** Activating a page: a guarded one is shown only when the guard allows it. */
  function Activate(page: Page, guarded: bool, guardAllows: bool): Navigation
  {
    if guarded && !guardAllows then Blocked(page) else Activated(page)
  }

  /**
   * Navigating to a URL: resolve it, follow a redirect once, then consult
   * the guard. `guardAllows` is the answer of the authentication guard,
   * whose code is not part of this model.
   */
  function Navigate(segments: seq<string>, guardAllows: bool): (nav: Navigation)
    ensures nav.Activated? && (nav.page == DashboardPage || nav.page == AccountSettingsPage) ==> guardAllows
    ensures segments !in KnownUrls ==> nav == Activated(LoginPage)
    ensures segments in KnownUrls ==> nav.page == Resolve(segments).page
    ensures nav.Blocked? <==> (segments == ["dashboard"] || segments == ["account-settings"]) && !guardAllows
  {
    match Resolve(segments)
    case Show(page, guarded) => Activate(page, guarded, guardAllows)
    case RedirectTo(url) =>
      assert RedirectSegments(url) == ["login"];
      match Resolve(RedirectSegments(url))
      case Show(page, guarded) => Activate(page, guarded, guardAllows)
      case RedirectTo(_) => assert false; Activated(LoginPage)
  }
}
