/**
 * The route table and its two guards. A guard decides, from the session's loading flag
 * and whether a user is signed in, between the loading screen, a redirect and the
 * guarded page.
 */
module AppRoutes {
  import opened Wrappers

  const HOME := "/"
  const LOGIN := "/login"

  datatype Screen =
    | LoadingScreen
    /** `<Navigate to replace>`, with the `from` location it carries, if any. */
    | Redirect(to: string, from: Option<string>)
    | Children

  /** `PrivateRoute` at `location`. */
  function PrivateRoute(isLoading: bool, isAuthenticated: bool, location: string): (s: Screen)
    ensures isLoading ==> s == LoadingScreen
    ensures !isLoading && !isAuthenticated ==> s == Redirect(LOGIN, Some(location))
    ensures s == Children <==> !isLoading && isAuthenticated
  {
    if isLoading then LoadingScreen
    else if !isAuthenticated then Redirect(LOGIN, Some(location))
    else Children
  }

  /** `GuestRoute`. */
  function GuestRoute(isLoading: bool, isAuthenticated: bool): (s: Screen)
    ensures isLoading ==> s == LoadingScreen
    ensures !isLoading && isAuthenticated ==> s == Redirect(HOME, None)
    ensures s == Children <==> !isLoading && !isAuthenticated
  {
    if isLoading then LoadingScreen
    else if isAuthenticated then Redirect(HOME, None)
    else Children
  }

  /** Once loading is over, exactly one of the two guards shows its page. */
  lemma ExactlyOneGuardOpens(isAuthenticated: bool, location: string)
    ensures (PrivateRoute(false, isAuthenticated, location) == Children)
        != (GuestRoute(false, isAuthenticated) == Children)
  {
  }

  /** While loading, both guards show the loading screen. */
  lemma LoadingShowsNeitherPage(isAuthenticated: bool, location: string)
    ensures PrivateRoute(true, isAuthenticated, location) == GuestRoute(true, isAuthenticated) == LoadingScreen
  {
  }

  /** What the route table renders for a path. */
  datatype Page =
    | GuardedLogin(screen: Screen)       // `/login` behind `GuestRoute`
    | GuardedDashboard(screen: Screen)   // `/` behind `PrivateRoute`, the dashboard as index
    | Fallback(to: string)               // `*`

  function Resolve(path: string, isLoading: bool, isAuthenticated: bool): (p: Page)
    ensures path == LOGIN ==> p == GuardedLogin(GuestRoute(isLoading, isAuthenticated))
    ensures path == HOME ==> p == GuardedDashboard(PrivateRoute(isLoading, isAuthenticated, path))
    ensures path != LOGIN && path != HOME ==> p == Fallback(HOME)
  {
    if path == LOGIN then GuardedLogin(GuestRoute(isLoading, isAuthenticated))
    else if path == HOME then GuardedDashboard(PrivateRoute(isLoading, isAuthenticated, path))
    else Fallback(HOME)
  }

  /** Where a rendered page redirects to, if it does. */
  function Target(p: Page): Option<string> {
    match p
    case Fallback(to) => Some(to)
    case GuardedLogin(s) => if s.Redirect? then Some(s.to) else None
    case GuardedDashboard(s) => if s.Redirect? then Some(s.to) else None
  }

  /** The path reached from `path` by following at most `hops` redirects once loading is over. */
  function Settle(path: string, isAuthenticated: bool, hops: nat): string
    decreases hops
  {
    var t := Target(Resolve(path, false, isAuthenticated));
    if hops == 0 || t.None? then path else Settle(t.value, isAuthenticated, hops - 1)
  }

  /**
   * Once loading is over every path settles within two redirects: on the dashboard for a
   * signed-in user, on the login page for a visitor, and nothing redirects from there.
   */
  lemma RedirectsSettle(path: string, isAuthenticated: bool)
    ensures Settle(path, isAuthenticated, 2) == if isAuthenticated then HOME else LOGIN
    ensures Target(Resolve(Settle(path, isAuthenticated, 2), false, isAuthenticated)).None?
  {
  }
}
