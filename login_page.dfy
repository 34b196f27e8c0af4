/**
 * The login page's controller: where to go after signing in, what a submit does, and
 * when the error alert is shown.
 */
module LoginPage {
  import opened Wrappers
  import opened Js
  import AppRoutes
  import AuthContext

  /** The page to return to: the `from` pathname the router state carries, else home. */
  function RedirectTarget(fromPath: Option<string>): (to: string)
    ensures StrTruthy(fromPath) ==> to == fromPath.value
    ensures !StrTruthy(fromPath) ==> to == AppRoutes.HOME
  {
    OrStr(fromPath, AppRoutes.HOME)
  }

  /** A visitor bounced from a guarded page is sent back to it after signing in. */
  lemma LoginReturnsToGuardedPage(location: string)
    requires location != ""
    ensures var bounce := AppRoutes.PrivateRoute(false, false, location);
      bounce.Redirect? && bounce.to == AppRoutes.LOGIN && RedirectTarget(bounce.from) == location
  {
  }

  /** The alert is shown iff the error is truthy. */
  predicate AlertShown(error: Option<string>) {
    StrTruthy(error)
  }

  /** With the session's invariant, that is exactly when an error is set. */
  lemma AlertIffError(s: AuthContext.Session)
    requires s.Valid()
    ensures AlertShown(s.error) <==> s.error.Some?
  {
  }

  /** A navigation: the target and whether it replaces the current history entry. */
  datatype Navigation = Navigation(to: string, replace: bool)

  /**
   * `handleLogin`: sign in, then go to the redirect target replacing the login page.
   * A failed sign-in is caught here: nothing is navigated to and nothing propagates.
   */
  method HandleLogin(session: AuthContext.Session, reply: AuthContext.Reply<(AuthContext.User, string)>,
                     fromPath: Option<string>) returns (nav: Option<Navigation>)
    modifies session
    requires session.Valid()
    ensures session.Valid() && !session.isLoading
    ensures reply.Ok? ==> (nav == Some(Navigation(RedirectTarget(fromPath), true))
      && session.IsAuthenticated() && session.user == Some(reply.value.0))
    ensures reply.Fail? ==> (nav.None? && session.error == Some(AuthContext.LoginErrorMessage(reply.failure))
      && session.user == old(session.user))
  {
    var thrown := session.Login(reply);
    if thrown.None? {
      nav := Some(Navigation(if fromPath.Some? && fromPath.value != "" then fromPath.value else "/", true));
    } else {
      nav := None;
    }
  }
}
