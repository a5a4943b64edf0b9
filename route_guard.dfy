/**
 * The branch logic of `RouteGuard`: what a guarded route shows, from the
 * provider's `loading` and `isAuthenticated` and the route's `requireAuth`.
 */
module RouteGuard {
  import opened AuthContext

  /** The spinner, a `<Navigate replace>` to a path, or the route's children. */
  datatype Route = Spinner | Redirect(to: string) | Children

  function Guard(loading: bool, isAuthenticated: bool, requireAuth: bool := true): (r: Route)
    ensures loading ==> r == Spinner
    ensures !loading && requireAuth && !isAuthenticated ==> r == Redirect("/login")
    ensures !loading && !requireAuth && isAuthenticated ==> r == Redirect("/")
    ensures r == Children <==> !loading && requireAuth == isAuthenticated
  {
    if loading then Spinner
    else if requireAuth && !isAuthenticated then Redirect("/login")
    else if !requireAuth && isAuthenticated then Redirect("/")
    else Children
  }

  /** What a route shows for the provider's current state. */
  function Show(s: AuthState, requireAuth: bool): Route {
    Guard(s.loading, s.isAuthenticated, requireAuth)
  }

  /** Before the first session check every route shows the spinner. */
  lemma SpinnerUntilChecked(requireAuth: bool)
    ensures Show(Initial, requireAuth) == Spinner
  {
  }

  /** Once the session check has run, a protected route opens exactly when
      storage holds a session, and the login-style routes exactly when it
      does not. */
  lemma AfterCheckAuthOpens(b: Browser)
    ensures Show(AfterCheckAuth(b).state, true) == Children <==> HasStoredSession(b)
    ensures Show(AfterCheckAuth(b).state, false) == Children <==> !HasStoredSession(b)
    ensures Show(AfterCheckAuth(b).state, true) != Spinner
  {
  }

  /** While a login or register call is pending the whole page is the
      spinner, including the form that started it. */
  lemma SpinnerWhilePending(s: AuthState, requireAuth: bool)
    ensures Show(AfterBegin(s), requireAuth) == Spinner
  {
  }

  /** A successful request sends the login-style route to the home page;
      after logging out, protected routes go to the login page. */
  lemma RedirectsAfterTransitions(b: Browser, outcome: ApiOutcome)
    ensures outcome.Succeeded? ==> Show(AfterRequest(b, outcome).state, false) == Redirect("/")
    ensures Show(AfterLogout(b).state, true) == Redirect("/login")
  {
  }
}
