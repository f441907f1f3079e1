/**
 * The pieces working together: a volunteer signs in with a password while
 * pending approval, is held on the pending screen, is approved in the store,
 * and once the refresh window has passed reaches the dashboard.
 */
module Scenario {
  import opened Wrappers
  import opened Strings
  import opened Accounts
  import T = TokenLifecycle
  import G = RouteGate
  import A = AuthCallbacks

  /** What the edge gate reads from a verified token. */
  function GateClaims(c: T.Claims): G.Claims {
    G.Claims(c.role, c.status)
  }

  const NoClaims := T.Claims(None, None, None, None, None, None)

  lemma DashboardIsNotPending()
    ensures !G.AnyStartsWith(G.Routes.pending, G.DASHBOARD)
    ensures !StartsWith(G.DASHBOARD, G.PENDING_PAGE)
  {
    MismatchAt(G.DASHBOARD, G.PENDING_PAGE, 1);
    MismatchAt(G.DASHBOARD, G.Routes.pending[1], 1);
    G.AnyStartsWithIff(G.Routes.pending, G.DASHBOARD);
  }

  /**
   * Anonymous: sent to sign-in with the dashboard as callback. Signed in
   * while PENDING: sent to the pending screen. Approved in the store and
   * asked again after the refresh window: let through. (The gate as written
   * lets every one of these requests through.)
   */
  lemma {:induction false} ApprovalJourney(
    c: A.Credentials, store: UserStore, approved: UserStore,
    passwordMatches: (string, string) -> bool, now: int, later: int)
    requires A.Verified(Some(c), store, passwordMatches)
    requires var u := store.byEmail[c.email.value];
      && u.id != "" && u.status == PENDING && u.role == VOLUNTEER
      && approved.reachable && u.id in approved.byId
      && approved.byId[u.id].status == ACTIVE && approved.byId[u.id].role == VOLUNTEER
    requires now != 0 && later - now > T.REFRESH_INTERVAL
    ensures G.MiddlewareFixed(G.Routes, G.DASHBOARD, None) == G.Redirect(G.SIGN_IN_PAGE, Some(G.DASHBOARD))
    ensures var signedIn := T.JwtStep(NoClaims, A.Authorize(Some(c), store, passwordMatches), None, now, store);
      && G.MiddlewareFixed(G.Routes, G.DASHBOARD, Some(GateClaims(signedIn))) == G.Redirect(G.PENDING_PAGE, None)
      && var refreshed := T.JwtStep(signedIn, None, None, later, approved);
         G.MiddlewareFixed(G.Routes, G.DASHBOARD, Some(GateClaims(refreshed))) == G.Allow
  {
    var u := store.byEmail[c.email.value];
    A.AuthorizeExactly(Some(c), store, passwordMatches);
    var user := A.Authorize(Some(c), store, passwordMatches);
    T.SignInDoesNotReread(NoClaims, user.value, None, now, store);
    var signedIn := T.JwtStep(NoClaims, user, None, now, store);
    assert signedIn.status == Some(PENDING) && signedIn.id == Some(u.id);
    StartsWithRefl(G.DASHBOARD);
    G.FixedGuardsProtectedPaths(G.DASHBOARD, None);
    G.FixedGuardsProtectedPaths(G.DASHBOARD, Some(GateClaims(signedIn)));
    DashboardIsNotPending();
    assert GateClaims(signedIn) == G.Claims(signedIn.role, Some(PENDING));
    G.PendingGate(G.Routes, G.DASHBOARD, signedIn.role);
    var refreshed := T.JwtStep(signedIn, None, None, later, approved);
    T.RefreshEffect(signedIn, None, later, approved);
    assert refreshed.status == Some(ACTIVE) && refreshed.role == Some(VOLUNTEER);
    G.FixedGuardsProtectedPaths(G.DASHBOARD, Some(GateClaims(refreshed)));
    G.DashboardIsNotPrivileged();
    assert GateClaims(refreshed) == G.Claims(Some(VOLUNTEER), Some(ACTIVE));
    G.RoleGates(G.Routes, G.DASHBOARD, refreshed.role, refreshed.status);
  }
}
