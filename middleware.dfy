/**
 * The edge request gate (`middleware.ts`). A pathname is classified against
 * a fixed table of route prefixes; public paths pass at once; every other
 * path needs a session token, whose `status` and then `role` decide between
 * letting the request through and redirecting it to one of five fixed pages.
 *
 * The gate is stated over any route table, so that its rules can be proved
 * in general, and then about the table the program ships (`Routes`).
 */
module RouteGate {
  import opened Wrappers
  import opened Strings
  import opened Accounts

  /** The prefix lists of `routeAccess`. `authenticated` is never consulted by the gate. */
  datatype RouteTable = RouteTable(
    public: seq<string>,
    admin: seq<string>,
    staff: seq<string>,
    authenticated: seq<string>,
    pending: seq<string>)

  /** The route table as shipped. */
  const Routes := RouteTable(
    ["/", "/auth/signin", "/auth/signup", "/auth/error", "/auth/rejected", "/auth/suspended"],
    ["/admin", "/admin/users", "/admin/users/approve", "/admin/users/manage",
     "/admin/settings", "/admin/reports", "/admin/finance"],
    ["/dashboard/projects", "/dashboard/tasks/create", "/dashboard/reports", "/dashboard/team"],
    ["/dashboard", "/dashboard/profile", "/dashboard/tasks", "/dashboard/documents", "/dashboard/checkin"],
    ["/pending-approval", "/pending-approval/profile", "/dashboard/profile", "/dashboard/pending"])

  /**
   * The claims the gate reads from a verified token. Both are untyped in the
   * token, so any string, or nothing, may arrive.
   */
  datatype Claims = Claims(role: Option<string>, status: Option<string>)

  /** Let the request through, or redirect it (with `callbackUrl` when set). */
  datatype Outcome = Allow | Redirect(target: string, callbackUrl: Option<string>)

  const SIGN_IN_PAGE := "/auth/signin"
  const PENDING_PAGE := "/pending-approval"
  const REJECTED_PAGE := "/auth/rejected"
  const SUSPENDED_PAGE := "/auth/suspended"
  const DASHBOARD := "/dashboard"

  predicate IsRedirectTarget(t: string) {
    t == SIGN_IN_PAGE || t == PENDING_PAGE || t == REJECTED_PAGE || t == SUSPENDED_PAGE || t == DASHBOARD
  }

  /** `routes.some(route => path.startsWith(route))`, scanning from the front. */
  function AnyStartsWith(routes: seq<string>, path: string): bool {
    |routes| > 0 && (StartsWith(path, routes[0]) || AnyStartsWith(routes[1..], path))
  }

  /** The scan finds a match exactly when some listed prefix starts the path. */
  lemma {:induction false} AnyStartsWithIff(routes: seq<string>, path: string)
    ensures AnyStartsWith(routes, path) <==> exists i :: 0 <= i < |routes| && StartsWith(path, routes[i])
  {
    if |routes| > 0 {
      AnyStartsWithIff(routes[1..], path);
      if exists i :: 0 <= i < |routes| && StartsWith(path, routes[i]) {
        var i :| 0 <= i < |routes| && StartsWith(path, routes[i]);
        if i > 0 {
          assert routes[1..][i - 1] == routes[i];
        }
      }
    }
  }

  /** Every status for which the gate decides before looking at the role. */
  predicate IsGatedStatus(s: Option<string>) {
    s == Some(PENDING) || s == Some(REJECTED) || s == Some(SUSPENDED) || s == Some(INACTIVE)
  }

  /**
   * The part of the gate after the public check (middleware.ts:63-133):
   * missing token, then the status gates, then the role gates, then Allow.
   */
  function Gate(table: RouteTable, path: string, token: Option<Claims>): (o: Outcome)
    ensures o.Redirect? ==> IsRedirectTarget(o.target)
    ensures o.Redirect? ==> (o.callbackUrl.Some? <==> o.target == SIGN_IN_PAGE)
    ensures o.Redirect? && o.target == SIGN_IN_PAGE ==> token.None? && o.callbackUrl == Some(path)
  {
    match token
    case None => Redirect(SIGN_IN_PAGE, Some(path))
    case Some(c) =>
      if c.status == Some(PENDING) then
        if AnyStartsWith(table.pending, path) then Allow
        else if !StartsWith(path, PENDING_PAGE) then Redirect(PENDING_PAGE, None)
        else Allow
      else if c.status == Some(REJECTED) then
        if path == REJECTED_PAGE then Allow else Redirect(REJECTED_PAGE, None)
      else if c.status == Some(SUSPENDED) || c.status == Some(INACTIVE) then
        if path == SUSPENDED_PAGE then Allow else Redirect(SUSPENDED_PAGE, None)
      else if c.status == Some(ACTIVE) && StartsWith(path, PENDING_PAGE) then
        Redirect(DASHBOARD, None)
      else if AnyStartsWith(table.admin, path) && c.role != Some(SUPER_ADMIN) && c.role != Some(ADMIN) then
        Redirect(DASHBOARD, None)
      else if AnyStartsWith(table.staff, path) && c.role == Some(VOLUNTEER) then
        Redirect(DASHBOARD, None)
      else
        Allow
  }

  /** `middleware` as written: the public list is matched with `startsWith`. */
  function Middleware(table: RouteTable, path: string, token: Option<Claims>): Outcome {
    if AnyStartsWith(table.public, path) then Allow else Gate(table, path, token)
  }

  /**
   * The public check as evidently intended: the site root "/" is public as a
   * page of its own, every other public entry as a prefix.
   */
  function IsPublicFixed(routes: seq<string>, path: string): bool {
    |routes| > 0
    && ((if routes[0] == "/" then path == "/" else StartsWith(path, routes[0]))
        || IsPublicFixed(routes[1..], path))
  }

  /** `middleware` with the corrected public check. */
  function MiddlewareFixed(table: RouteTable, path: string, token: Option<Claims>): Outcome {
    if IsPublicFixed(table.public, path) then Allow else Gate(table, path, token)
  }

  // ----- The public short-circuit -----

  /**
   * A public path is let through whatever the token; a path that is not
   * public is let through without a token never.
   */
  lemma PublicShortCircuit(table: RouteTable, path: string, token: Option<Claims>)
    ensures AnyStartsWith(table.public, path) ==> Middleware(table, path, token) == Allow
    ensures Middleware(table, path, None) == Allow <==> AnyStartsWith(table.public, path)
  {
  }

  /**
   * With the shipped table, "/" is a public prefix, so every pathname
   * (they all begin with "/") is let through before the token is read.
   */
  lemma EveryRootedPathIsPublic(path: string, token: Option<Claims>)
    requires StartsWith(path, "/")
    ensures AnyStartsWith(Routes.public, path)
    ensures Middleware(Routes, path, token) == Allow
  {
  }

  // ----- Missing token and status gates -----

  /** A non-public request without a token goes to sign-in, remembering the path. */
  lemma MissingTokenGoesToSignIn(table: RouteTable, path: string)
    requires !AnyStartsWith(table.public, path)
    ensures Middleware(table, path, None) == Redirect(SIGN_IN_PAGE, Some(path))
  {
  }

  /**
   * A pending account is let through exactly on a pending prefix or under
   * "/pending-approval" and otherwise sent there; its role is never read.
   */
  lemma PendingGate(table: RouteTable, path: string, role: Option<string>)
    ensures var o := Gate(table, path, Some(Claims(role, Some(PENDING))));
      && (o == Allow <==> AnyStartsWith(table.pending, path) || StartsWith(path, PENDING_PAGE))
      && (o != Allow ==> o == Redirect(PENDING_PAGE, None))
  {
  }

  /** A rejected account is let through on "/auth/rejected" only and otherwise sent there. */
  lemma RejectedGate(table: RouteTable, path: string, role: Option<string>)
    ensures var o := Gate(table, path, Some(Claims(role, Some(REJECTED))));
      && (o == Allow <==> path == REJECTED_PAGE)
      && (o != Allow ==> o == Redirect(REJECTED_PAGE, None))
  {
  }

  /** A suspended or inactive account is let through on "/auth/suspended" only. */
  lemma SuspendedGate(table: RouteTable, path: string, role: Option<string>, status: string)
    requires status == SUSPENDED || status == INACTIVE
    ensures var o := Gate(table, path, Some(Claims(role, Some(status))));
      && (o == Allow <==> path == SUSPENDED_PAGE)
      && (o != Allow ==> o == Redirect(SUSPENDED_PAGE, None))
  {
  }

  /**
   * Status dominates role: for the four gated statuses the outcome is the
   * same whatever the role, so a suspended admin is treated as suspended.
   */
  lemma StatusBeforeRole(table: RouteTable, path: string, r1: Option<string>, r2: Option<string>, s: Option<string>)
    requires IsGatedStatus(s)
    ensures Gate(table, path, Some(Claims(r1, s))) == Gate(table, path, Some(Claims(r2, s)))
  {
  }

  /**
   * For every other status (ACTIVE, an unrecognised one, or none) the gate
   * lets the request through unless an ACTIVE account is on the pending
   * screen, a non-admin is on an admin prefix, or a volunteer is on a staff
   * prefix; each of those is sent to "/dashboard". There is no denial.
   */
  lemma RoleGates(table: RouteTable, path: string, role: Option<string>, status: Option<string>)
    requires !IsGatedStatus(status)
    ensures var o := Gate(table, path, Some(Claims(role, status)));
      && (o == Allow <==>
            && !(status == Some(ACTIVE) && StartsWith(path, PENDING_PAGE))
            && (AnyStartsWith(table.admin, path) ==> role == Some(ADMIN) || role == Some(SUPER_ADMIN))
            && (AnyStartsWith(table.staff, path) ==> role != Some(VOLUNTEER)))
      && (o != Allow ==> o == Redirect(DASHBOARD, None))
  {
  }

  // ----- No redirect loops -----

  /**
   * Following a redirect other than the one to sign-in, with the same token,
   * lands on a page the gate lets through, provided "/dashboard" itself is
   * not an admin or staff path.
   */
  lemma {:induction false} GateNoLoop(table: RouteTable, path: string, token: Option<Claims>)
    requires !AnyStartsWith(table.admin, DASHBOARD) && !AnyStartsWith(table.staff, DASHBOARD)
    requires Gate(table, path, token).Redirect? && Gate(table, path, token).target != SIGN_IN_PAGE
    ensures Gate(table, Gate(table, path, token).target, token) == Allow
  {
    var t := Gate(table, path, token).target;
    var c := token.value;
    if c.status == Some(PENDING) {
      assert t == PENDING_PAGE;
      assert StartsWith(t, PENDING_PAGE);
    } else if !IsGatedStatus(c.status) {
      assert t == DASHBOARD;
      assert !StartsWith(DASHBOARD, PENDING_PAGE);
    }
  }

  /** The shipped admin and staff prefixes do not cover "/dashboard". */
  lemma DashboardIsNotPrivileged()
    ensures !AnyStartsWith(Routes.admin, DASHBOARD) && !AnyStartsWith(Routes.staff, DASHBOARD)
  {
    forall i | 0 <= i < |Routes.admin|
      ensures !StartsWith(DASHBOARD, Routes.admin[i])
    {
      assert Routes.admin[i][1] == 'a';
    }
    forall i | 0 <= i < |Routes.staff|
      ensures !StartsWith(DASHBOARD, Routes.staff[i])
    {
      assert |Routes.staff[i]| > |DASHBOARD|;
    }
    AnyStartsWithIff(Routes.admin, DASHBOARD);
    AnyStartsWithIff(Routes.staff, DASHBOARD);
  }

  /**
   * With the shipped table and the corrected public check, requesting any
   * redirect target again with the same token is let through.
   */
  lemma {:induction false} NoRedirectLoop(path: string, token: Option<Claims>)
    requires MiddlewareFixed(Routes, path, token).Redirect?
    ensures MiddlewareFixed(Routes, MiddlewareFixed(Routes, path, token).target, token) == Allow
  {
    var t := MiddlewareFixed(Routes, path, token).target;
    if t == SIGN_IN_PAGE {
      assert StartsWith(SIGN_IN_PAGE, Routes.public[1]);
      assert IsPublicFixed(Routes.public[1..], SIGN_IN_PAGE);
    } else {
      DashboardIsNotPrivileged();
      GateNoLoop(Routes, path, token);
    }
  }

  // ----- The root-prefix finding -----

  /** A path beginning "/auth" is the only kind the corrected check lets through besides "/". */
  lemma {:induction false} FixedPublicPaths(path: string)
    ensures IsPublicFixed(Routes.public, path) ==> path == "/" || StartsWith(path, "/auth/")
  {
    if IsPublicFixed(Routes.public, path) && path != "/" {
      AuthPrefixes(Routes.public[1..], path);
    }
  }

  lemma {:induction false} AuthPrefixes(routes: seq<string>, path: string)
    requires forall i :: 0 <= i < |routes| ==> StartsWith(routes[i], "/auth/") && routes[i] != "/"
    requires IsPublicFixed(routes, path)
    ensures StartsWith(path, "/auth/")
  {
    if StartsWith(path, routes[0]) {
      assert path[..6] == routes[0][..6];
    } else {
      AuthPrefixes(routes[1..], path);
    }
  }

  /**
   * As written, an anonymous request for the dashboard is let through;
   * with the corrected public check it is sent to sign-in.
   */
  lemma AnonymousDashboardRequest()
    ensures Middleware(Routes, DASHBOARD, None) == Allow
    ensures MiddlewareFixed(Routes, DASHBOARD, None) == Redirect(SIGN_IN_PAGE, Some(DASHBOARD))
  {
    EveryRootedPathIsPublic(DASHBOARD, None);
    FixedPublicPaths(DASHBOARD);
  }

  /**
   * With the corrected public check, every dashboard or admin path is gated:
   * anonymous requests go to sign-in and the status and role gates apply.
   */
  lemma {:induction false} FixedGuardsProtectedPaths(path: string, token: Option<Claims>)
    requires StartsWith(path, "/dashboard") || StartsWith(path, "/admin")
    ensures MiddlewareFixed(Routes, path, token) == Gate(Routes, path, token)
    ensures MiddlewareFixed(Routes, path, None) == Redirect(SIGN_IN_PAGE, Some(path))
  {
    FixedPublicPaths(path);
    if StartsWith(path, "/dashboard") {
      PrefixesDiffer(path, "/dashboard", "/auth/", 1);
    } else {
      PrefixesDiffer(path, "/admin", "/auth/", 2);
    }
  }

  /** Two prefixes that differ at a position cannot both start the same path. */
  lemma PrefixesDiffer(path: string, a: string, b: string, k: nat)
    requires StartsWith(path, a) && k < |a| && k < |b| && a[k] != b[k]
    ensures !StartsWith(path, b)
  {
    assert path[k] == a[k];
  }
}
