/**
 * The remaining callbacks of `lib/auth.ts`: the `authorized` route gate, the
 * `redirect` resolver, the `signIn` acceptance test and the credentials
 * verifier `authorize`. The password hash comparison and URL origin
 * extraction are collaborators, passed in as functions.
 */
module AuthCallbacks {
  import opened Wrappers
  import opened Strings
  import opened Accounts
  import opened AuthConfig
  import opened SessionView
  import opened TokenLifecycle

  // ----- authorized -----

  /** What `authorized` returns: a boolean, or a redirect response. */
  datatype Verdict = Permit(allowed: bool) | RedirectTo(target: string)

  predicate OnProtected(path: string) {
    StartsWith(path, "/dashboard") || StartsWith(path, "/admin")
  }

  predicate OnSignIn(path: string) {
    path == "/login" || path == "/auth/signin"
  }

  /** Where a logged-in visitor of the sign-in page is sent, by status. */
  function LoginDestination(status: Option<string>): (t: string)
    ensures t in {"/pending-approval", "/dashboard", "/auth/suspended", "/auth/rejected"}
    ensures status == Some(PENDING) ==> t == "/pending-approval"
    ensures status == Some(SUSPENDED) || status == Some(INACTIVE) ==> t == "/auth/suspended"
    ensures status == Some(REJECTED) ==> t == "/auth/rejected"
    ensures status !in {Some(PENDING), Some(SUSPENDED), Some(INACTIVE), Some(REJECTED)} ==> t == "/dashboard"
  {
    if status == Some(PENDING) then "/pending-approval"
    else if status == Some(ACTIVE) then "/dashboard"
    else if status == Some(SUSPENDED) || status == Some(INACTIVE) then "/auth/suspended"
    else if status == Some(REJECTED) then "/auth/rejected"
    else "/dashboard"
  }

  /**
   * `authorized({ auth, request })`, with `user` standing for `auth?.user`.
   * Only the presence of a role is checked, never its value.
   */
  function Authorized(user: Option<UserView>, path: string): Verdict {
    var status := if user.Some? then user.value.status else None;
    var role := if user.Some? then user.value.role else None;
    if OnProtected(path) then
      if user.None? then Permit(false)
      else if !Truthy(status) || !Truthy(role) then Permit(false)
      else if status == Some(SUSPENDED) || status == Some(INACTIVE) then RedirectTo("/auth/suspended")
      else if status == Some(REJECTED) then RedirectTo("/auth/rejected")
      else if status == Some(PENDING) && StartsWith(path, "/dashboard") then RedirectTo("/pending-approval")
      else if status == Some(ACTIVE) then Permit(true)
      else Permit(false)
    else if user.Some? && OnSignIn(path) then
      RedirectTo(LoginDestination(status))
    else
      Permit(true)
  }

  /**
   * On a dashboard or admin path: access is granted exactly to a logged-in
   * ACTIVE user with a role; suspended, inactive and rejected users and
   * pending users on the dashboard are redirected; everything else
   * (including a pending user on an admin path) is refused.
   */
  lemma AuthorizedProtected(user: Option<UserView>, path: string)
    requires OnProtected(path)
    ensures Authorized(user, path) == Permit(true)
      <==> user.Some? && Truthy(user.value.role) && user.value.status == Some(ACTIVE)
    ensures user.None? ==> Authorized(user, path) == Permit(false)
    ensures user.Some? && (!Truthy(user.value.role) || !Truthy(user.value.status))
      ==> Authorized(user, path) == Permit(false)
    ensures user.Some? && Truthy(user.value.role) ==>
      var s := user.value.status;
      && (s == Some(SUSPENDED) || s == Some(INACTIVE) ==> Authorized(user, path) == RedirectTo("/auth/suspended"))
      && (s == Some(REJECTED) ==> Authorized(user, path) == RedirectTo("/auth/rejected"))
      && ((s == Some(PENDING) && StartsWith(path, "/dashboard"))
            ==> Authorized(user, path) == RedirectTo("/pending-approval"))
      && (s == Some(PENDING) && !StartsWith(path, "/dashboard") ==> Authorized(user, path) == Permit(false))
    ensures Authorized(user, path).RedirectTo? ==>
      user.Some? && user.value.status in {Some(SUSPENDED), Some(INACTIVE), Some(REJECTED), Some(PENDING)}
  {
  }

  /** `authorized` never compares the role: any two present roles give the same verdict. */
  lemma AuthorizedIgnoresRoleValue(v: UserView, r1: string, r2: string, path: string)
    requires r1 != "" && r2 != ""
    ensures Authorized(Some(v.(role := Some(r1))), path) == Authorized(Some(v.(role := Some(r2))), path)
  {
  }

  /**
   * A logged-in visitor of the sign-in page is redirected by status; every
   * request that is neither protected nor such a visit is let through.
   */
  lemma AuthorizedElsewhere(user: Option<UserView>, path: string)
    requires !OnProtected(path)
    ensures user.Some? && OnSignIn(path) ==> Authorized(user, path) == RedirectTo(LoginDestination(user.value.status))
    ensures !(user.Some? && OnSignIn(path)) ==> Authorized(user, path) == Permit(true)
  {
  }

  /**
   * For a user with a role and one of the five known statuses, following a
   * redirect of `authorized` leads to a page it lets through.
   */
  lemma {:induction false} AuthorizedSettles(v: UserView, path: string)
    requires Truthy(v.role)
    requires v.status in {Some(PENDING), Some(ACTIVE), Some(SUSPENDED), Some(INACTIVE), Some(REJECTED)}
    requires Authorized(Some(v), path).RedirectTo?
    ensures Authorized(Some(v), Authorized(Some(v), path).target) == Permit(true)
  {
    var t := Authorized(Some(v), path).target;
    assert t in {"/pending-approval", "/dashboard", "/auth/suspended", "/auth/rejected"};
    if t == "/dashboard" {
      assert v.status == Some(ACTIVE);
    } else if t == "/pending-approval" {
      MismatchAt(t, "/dashboard", 1);
      MismatchAt(t, "/admin", 1);
    } else {
      MismatchAt(t, "/dashboard", 1);
      MismatchAt(t, "/admin", 2);
    }
  }

  /**
   * A logged-in user whose status is not one of the five is sent from the
   * sign-in page to "/dashboard", where the same user is refused.
   */
  lemma UnknownStatusBouncesFromLogin(v: UserView)
    requires Truthy(v.role) && Truthy(v.status)
    requires v.status !in {Some(PENDING), Some(ACTIVE), Some(SUSPENDED), Some(INACTIVE), Some(REJECTED)}
    ensures Authorized(Some(v), "/login") == RedirectTo("/dashboard")
    ensures Authorized(Some(v), "/dashboard") == Permit(false)
  {
    MismatchAt("/login", "/admin", 1);
  }

  // ----- redirect -----

  /**
   * `redirect({ url, baseUrl })`. `origin` stands for `new URL(s).origin`,
   * `None` where the constructor throws. A relative URL is appended to the
   * base; an absolute one is kept only when both parse to the same origin.
   */
  function ResolveRedirect(url: string, baseUrl: string, origin: string -> Option<string>): (r: string)
    ensures StartsWith(url, "/") ==> r == baseUrl + url
    ensures !StartsWith(url, "/") ==> r == url || r == baseUrl
  {
    if StartsWith(url, "/") then baseUrl + url
    else
      var u := origin(url);
      var b := origin(baseUrl);
      if u.Some? && b.Some? && u.value == b.value then url else baseUrl
  }

  /**
   * The resolver never leaves the base origin: an absolute URL survives
   * exactly when it and the base parse to the same origin, and every other
   * absolute or malformed URL falls back to the base URL.
   */
  lemma RedirectStaysOnOrigin(url: string, baseUrl: string, origin: string -> Option<string>)
    requires !StartsWith(url, "/")
    ensures var r := ResolveRedirect(url, baseUrl, origin);
      r == baseUrl || (origin(r).Some? && origin(r) == origin(baseUrl))
    ensures origin(url).Some? && origin(url) == origin(baseUrl) ==> ResolveRedirect(url, baseUrl, origin) == url
    ensures origin(url).None? || origin(baseUrl).None? || origin(url) != origin(baseUrl)
      ==> ResolveRedirect(url, baseUrl, origin) == baseUrl
  {
  }

  /** The two redirect examples: a path is resolved against the base, a foreign site is refused. */
  lemma RedirectExamples(origin: string -> Option<string>)
    requires origin("https://app.example.com") == Some("https://app.example.com")
    requires origin("https://evil.example.com/x") == Some("https://evil.example.com")
    ensures ResolveRedirect("/dashboard", "https://app.example.com", origin) == "https://app.example.com/dashboard"
    ensures ResolveRedirect("https://evil.example.com/x", "https://app.example.com", origin) == "https://app.example.com"
  {
    MismatchAt("https://evil.example.com/x", "/", 0);
  }

  // ----- signIn -----

  /** The `account` argument; only its provider is read. */
  datatype Account = Account(provider: Option<string>)

  predicate IsOAuth(account: Option<Account>) {
    account.Some? && Truthy(account.value.provider) && account.value.provider != Some("credentials")
  }

  /** `signIn({ user, account })`: local development accepts everything. */
  function SignIn(env: Env, account: Option<Account>, user: Option<SignedInUser>): bool {
    if IsLocalDevelopment(env) then true
    else if IsOAuth(account) then true
    else if account.Some? && account.value.provider == Some("credentials") && user.Some? then true
    else false
  }

  /**
   * Outside local development, an OAuth sign-in is accepted, a credentials
   * sign-in is accepted exactly when the verifier produced a user, and a
   * sign-in without a provider is refused.
   */
  lemma SignInOutsideLocal(env: Env, account: Option<Account>, user: Option<SignedInUser>)
    requires !IsLocalDevelopment(env)
    ensures IsOAuth(account) ==> SignIn(env, account, user)
    ensures account == Some(Account(Some("credentials"))) ==> (SignIn(env, account, user) <==> user.Some?)
    ensures account.None? || !Truthy(account.value.provider) ==> !SignIn(env, account, user)
  {
  }

  /** In local development the callback accepts every sign-in. */
  lemma SignInLocal(env: Env, account: Option<Account>, user: Option<SignedInUser>)
    requires IsLocalDevelopment(env)
    ensures SignIn(env, account, user)
  {
  }

  // ----- authorize -----

  /** The submitted form fields. */
  datatype Credentials = Credentials(email: Option<string>, password: Option<string>)

  /**
   * The credentials verifier: every failure (missing field, unknown e-mail,
   * no stored hash, wrong password, a store that throws) gives `None`.
   */
  function Authorize(credentials: Option<Credentials>, store: UserStore, passwordMatches: (string, string) -> bool)
    : Option<SignedInUser>
  {
    if credentials.None? || !Truthy(credentials.value.email) || !Truthy(credentials.value.password) then None
    else
      var email := credentials.value.email.value;
      var password := credentials.value.password.value;
      match FindByEmail(store, email)
      case Threw => None
      case NotFound => None
      case Found(u) =>
        if !Truthy(u.password) then None
        else if !passwordMatches(password, u.password.value) then None
        else Some(SignedInUser(u.id, Some(u.email), Some(SignInName(u)), u.role, u.status))
  }

  /** The one successful path: both fields given, the row found with a hash, and the hash matching. */
  predicate Verified(credentials: Option<Credentials>, store: UserStore, passwordMatches: (string, string) -> bool) {
    && credentials.Some? && Truthy(credentials.value.email) && Truthy(credentials.value.password)
    && store.reachable && credentials.value.email.value in store.byEmail
    && var u := store.byEmail[credentials.value.email.value];
    && Truthy(u.password) && passwordMatches(credentials.value.password.value, u.password.value)
  }

  /**
   * The verifier succeeds exactly on verified credentials, and then returns
   * the stored row's id, e-mail, role and status with the derived name.
   */
  lemma AuthorizeExactly(credentials: Option<Credentials>, store: UserStore, passwordMatches: (string, string) -> bool)
    ensures Authorize(credentials, store, passwordMatches).Some? <==> Verified(credentials, store, passwordMatches)
    ensures Verified(credentials, store, passwordMatches) ==>
      var u := store.byEmail[credentials.value.email.value];
      Authorize(credentials, store, passwordMatches) == Some(SignedInUser(u.id, Some(u.email), Some(SignInName(u)), u.role, u.status))
  {
  }

  /**
   * No account enumeration: an unknown e-mail and a wrong password for a
   * known one give the same answer.
   */
  lemma AuthorizeHidesCause(c: Credentials, s1: UserStore, s2: UserStore, passwordMatches: (string, string) -> bool)
    requires Truthy(c.email) && Truthy(c.password)
    requires c.email.value !in s1.byEmail
    requires c.email.value in s2.byEmail && Truthy(s2.byEmail[c.email.value].password)
    requires !passwordMatches(c.password.value, s2.byEmail[c.email.value].password.value)
    ensures Authorize(Some(c), s1, passwordMatches) == Authorize(Some(c), s2, passwordMatches) == None
  {
  }

  /**
   * Outside local development, a credentials sign-in passes `signIn`
   * exactly when the verifier accepted the credentials.
   */
  lemma CredentialsSignInNeedsVerification(env: Env, c: Option<Credentials>, store: UserStore, passwordMatches: (string, string) -> bool)
    requires !IsLocalDevelopment(env)
    ensures SignIn(env, Some(Account(Some("credentials"))), Authorize(c, store, passwordMatches))
      <==> Verified(c, store, passwordMatches)
  {
    AuthorizeExactly(c, store, passwordMatches);
  }
}
