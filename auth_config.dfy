/**
 * The configuration `lib/auth.ts` derives from the process environment: the
 * public base URL, the signing secret and the security flags of its cookies.
 * The environment is passed in as a value; nothing here reads it.
 */
module AuthConfig {
  import opened Wrappers
  import opened Strings

  /** The environment variables the configuration consults. */
  datatype Env = Env(
    nodeEnv: Option<string>,
    vercel: Option<string>,
    vercelUrl: Option<string>,
    authUrl: Option<string>,
    nextAuthUrl: Option<string>,
    authSecret: Option<string>,
    nextAuthSecret: Option<string>)

  const LOCAL_URL := "http://localhost:3000"

  predicate UseSecureCookie(env: Env) {
    env.nodeEnv == Some("production")
  }

  predicate IsDevelopment(env: Env) {
    env.nodeEnv == Some("development")
  }

  predicate IsVercel(env: Env) {
    Truthy(env.vercel)
  }

  /** `url?.includes("localhost")` read as a condition. */
  predicate MentionsLocalhost(url: Option<string>) {
    url.Some? && Contains(url.value, "localhost")
  }

  /** A local host: either URL mentions "localhost", or the platform flag is unset. */
  predicate IsLocalhost(env: Env) {
    MentionsLocalhost(env.nextAuthUrl) || MentionsLocalhost(env.authUrl) || !IsVercel(env)
  }

  predicate IsLocalDevelopment(env: Env) {
    IsDevelopment(env) || IsLocalhost(env)
  }

  /**
   * `getAuthUrl`: development, then the platform URL over https, then
   * AUTH_URL, then NEXTAUTH_URL, then the local fallback. The result is
   * never empty and is always one of those candidates.
   */
  function AuthUrl(env: Env): (r: string)
    ensures r != ""
    ensures r == LOCAL_URL
         || (env.vercelUrl.Some? && r == "https://" + env.vercelUrl.value)
         || Some(r) == env.authUrl
         || Some(r) == env.nextAuthUrl
  {
    if IsDevelopment(env) then LOCAL_URL
    else if Truthy(env.vercelUrl) then "https://" + env.vercelUrl.value
    else if Truthy(env.authUrl) then env.authUrl.value
    else if Truthy(env.nextAuthUrl) then env.nextAuthUrl.value
    else LOCAL_URL
  }

  /** Each source of the base URL is used exactly when no earlier one applies. */
  lemma AuthUrlPriority(env: Env)
    ensures IsDevelopment(env) ==> AuthUrl(env) == LOCAL_URL
    ensures !IsDevelopment(env) && Truthy(env.vercelUrl) ==> AuthUrl(env) == "https://" + env.vercelUrl.value
    ensures !IsDevelopment(env) && !Truthy(env.vercelUrl) && Truthy(env.authUrl)
      ==> AuthUrl(env) == env.authUrl.value
    ensures !IsDevelopment(env) && !Truthy(env.vercelUrl) && !Truthy(env.authUrl) && Truthy(env.nextAuthUrl)
      ==> AuthUrl(env) == env.nextAuthUrl.value
    ensures !IsDevelopment(env) && !Truthy(env.vercelUrl) && !Truthy(env.authUrl) && !Truthy(env.nextAuthUrl)
      ==> AuthUrl(env) == LOCAL_URL
  {
  }

  /** `AUTH_SECRET || NEXTAUTH_SECRET`: the first name wins whenever it is set and non-empty. */
  function Secret(env: Env): (r: Option<string>)
    ensures Truthy(env.authSecret) ==> r == env.authSecret
    ensures !Truthy(env.authSecret) ==> r == env.nextAuthSecret
  {
    Or(env.authSecret, env.nextAuthSecret)
  }

  /** The `secure` and `sameSite` options shared by every cookie of the configuration. */
  datatype CookieFlags = CookieFlags(secure: bool, sameSite: string)

  function SessionCookieFlags(env: Env): (r: CookieFlags)
    ensures r.secure <==> UseSecureCookie(env) && !IsLocalhost(env)
    ensures r.sameSite == (if r.secure then "none" else "lax")
  {
    var crossSite := UseSecureCookie(env) && !IsLocalhost(env);
    CookieFlags(crossSite, if crossSite then "none" else "lax")
  }

  /**
   * Secure, cross-site cookies need a production build on the platform
   * (VERCEL set) with neither URL naming localhost; such a deployment is
   * never treated as local development.
   */
  lemma SecureCookiesNeedDeployment(env: Env)
    ensures SessionCookieFlags(env).secure ==> IsVercel(env) && UseSecureCookie(env)
    ensures SessionCookieFlags(env).secure ==> !IsLocalDevelopment(env)
    ensures !IsVercel(env) ==> SessionCookieFlags(env) == CookieFlags(false, "lax")
  {
  }
}
