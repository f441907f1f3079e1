# Request authorization for the RYD volunteer portal, in Dafny

This project models the request-authorization logic of the RYD portal and proves properties of that model. The logic has three parts.

- **The edge request gate** (`middleware.ts`) is module `RouteGate`. A pathname is classified against the `routeAccess` prefix table, first match wins, using `startsWith`. Public paths pass. A non-public path without a token goes to `/auth/signin?callbackUrl=<path>`. Otherwise the token's `status` is checked first: PENDING, REJECTED, SUSPENDED/INACTIVE. Then an ACTIVE user on the pending screen is sent to `/dashboard`. Last come the `role` gates for admin and staff prefixes. Whatever is left is let through. Role and status are plain strings, so an unrecognised value falls through to the role gates and then to Allow. The gate is a function of the route table, so its rules are proved for any table. `Routes` is the shipped table.
- **The NextAuth configuration and callbacks** (`lib/auth.ts`):
  - `AuthConfig`: the base URL, the signing secret and the cookie `secure`/`sameSite` flags, all derived from an environment record.
  - `TokenLifecycle`: the `jwt` callback. A `Token` class is updated field by field and is specified by the pure step `JwtStep`, which covers issuance at sign-in and the fail-soft refresh every five minutes.
  - `SessionView`: the `session` callback and `getServerSession`, which update `session.user` in place.
  - `AuthCallbacks`: the `authorized` route gate, the `redirect` resolver (same-origin rule), the `signIn` acceptance test and the credentials verifier `authorize`.
  - `Accounts` holds the user rows, the user store and the display-name rules.
- **Gallery lightbox navigation** (`app/gallery/page.tsx`) is module `Gallery`. The class `GalleryState` holds the filtered list and the selection. Filtering is by category and by a case-insensitive substring of the description. Next and previous step through the filtered list cyclically, with JavaScript's truncating `%`.

`Scenario` ties the parts together. A pending volunteer signs in, is held on the pending screen, is approved in the store, and reaches the dashboard after the refresh window. This holds under the corrected public check; see Findings.

Four behaviours of the code are worth stating up front (the model follows the code):
- The gate matches the first prefix in list order, not the longest prefix.
- There is no "Deny" outcome. Missing or unknown role/status values are let through unless a role gate applies.
- The `authenticated` list is declared but never consulted.
- A PENDING user is let through on any `pending` prefix, including `/dashboard/profile`, or under `/pending-approval`.

External collaborators become values or parameters:
- The user store (`prisma.user.findUnique`) is a record of two maps, by id and by e-mail, plus a `reachable` flag. An unreachable store models a lookup that throws.
- `comparePasswords` is a function parameter.
- `new URL(s).origin` is a function parameter that returns `None` where the constructor throws.
- `toLowerCase` is a function parameter.
- The clock (`Date.now()`) is an `int` parameter.
- The environment is an `Env` record of optional strings.

## Model

| member | source | states |
|---|---|---|
| RouteGate.AnyStartsWithIff | middleware.ts:59 | `routes.some(r => path.startsWith(r))` holds exactly when some listed prefix starts the path |
| RouteGate.Gate | middleware.ts:63-133 | every outcome is Allow or a redirect to one of the five fixed pages; `callbackUrl` is set only on the sign-in redirect, which only a missing token causes, and it is exactly the requested path |
| RouteGate.PublicShortCircuit | middleware.ts:58-61 | a path with a public prefix is let through whatever the token; a tokenless request is let through exactly when the path is public |
| RouteGate.EveryRootedPathIsPublic | middleware.ts:8-61 | with the shipped table, "/" is a public prefix, so every pathname that begins with "/" is let through before the token is read |
| RouteGate.MissingTokenGoesToSignIn | middleware.ts:70-75 | a non-public request without a token is redirected to `/auth/signin` with `callbackUrl` equal to the pathname |
| RouteGate.PendingGate | middleware.ts:80-93 | a PENDING account is let through exactly on a pending prefix or under `/pending-approval`, and otherwise redirected to `/pending-approval`; role is not consulted |
| RouteGate.RejectedGate | middleware.ts:95-102 | a REJECTED account is let through exactly on `/auth/rejected` and otherwise redirected there |
| RouteGate.SuspendedGate | middleware.ts:104-111 | a SUSPENDED or INACTIVE account is let through exactly on `/auth/suspended` and otherwise redirected there |
| RouteGate.StatusBeforeRole | middleware.ts:77-111 | for the four gated statuses, the outcome is the same whatever the role, so a suspended admin is treated as suspended |
| RouteGate.RoleGates | middleware.ts:113-133 | for any other status (ACTIVE, unknown or missing), Allow holds iff the request is none of these three, each of which goes to `/dashboard`: an ACTIVE user on the pending screen, a non-admin on an admin prefix, a volunteer on a staff prefix |
| RouteGate.GateNoLoop | middleware.ts:80-133 | if `/dashboard` is neither an admin nor a staff path, following any redirect except the one to sign-in, with the same token, lands on a page the gate lets through |
| RouteGate.DashboardIsNotPrivileged | middleware.ts:10-27 | no shipped admin or staff prefix covers `/dashboard` |
| RouteGate.NoRedirectLoop | middleware.ts:6-133 | with the shipped table and the corrected public check, requesting any redirect target again with the same token is let through |
| RouteGate.FixedPublicPaths | middleware.ts:8 | under the corrected check, the only public paths are "/" itself and paths under "/auth/" |
| RouteGate.AnonymousDashboardRequest | middleware.ts:8-75 | as written, an anonymous request for `/dashboard` is let through; corrected, it is sent to sign-in with `callbackUrl=/dashboard` |
| RouteGate.FixedGuardsProtectedPaths | middleware.ts:8-75 | under the corrected check, every `/dashboard` or `/admin` path goes through the token, status and role gates, and without a token to sign-in |
| AuthConfig.AuthUrl | lib/auth.ts:47-53 | the base URL is never empty and is always the local fallback, the https platform URL, AUTH_URL or NEXTAUTH_URL |
| AuthConfig.AuthUrlPriority | lib/auth.ts:47-53 | priority order: development, then VERCEL_URL, then AUTH_URL, then NEXTAUTH_URL, then `http://localhost:3000`; each applies exactly when the earlier ones do not |
| AuthConfig.Secret | lib/auth.ts:73 | AUTH_SECRET when it is set and non-empty, NEXTAUTH_SECRET otherwise |
| AuthConfig.SessionCookieFlags | lib/auth.ts:113-118 | `secure` holds iff the build is production and the host is not local; `sameSite` is "none" exactly then, and "lax" otherwise |
| AuthConfig.SecureCookiesNeedDeployment | lib/auth.ts:38-44 | secure cookies need VERCEL set and a production build, and such a deployment is never local development; without VERCEL the flags are always (false, "lax") |
| Accounts.FindById | lib/auth.ts:191-202 | a lookup by id throws exactly when the store is unreachable, and finds the row filed under the id otherwise |
| Accounts.FindByEmail | lib/auth.ts:398-400 | a lookup by e-mail throws exactly when the store is unreachable, and finds the row filed under the e-mail otherwise |
| Accounts.RefreshedNameFallsBack | lib/auth.ts:209 | the refreshed name is the stored name if set; a user with no name columns gets the e-mail; an empty result implies an empty e-mail |
| Accounts.RefreshedNameUsesFirstName | lib/auth.ts:209 | a first name with a visible character yields the trimmed full name, never the e-mail |
| Accounts.SignInNameRendersNull | lib/auth.ts:423 | a user without name columns signs in as "null null", because the template renders null, yet is refreshed to the e-mail |
| Strings.ContainsAt | lib/auth.ts:41 | `includes` holds exactly when the substring occurs at some position |
| Strings.Trim | lib/auth.ts:209 | the trimmed string is a contiguous slice of the input with no white space at either end, and everything dropped before and after it is white space |
| Strings.Or | lib/auth.ts:73 | `a \|\| b` on optional strings yields a truthy value exactly when either operand is truthy, preferring `a` |
| TokenLifecycle.Issue | lib/auth.ts:168-176 | at sign-in, id, role, status, e-mail and name come from the user and `lastRefresh` is `now`; without a user the token is untouched |
| TokenLifecycle.RefreshEffect | lib/auth.ts:183-212 | the claims change only when a refresh is due and the token has an id; a found row then supplies id, e-mail, role, status and name, and `lastRefresh := now` |
| TokenLifecycle.RefreshFailSoft | lib/auth.ts:189-216 | a missing user or a throwing store leaves the claims exactly as they were |
| TokenLifecycle.RefreshSchedule | lib/auth.ts:183-187 | without an update trigger, claims six minutes old are due for a re-read and claims one minute old are not |
| TokenLifecycle.SignInDoesNotReread | lib/auth.ts:168-189 | right after sign-in, with no update trigger and a non-zero clock, the store is not read again |
| TokenLifecycle.StalenessBound | lib/auth.ts:166-220 | whenever the store can find the user the token names, the claims leaving the callback were read at most five minutes ago |
| TokenLifecycle.RefreshIdempotent | lib/auth.ts:189-212 | if the store files each row under its own id, a second refresh at the same instant changes nothing |
| TokenLifecycle.Token.Jwt | lib/auth.ts:166-220 | the in-place field updates leave the token equal to `JwtStep` of its old claims |
| SessionView.Project | lib/auth.ts:221-234 | the session takes id, role, status and e-mail from the token; its name is the token's name when that is set and "User" otherwise, so never empty |
| SessionView.SessionCallback | lib/auth.ts:221-234 | when the session has a user, the callback writes the token's projection into it; otherwise the session is unchanged |
| SessionView.ServerSessionEffect | lib/auth.ts:456-495 | the result is a session exactly when the session names a user id. The id never changes and a complete session comes back untouched. An incomplete one is filled with role, status, e-mail and name from a found row, and is left alone on a miss or a throw |
| SessionView.CompleteIdempotent | lib/auth.ts:464-492 | completing a session twice against the same store is the same as once |
| SessionView.GetServerSession | lib/auth.ts:456-495 | returns `null`, leaving the session's user untouched, when there is no user id; otherwise returns the same session object with `session.user` holding the completed view |
| AuthCallbacks.LoginDestination | lib/auth.ts:320-337 | a logged-in visitor of the sign-in page is sent by status: PENDING to `/pending-approval`, SUSPENDED or INACTIVE to `/auth/suspended`, REJECTED to `/auth/rejected`, and ACTIVE or any other status to `/dashboard` |
| AuthCallbacks.AuthorizedProtected | lib/auth.ts:277-315 | on `/dashboard*` or `/admin*`, access is granted iff the user is logged in with a role and status ACTIVE. Anonymous users and users missing role or status get `false`. SUSPENDED/INACTIVE, REJECTED and PENDING-on-dashboard are redirected. PENDING on `/admin` gets `false` |
| AuthCallbacks.AuthorizedIgnoresRoleValue | lib/auth.ts:260-315 | `authorized` only checks that a role is present: any two present roles give the same verdict |
| AuthCallbacks.AuthorizedElsewhere | lib/auth.ts:316-341 | a logged-in visitor of `/login` or `/auth/signin` is redirected by status; every other unprotected request gets `true` |
| AuthCallbacks.AuthorizedSettles | lib/auth.ts:290-337 | with a role and one of the five known statuses, following a redirect of `authorized` reaches a page it permits |
| AuthCallbacks.UnknownStatusBouncesFromLogin | lib/auth.ts:312-337 | a logged-in user with an unknown status is sent from `/login` to `/dashboard`, where the same user gets `false` |
| AuthCallbacks.ResolveRedirect | lib/auth.ts:344-370 | a URL starting with "/" resolves to `baseUrl + url`; any other URL resolves to itself or to the base URL |
| AuthCallbacks.RedirectStaysOnOrigin | lib/auth.ts:354-369 | an absolute URL is kept exactly when it and the base parse to the same origin; a cross-origin or unparseable URL falls back to the base, so the result never has a foreign origin |
| AuthCallbacks.RedirectExamples | lib/auth.ts:347-369 | `/dashboard` against `https://app.example.com` gives `https://app.example.com/dashboard`; `https://evil.example.com/x` gives the base URL |
| AuthCallbacks.SignInOutsideLocal | lib/auth.ts:242-258 | outside local development, OAuth sign-ins are accepted; a credentials sign-in is accepted iff a user was verified; a sign-in without a provider is refused |
| AuthCallbacks.SignInLocal | lib/auth.ts:236-240 | in local development every sign-in is accepted |
| AuthCallbacks.AuthorizeExactly | lib/auth.ts:387-431 | `authorize` succeeds exactly when both fields are given, the row is found with a stored hash and the hash matches; it then returns the row's id, e-mail, role and status with the derived name |
| AuthCallbacks.AuthorizeHidesCause | lib/auth.ts:388-415 | an unknown e-mail and a wrong password give the same `null` |
| AuthCallbacks.CredentialsSignInNeedsVerification | lib/auth.ts:251-255 | outside local development, a credentials sign-in passes `signIn` exactly when `authorize` verified the credentials |
| Scenario.ApprovalJourney | middleware.ts:71-133 | under the corrected check, the pending-volunteer journey holds: anonymous goes to sign-in, a signed-in PENDING user goes to `/pending-approval`, and after approval in the store and the refresh window the user is let through |
| Gallery.Filter | app/gallery/page.tsx:135-141 | `.filter` keeps every occurrence of each element that passes and drops every one that does not, so the result never lengthens the list |
| Gallery.FilterIsSubsequence | app/gallery/page.tsx:134-142 | a filter keeps the order: its result is a subsequence of its input |
| Gallery.FilterTwice | app/gallery/page.tsx:134-141 | the category filter followed by the search filter is one filter by both conditions |
| Gallery.Unfiltered | app/gallery/page.tsx:132-144 | with category "all" and an empty query, the filtered list is the full list |
| Gallery.FilterImagesSound | app/gallery/page.tsx:131-145 | the filtered list is an order-preserving subsequence of the images. It holds exactly the images of the chosen category (unless "all") whose lower-cased description contains the lower-cased query (unless the query is empty) |
| Gallery.FindIndex | app/gallery/page.tsx:149 | `findIndex` returns the first position with the id, or -1 exactly when no element has it |
| Gallery.JsRem | app/gallery/page.tsx:150-157 | JavaScript's `%` has the dividend's sign and the divisor's bound; it is the remainder of the magnitude, negated for a negative dividend |
| Gallery.NextIndex | app/gallery/page.tsx:150 | the next index is in bounds, wraps from the last position to 0, and otherwise advances by one |
| Gallery.PreviousIndex | app/gallery/page.tsx:157 | the previous index is in bounds and wraps from 0 to the last position. A selection that is not found maps to the second-to-last position, or to 0 for a single image |
| Gallery.FindIndexOfDistinct | app/gallery/page.tsx:149 | with distinct ids, an image is found at its own position |
| Gallery.StepAt | app/gallery/page.tsx:147-159 | with distinct ids, next selects the following image cyclically and previous the preceding one |
| Gallery.NavigationRoundTrip | app/gallery/page.tsx:147-159 | with distinct ids, previous undoes next and next undoes previous |
| Gallery.FilteredOutSelection | app/gallery/page.tsx:147-159 | when the selection is not in the filtered list, next selects the first image and previous the second-to-last; an empty list clears the selection |
| Gallery.GalleryState.constructor | app/gallery/page.tsx:126-129 | the page starts with category "all", an empty query, the full list and no selection |
| Gallery.GalleryState.SetCategory | app/gallery/page.tsx:131-145 | choosing a category re-filters and keeps the filtered list consistent with the inputs |
| Gallery.GalleryState.SetQuery | app/gallery/page.tsx:131-145 | typing a query re-filters and keeps the filtered list consistent with the inputs |
| Gallery.GalleryState.Refilter | app/gallery/page.tsx:131-145 | the chain of `.filter` calls leaves `filtered` equal to the filtered list of the current inputs |
| Gallery.GalleryState.Select | app/gallery/page.tsx:230 | clicking an image selects it |
| Gallery.GalleryState.Close | app/gallery/page.tsx:243 | closing the lightbox clears the selection |
| Gallery.GalleryState.Next | app/gallery/page.tsx:147-152 | `handleNext` leaves the selection equal to `NextSelection` of the old one |
| Gallery.GalleryState.Previous | app/gallery/page.tsx:154-159 | `handlePrevious` leaves the selection equal to `PreviousSelection` of the old one |

## Findings

| source | as written | input that shows it | evidently intended | confidence | as-written member | corrected member |
|---|---|---|---|---|---|---|
| middleware.ts:8 | "/" is in the public list, and the list is matched with `startsWith` (middleware.ts:59). Every pathname begins with "/", so every request is public and the token, status and role gates are never reached | pathname `/dashboard` with no token is let through instead of being sent to `/auth/signin` | "/" is public as the home page only; `/dashboard` and `/admin` paths go through the token, status and role gates | high (not executed) | RouteGate.EveryRootedPathIsPublic | RouteGate.FixedGuardsProtectedPaths |

`RouteGate.Middleware` is the gate as written. `RouteGate.MiddlewareFixed` matches "/" exactly and keeps every other entry as a prefix. Both share `RouteGate.Gate`. So the status, role and no-loop lemmas apply to the corrected gate, and `RouteGate.AnonymousDashboardRequest` shows the two disagreeing on one input.

## Left out

- Token signatures and JWT decoding (`getToken`, NextAuth internals) are left out. The gate receives the already-verified claims or nothing.
- Database I/O, `bcrypt` and `new URL` parsing are left out. They are the store value, `passwordMatches` and `origin` parameters. A `comparePasswords` that throws is not modelled separately; it yields the same `null` as a mismatch.
- `process.env` and `Date.now()` are passed in as `Env` and `now`.
- TokenLifecycle.JwtStep: reads the clock once per callback. The source reads `Date.now()` up to three times (lib/auth.ts:175, 187, 210), and the model uses one `now` for all three. So the model does not capture the few milliseconds that can pass between those reads.
- All logging, the `logger` block with its CSRF message handling, and the `events` handlers are left out. They only print.
- The cookie names, `path`, `domain` and `maxAge`, the security response headers and the `matcher` regex are left out. They are literal configuration beyond the `secure`/`sameSite` derivation.
- The provider objects, the `NextAuth(...)` export, `auth()` and the framework's handling of a `false` verdict are left out. They belong to the framework.
- The `account` argument of `jwt` is left out. It is only logged.
- Asynchrony is not modelled: every callback is one sequential step.
- The gallery's 16 images with randomly chosen categories are left out, since `Math.random` is not modelled. `GalleryState` takes the image list as a constructor argument.
- The gallery's rendering and the Lightbox are left out.
- Strings.IsWhitespace: covers the ASCII white space, the no-break space and the byte-order mark only, not every Unicode space `trim` removes.
- Gallery.GalleryState.SetCategory: re-runs the filter effect in the same step as the state change, whereas React runs it after the next render.
- Gallery.GalleryState.SetQuery: same as `SetCategory`.
