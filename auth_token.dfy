/**
 * The token issuer and refresher: the `jwt` callback of `lib/auth.ts`. At
 * sign-in it copies the verified user into the token; on every later
 * verification it re-reads the user from the store when a refresh is due
 * (an explicit "update" trigger, no usable refresh time, or more than five
 * minutes since the last one) and keeps the old claims when the read misses
 * or fails.
 */
module TokenLifecycle {
  import opened Wrappers
  import opened Strings
  import opened Accounts

  /** The user object the callback receives at sign-in. */
  datatype SignedInUser = SignedInUser(
    id: string,
    email: Option<string>,
    name: Option<string>,
    role: string,
    status: string)

  /** The claim set carried in the token; every claim may be absent. */
  datatype Claims = Claims(
    id: Option<string>,
    role: Option<string>,
    status: Option<string>,
    email: Option<string>,
    name: Option<string>,
    lastRefresh: Option<int>)

  /** Five minutes, in milliseconds. */
  const REFRESH_INTERVAL := 5 * 60 * 1000

  /** `trigger === 'update' || !token.lastRefresh || now - token.lastRefresh > 5 min`. */
  predicate RefreshDue(trigger: Option<string>, lastRefresh: Option<int>, now: int) {
    trigger == Some("update") || lastRefresh.None? || lastRefresh.value == 0
    || now - lastRefresh.value > REFRESH_INTERVAL
  }

  /** Issuance: a signed-in user overwrites identity, role, status and refresh time. */
  function Issue(c: Claims, user: Option<SignedInUser>, now: int): (r: Claims)
    ensures user.None? ==> r == c
    ensures user.Some? ==>
      && r.id == Some(user.value.id) && r.role == Some(user.value.role)
      && r.status == Some(user.value.status) && r.email == user.value.email
      && r.name == user.value.name && r.lastRefresh == Some(now)
  {
    match user
    case None => c
    case Some(u) => Claims(Some(u.id), Some(u.role), Some(u.status), u.email, u.name, Some(now))
  }

  /** The claims a found user row yields at time `now`. */
  function FromRow(u: StoredUser, now: int): Claims {
    Claims(Some(u.id), Some(u.role), Some(u.status), Some(u.email), Some(RefreshedName(u)), Some(now))
  }

  /** The refresh step: re-read the user when due, keep the claims when the read does not find it. */
  function Refresh(c: Claims, trigger: Option<string>, now: int, store: UserStore): Claims {
    if RefreshDue(trigger, c.lastRefresh, now) && Truthy(c.id) then
      match FindById(store, c.id.value)
      case Found(u) => FromRow(u, now)
      case NotFound => c
      case Threw => c
    else c
  }

  /** The whole callback: issuance, then the refresh step. */
  function JwtStep(c: Claims, user: Option<SignedInUser>, trigger: Option<string>, now: int, store: UserStore): Claims {
    Refresh(Issue(c, user, now), trigger, now, store)
  }

  /**
   * The store is consulted only when a refresh is due and the token names a
   * user; a successful read replaces every claim with the row's values and
   * stamps the refresh time.
   */
  lemma RefreshEffect(c: Claims, trigger: Option<string>, now: int, store: UserStore)
    ensures Refresh(c, trigger, now, store) != c ==> RefreshDue(trigger, c.lastRefresh, now) && Truthy(c.id)
    ensures RefreshDue(trigger, c.lastRefresh, now) && Truthy(c.id) && FindById(store, c.id.value).Found?
      ==> var u := FindById(store, c.id.value).user;
          var r := Refresh(c, trigger, now, store);
          && r.id == Some(u.id) && r.email == Some(u.email) && r.role == Some(u.role)
          && r.status == Some(u.status) && r.name == Some(RefreshedName(u)) && r.lastRefresh == Some(now)
  {
  }

  /** Fail-soft: a missing user or an unreachable store leaves the claims exactly as they were. */
  lemma RefreshFailSoft(c: Claims, trigger: Option<string>, now: int, store: UserStore)
    requires c.id.Some? ==> !FindById(store, c.id.value).Found?
    ensures Refresh(c, trigger, now, store) == c
  {
  }

  /**
   * The schedule: claims six minutes old are re-read, claims one minute old
   * are not (without an update trigger).
   */
  lemma RefreshSchedule(now: int)
    requires now >= 6 * 60 * 1000
    ensures RefreshDue(None, Some(now - 6 * 60 * 1000), now)
    ensures !RefreshDue(None, Some(now - 60 * 1000), now)
  {
  }

  /**
   * Right after sign-in (at any time but the epoch itself) no refresh is due
   * unless the caller asks for one, so the store is not read again.
   */
  lemma SignInDoesNotReread(c: Claims, u: SignedInUser, trigger: Option<string>, now: int, store: UserStore)
    requires now != 0 && trigger != Some("update")
    ensures JwtStep(c, Some(u), trigger, now, store) == Issue(c, Some(u), now)
  {
  }

  /**
   * Bounded staleness: whenever the store can find the user the token names,
   * the claims that leave the callback were read at most five minutes ago.
   */
  lemma {:induction false} StalenessBound(c: Claims, user: Option<SignedInUser>, trigger: Option<string>, now: int, store: UserStore)
    requires var i := Issue(c, user, now); Truthy(i.id) && FindById(store, i.id.value).Found?
    ensures var r := JwtStep(c, user, trigger, now, store);
      r.lastRefresh.Some? && now - r.lastRefresh.value <= REFRESH_INTERVAL
  {
    var i := Issue(c, user, now);
    if !RefreshDue(trigger, i.lastRefresh, now) {
      assert JwtStep(c, user, trigger, now, store) == i;
    }
  }

  /**
   * Concurrent refreshes converge: with a store that files each row under its
   * own id, a second callback at the same instant changes nothing more.
   */
  lemma {:induction false} RefreshIdempotent(c: Claims, trigger: Option<string>, now: int, store: UserStore)
    requires Consistent(store)
    ensures var once := Refresh(c, trigger, now, store);
      Refresh(once, trigger, now, store) == once
  {
    var once := Refresh(c, trigger, now, store);
    if once != c {
      var u := FindById(store, c.id.value).user;
      assert once == FromRow(u, now);
      assert u.id == c.id.value;
    }
  }

  /** The token object the callback updates in place. */
  class Token {
    var id: Option<string>
    var role: Option<string>
    var status: Option<string>
    var email: Option<string>
    var name: Option<string>
    var lastRefresh: Option<int>

    function Snapshot(): Claims
      reads this
    {
      Claims(id, role, status, email, name, lastRefresh)
    }

    constructor (c: Claims)
      ensures Snapshot() == c
    {
      id, role, status, email, name, lastRefresh := c.id, c.role, c.status, c.email, c.name, c.lastRefresh;
    }

    /** `jwt({ token, user, trigger })`, with the clock and the store passed in. */
    method Jwt(user: Option<SignedInUser>, trigger: Option<string>, now: int, store: UserStore)
      modifies this
      ensures Snapshot() == JwtStep(old(Snapshot()), user, trigger, now, store)
    {
      if user.Some? {
        var u := user.value;
        id := Some(u.id);
        role := Some(u.role);
        status := Some(u.status);
        email := u.email;
        name := u.name;
        lastRefresh := Some(now);
      }
      var shouldRefresh := trigger == Some("update") || lastRefresh.None? || lastRefresh.value == 0
        || now - lastRefresh.value > REFRESH_INTERVAL;
      if shouldRefresh && Truthy(id) {
        var lookup := FindById(store, id.value);
        if lookup.Found? {
          var u := lookup.user;
          id := Some(u.id);
          email := Some(u.email);
          role := Some(u.role);
          status := Some(u.status);
          name := Some(RefreshedName(u));
          lastRefresh := Some(now);
        }
      }
    }
  }
}
