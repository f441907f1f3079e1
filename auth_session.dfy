/**
 * The session materializer: the `session` callback, which copies the claim
 * set into the client-visible `session.user`, and `getServerSession`, which
 * fills a session whose role or status is missing from the user store.
 */
module SessionView {
  import opened Wrappers
  import opened Strings
  import opened Accounts
  import TokenLifecycle

  /** The fields of `session.user` the code writes. */
  datatype UserView = UserView(
    id: Option<string>,
    role: Option<string>,
    status: Option<string>,
    email: Option<string>,
    name: Option<string>)

  /**
   * The projection of the `session` callback: identity, role, status and
   * e-mail are the token's own, and the name is never empty ("User" when
   * the token has none).
   */
  function Project(t: TokenLifecycle.Claims): (v: UserView)
    ensures v.id == t.id && v.role == t.role && v.status == t.status && v.email == t.email
    ensures Truthy(v.name)
    ensures Truthy(t.name) ==> v.name == t.name
    ensures !Truthy(t.name) ==> v.name == Some("User")
  {
    UserView(t.id, t.role, t.status, t.email, if Truthy(t.name) then t.name else Some("User"))
  }

  /**
   * The gap filling of `getServerSession` for a session that names a user:
   * a session with role and status is left alone; otherwise a found row
   * supplies role, status, name and e-mail, and the id is kept.
   */
  function Complete(v: UserView, store: UserStore): UserView
    requires Truthy(v.id)
  {
    if Truthy(v.role) && Truthy(v.status) then v
    else
      match FindById(store, v.id.value)
      case Found(u) => UserView(v.id, Some(u.role), Some(u.status), Some(u.email), Some(RefreshedName(u)))
      case NotFound => v
      case Threw => v
  }

  /** `getServerSession`: no session, no user or no id gives `null`. */
  function ServerSession(v: Option<UserView>, store: UserStore): Option<UserView> {
    if v.None? || !Truthy(v.value.id) then None else Some(Complete(v.value, store))
  }

  /**
   * What `getServerSession` promises: a result exactly when the session
   * names a user; the id never changes; a complete session comes back
   * untouched; an incomplete one is filled from the store when the row is
   * found, and left as it was when the read misses or fails.
   */
  lemma ServerSessionEffect(v: Option<UserView>, store: UserStore)
    ensures ServerSession(v, store).Some? <==> v.Some? && Truthy(v.value.id)
    ensures ServerSession(v, store).Some? ==> ServerSession(v, store).value.id == v.value.id
    ensures v.Some? && Truthy(v.value.id) && Truthy(v.value.role) && Truthy(v.value.status)
      ==> ServerSession(v, store) == v
    ensures v.Some? && Truthy(v.value.id) && !(Truthy(v.value.role) && Truthy(v.value.status))
      ==> match FindById(store, v.value.id.value)
          case Found(u) =>
            var w := ServerSession(v, store).value;
            w.role == Some(u.role) && w.status == Some(u.status) && w.email == Some(u.email)
            && w.name == Some(RefreshedName(u))
          case NotFound => ServerSession(v, store) == v
          case Threw => ServerSession(v, store) == v
  {
  }

  /** Completing a session twice against the same store changes nothing more. */
  lemma {:induction false} CompleteIdempotent(v: UserView, store: UserStore)
    requires Truthy(v.id)
    ensures Complete(Complete(v, store), store) == Complete(v, store)
  {
    var w := Complete(v, store);
    assert w.id == v.id;
    if w != v && !(Truthy(w.role) && Truthy(w.status)) {
      var u := FindById(store, v.id.value).user;
      assert w == UserView(v.id, Some(u.role), Some(u.status), Some(u.email), Some(RefreshedName(u)));
    }
  }

  /** The mutable `session.user` object. */
  class SessionUser {
    var id: Option<string>
    var role: Option<string>
    var status: Option<string>
    var email: Option<string>
    var name: Option<string>

    function View(): UserView
      reads this
    {
      UserView(id, role, status, email, name)
    }

    constructor (v: UserView)
      ensures View() == v
    {
      id, role, status, email, name := v.id, v.role, v.status, v.email, v.name;
    }
  }

  /** A session; `user` is `null` when the session carries no user. */
  class Session {
    var user: SessionUser?

    constructor (user: SessionUser?)
      ensures this.user == user
    {
      this.user := user;
    }
  }

  /** The user view of a possibly absent session. */
  function ViewOf(session: Session?): Option<UserView>
    reads session, if session != null then {session.user} else {}
  {
    if session == null || session.user == null then None else Some(session.user.View())
  }

  /** `session({ session, token })`: writes the token's claims into `session.user` when both exist. */
  method SessionCallback(session: Session, token: Option<TokenLifecycle.Claims>) returns (r: Session)
    modifies session.user
    ensures r == session && session.user == old(session.user)
    ensures session.user != null && token.Some? ==> session.user.View() == Project(token.value)
    ensures session.user == null || token.None? ==> ViewOf(session) == old(ViewOf(session))
  {
    if session.user != null && token.Some? {
      var t := token.value;
      session.user.id := t.id;
      session.user.role := t.role;
      session.user.status := t.status;
      session.user.email := t.email;
      session.user.name := if Truthy(t.name) then t.name else Some("User");
    }
    r := session;
  }

  /** `getServerSession()`, given what `auth()` returned and the store. */
  method GetServerSession(session: Session?, store: UserStore) returns (r: Session?)
    modifies if session != null then {session.user} else {}
    ensures session != null ==> session.user == old(session.user)
    ensures ServerSession(old(ViewOf(session)), store).None? ==>
      r == null && ViewOf(session) == old(ViewOf(session))
    ensures ServerSession(old(ViewOf(session)), store).Some? ==>
      r == session && ViewOf(session) == ServerSession(old(ViewOf(session)), store)
  {
    if session == null || session.user == null || !Truthy(session.user.id) {
      return null;
    }
    var user := session.user;
    if !Truthy(user.role) || !Truthy(user.status) {
      var lookup := FindById(store, user.id.value);
      if lookup.Found? {
        var u := lookup.user;
        user.role := Some(u.role);
        user.status := Some(u.status);
        user.name := Some(RefreshedName(u));
        user.email := Some(u.email);
      }
    }
    r := session;
  }
}
