/**
 * The user records the authorization code reads, the user store it reads
 * them from, and the display-name rules it applies to them. The store is an
 * external collaborator (a database); here it is a value: the records it
 * would return by id and by e-mail, and whether it can be reached at all
 * (an unreachable store is a lookup that throws).
 */
module Accounts {
  import opened Wrappers
  import opened Strings

  // Account lifecycle states as the store spells them.
  const PENDING := "PENDING"
  const ACTIVE := "ACTIVE"
  const SUSPENDED := "SUSPENDED"
  const INACTIVE := "INACTIVE"
  const REJECTED := "REJECTED"

  // Permission tiers as the store spells them.
  const VOLUNTEER := "VOLUNTEER"
  const STAFF := "STAFF"
  const ADMIN := "ADMIN"
  const SUPER_ADMIN := "SUPER_ADMIN"

  /** A user row. `password` is the stored hash, absent for OAuth-only accounts. */
  datatype StoredUser = StoredUser(
    id: string,
    email: string,
    password: Option<string>,
    name: Option<string>,
    firstName: Option<string>,
    lastName: Option<string>,
    role: string,
    status: string)

  datatype UserStore = UserStore(
    byId: map<string, StoredUser>,
    byEmail: map<string, StoredUser>,
    reachable: bool)

  /** What a `findUnique` call yields: a row, `null`, or an exception. */
  datatype Lookup = Found(user: StoredUser) | NotFound | Threw

  function FindById(store: UserStore, id: string): (r: Lookup)
    ensures r.Threw? <==> !store.reachable
    ensures r.Found? <==> store.reachable && id in store.byId
    ensures r.Found? ==> r.user == store.byId[id]
  {
    if !store.reachable then Threw
    else if id in store.byId then Found(store.byId[id])
    else NotFound
  }

  function FindByEmail(store: UserStore, email: string): (r: Lookup)
    ensures r.Threw? <==> !store.reachable
    ensures r.Found? <==> store.reachable && email in store.byEmail
    ensures r.Found? ==> r.user == store.byEmail[email]
  {
    if !store.reachable then Threw
    else if email in store.byEmail then Found(store.byEmail[email])
    else NotFound
  }

  /** Every row is filed under its own id. */
  predicate Consistent(store: UserStore) {
    forall k :: k in store.byId ==> store.byId[k].id == k
  }

  /**
   * The display name used when claims are refreshed and sessions completed:
   * `name || \`${firstName || ''} ${lastName || ''}\`.trim() || email`.
   */
  function RefreshedName(u: StoredUser): string {
    if Truthy(u.name) then u.name.value
    else
      var full := Trim(OrEmpty(u.firstName) + " " + OrEmpty(u.lastName));
      if full != "" then full else u.email
  }

  /** How a template literal renders a nullable column: `null` becomes "null". */
  function Interpolate(o: Option<string>): string {
    o.GetOr("null")
  }

  /**
   * The display name the credentials verifier returns:
   * `name || \`${firstName} ${lastName}\`.trim() || email`, without the
   * `|| ''` guards, so a missing first or last name is rendered "null".
   */
  function SignInName(u: StoredUser): string {
    if Truthy(u.name) then u.name.value
    else
      var full := Trim(Interpolate(u.firstName) + " " + Interpolate(u.lastName));
      if full != "" then full else u.email
  }

  /**
   * The refreshed name prefers, in order, the stored name, the trimmed full
   * name and the e-mail; a user with none of the name columns gets the e-mail.
   */
  lemma RefreshedNameFallsBack(u: StoredUser)
    ensures Truthy(u.name) ==> RefreshedName(u) == u.name.value
    ensures !Truthy(u.name) && u.firstName.None? && u.lastName.None? ==> RefreshedName(u) == u.email
    ensures RefreshedName(u) == "" ==> u.email == ""
  {
    if !Truthy(u.name) {
      var s := OrEmpty(u.firstName) + " " + OrEmpty(u.lastName);
      if u.firstName.None? && u.lastName.None? {
        assert s == " ";
        TrimBlank(s);
      }
    }
  }

  /**
   * Where the two name rules part: a user without name columns signs in as
   * "null null" but is refreshed to the e-mail address.
   */
  lemma SignInNameRendersNull(u: StoredUser)
    requires !Truthy(u.name) && u.firstName.None? && u.lastName.None?
    ensures SignInName(u) == "null null"
    ensures RefreshedName(u) == u.email
  {
    RefreshedNameFallsBack(u);
    var s := Interpolate(u.firstName) + " " + Interpolate(u.lastName);
    assert s == "null null";
    TrimUnchanged(s);
  }

  /** A first name with a visible character is used rather than the e-mail. */
  lemma RefreshedNameUsesFirstName(u: StoredUser, k: nat)
    requires !Truthy(u.name) && u.firstName.Some?
    requires k < |u.firstName.value| && !IsWhitespace(u.firstName.value[k])
    ensures RefreshedName(u) == Trim(u.firstName.value + " " + OrEmpty(u.lastName))
    ensures RefreshedName(u) != ""
  {
    var s := u.firstName.value + " " + OrEmpty(u.lastName);
    assert s[k] == u.firstName.value[k];
    TrimNotBlank(s, k);
  }
}
