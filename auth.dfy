// The sign-in store (`AuthProvider`): at most one current user, checked
// against a fixed two-row credential table, with a copy of the session kept in
// sessionStorage. The storage is modelled as the field `stored`; reading it on
// mount becomes the constructor's argument, and JSON encoding is not modelled.

module Auth {
  import opened Wrappers

  datatype Role = AzStaff | ClubAdmin

  /** The signed-in user; `clubId` is present for club administrators. */
  datatype AuthUser = AuthUser(username: string, role: Role, clubId: Option<string>)

  /** One row of `mockUsers`. */
  datatype Credential = Credential(username: string, password: string, role: Role, clubId: Option<string>)

  const MockUsers: seq<Credential> := [
    Credential("admin", "admin123", AzStaff, None),
    Credential("uif-admin", "uif123", ClubAdmin, Some("uif"))
  ]

  /** `mockUsers.find(...)`: the first row with exactly this username and password. */
  function FindCredential(rows: seq<Credential>, username: string, password: string): (r: Option<Credential>)
    ensures r.None? <==>
            forall i :: 0 <= i < |rows| ==> !(rows[i].username == username && rows[i].password == password)
    ensures r.Some? ==> r.value in rows && r.value.username == username && r.value.password == password
  {
    if rows == [] then None
    else if rows[0].username == username && rows[0].password == password then Some(rows[0])
    else FindCredential(rows[1..], username, password)
  }

  /** The user a successful `login` sets: the row without its password. For a row of the
      table, the user has a club exactly when it is a club administrator, and its username
      with the row's password signs in as that very row. */
  function UserOf(c: Credential): (u: AuthUser)
    ensures u.username == c.username && u.role == c.role && u.clubId == c.clubId
    ensures c in MockUsers ==> (u.clubId.Some? <==> u.role == ClubAdmin)
    ensures c in MockUsers ==> FindCredential(MockUsers, u.username, c.password) == Some(c)
  {
    AuthUser(c.username, c.role, c.clubId)
  }

  /** The current user and the session copy. */
  datatype Session = Session(user: Option<AuthUser>, stored: Option<AuthUser>)

  /** The value `login` returns. */
  predicate LoginSucceeds(username: string, password: string)
  {
    FindCredential(MockUsers, username, password).Some?
  }

  /** The session after `login(username, password)`. */
  function AfterLogin(s: Session, username: string, password: string): Session
  {
    var found := FindCredential(MockUsers, username, password);
    if found.Some? then Session(Some(UserOf(found.value)), Some(UserOf(found.value))) else s
  }

  /** The session after `logout`. */
  function AfterLogout(s: Session): (r: Session)
    ensures r.user.None? && r.stored.None?
  {
    Session(None, None)
  }

  class AuthStore {
    var user: Option<AuthUser>
    var stored: Option<AuthUser>

    function Current(): Session
      reads this
    {
      Session(user, stored)
    }

    /** Mounting the provider: the user is whatever session copy was saved. */
    constructor(saved: Option<AuthUser>)
      ensures user == saved && stored == saved
    {
      user := saved;
      stored := saved;
    }

    method Login(username: string, password: string) returns (ok: bool)
      modifies this
      ensures ok == LoginSucceeds(username, password)
      ensures Current() == AfterLogin(old(Current()), username, password)
    {
      var found := FindCredential(MockUsers, username, password);
      if found.Some? {
        var authUser := UserOf(found.value);
        user := Some(authUser);
        stored := Some(authUser);
        return true;
      }
      return false;
    }

    method Logout()
      modifies this
      ensures Current() == AfterLogout(old(Current()))
    {
      user := None;
      stored := None;
    }
  }

  // ---------------------------------------------------------------------------
  // Properties

  /** `login` succeeds exactly when some row matches both the username and the password. */
  lemma LoginSucceedsIff(username: string, password: string)
    ensures LoginSucceeds(username, password) <==>
            exists i :: 0 <= i < |MockUsers| &&
              MockUsers[i].username == username && MockUsers[i].password == password
  {
    if !LoginSucceeds(username, password) {
      assert forall i :: 0 <= i < |MockUsers| ==>
        !(MockUsers[i].username == username && MockUsers[i].password == password);
    }
  }

  /** The two accounts: staff without a club, and the club administrator of "uif". A wrong
      password fails. */
  lemma KnownAccounts(s: Session)
    ensures AfterLogin(s, "admin", "admin123").user == Some(AuthUser("admin", AzStaff, None))
    ensures AfterLogin(s, "uif-admin", "uif123").user == Some(AuthUser("uif-admin", ClubAdmin, Some("uif")))
    ensures !LoginSucceeds("admin", "wrong") && !LoginSucceeds("uif-admin", "admin123")
  {
  }

  /** Every user that `login` can set has a club exactly when it is a club administrator. */
  lemma ClubIdIffClubAdmin(s: Session, username: string, password: string)
    requires LoginSucceeds(username, password)
    ensures var u := AfterLogin(s, username, password).user;
      u.Some? && (u.value.clubId.Some? <==> u.value.role == ClubAdmin)
  {
    var c := FindCredential(MockUsers, username, password).value;
    assert c == MockUsers[0] || c == MockUsers[1];
  }

  /** On success the session copy is the new current user, whatever the session was before. */
  lemma SuccessStoresUser(s: Session, username: string, password: string)
    requires LoginSucceeds(username, password)
    ensures AfterLogin(s, username, password).stored == AfterLogin(s, username, password).user
    ensures AfterLogin(s, username, password).user.Some?
    ensures AfterLogin(s, username, password).user.value.username == username
  {
  }

  /** A failed login changes neither the user nor the copy: it does not sign anyone out. */
  lemma FailureKeepsSession(s: Session, username: string, password: string)
    requires !LoginSucceeds(username, password)
    ensures AfterLogin(s, username, password) == s
  {
  }

  /** Logging in twice with the same credentials is logging in once. */
  lemma LoginIdempotent(s: Session, username: string, password: string)
    ensures AfterLogin(AfterLogin(s, username, password), username, password) == AfterLogin(s, username, password)
  {
  }

  /** After logging out nobody is signed in, and logging out again changes nothing. */
  lemma LogoutClears(s: Session)
    ensures AfterLogout(s) == Session(None, None)
    ensures AfterLogout(AfterLogout(s)) == AfterLogout(s)
  {
  }

  /** A fresh provider with no saved copy and a wrong password stays signed out. */
  method SignInAttempt() returns (ok: bool, store: AuthStore)
    ensures !ok && store.user.None? && store.stored.None?
  {
    store := new AuthStore(None);
    ok := store.Login("admin", "wrong");
  }
}
