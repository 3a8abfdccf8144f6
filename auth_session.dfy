/**
 * The authentication context: the token and the signed-in user, kept in
 * browser storage under "authToken" and "authUser" and restored from there
 * when the provider mounts. The user is held as its JSON text.
 */
module AuthSession {
  import opened Wrappers

  const TokenKey := "authToken"
  const UserKey := "authUser"

  /** Storage after `login`: both keys written, every other key as it was. */
  function SaveSession(storage: map<string, string>, token: string, user: string): (r: map<string, string>)
    ensures TokenKey in r && r[TokenKey] == token
    ensures UserKey in r && r[UserKey] == user
    ensures forall k :: k != TokenKey && k != UserKey ==> (k in r <==> k in storage)
    ensures forall k :: k in storage && k != TokenKey && k != UserKey ==> r[k] == storage[k]
  {
    storage[TokenKey := token][UserKey := user]
  }

  /** Storage after `logout`: both keys gone, every other key as it was. */
  function ClearSession(storage: map<string, string>): (r: map<string, string>)
    ensures TokenKey !in r && UserKey !in r
    ensures forall k :: k != TokenKey && k != UserKey ==> (k in r <==> k in storage)
    ensures forall k :: k in r ==> r[k] == storage[k]
  {
    storage - {TokenKey, UserKey}
  }

  /** A stored value counts only when present and non-empty (JavaScript truthiness of `getItem`). */
  predicate Truthy(v: Option<string>) {
    v.Some? && v.value != ""
  }

  function Get(storage: map<string, string>, key: string): Option<string> {
    if key in storage then Some(storage[key]) else None
  }

  /** What the mount effect restores: token and user, when both are stored and non-empty. */
  function Restored(storage: map<string, string>): (r: Option<(string, string)>)
    ensures r.Some? <==> Truthy(Get(storage, TokenKey)) && Truthy(Get(storage, UserKey))
    ensures r.Some? ==> r.value == (storage[TokenKey], storage[UserKey])
  {
    var token := Get(storage, TokenKey);
    var user := Get(storage, UserKey);
    if Truthy(token) && Truthy(user) then Some((token.value, user.value)) else None
  }

  /** A login with a non-empty token is restored, token and user alike, by the next mount. */
  lemma RestoreAfterLogin(storage: map<string, string>, token: string, user: string)
    requires token != "" && user != ""
    ensures Restored(SaveSession(storage, token, user)) == Some((token, user))
  {
  }

  /** After a logout the next mount restores nothing, whatever else is stored. */
  lemma RestoreAfterLogout(storage: map<string, string>)
    ensures Restored(ClearSession(storage)) == None
  {
  }

  /** A second logout changes nothing. */
  lemma LogoutIdempotent(storage: map<string, string>)
    ensures ClearSession(ClearSession(storage)) == ClearSession(storage)
  {
  }

  class AuthProvider {
    var storage: map<string, string>
    var token: Option<string>
    var user: Option<string>

    /** `isAuthenticated: !!token`. */
    predicate IsAuthenticated()
      reads this
    {
      Truthy(token)
    }

    /** The first render: both state fields null, storage as the browser has it. */
    constructor(storage: map<string, string>)
      ensures this.storage == storage && token == None && user == None
      ensures !IsAuthenticated()
    {
      this.storage := storage;
      token := None;
      user := None;
    }

    /** The mount effect: sets both fields from storage when both stored values are non-empty, otherwise leaves them. */
    method Restore()
      modifies this`token, this`user
      ensures Restored(storage).Some? ==> token == Some(Restored(storage).value.0) && user == Some(Restored(storage).value.1)
      ensures Restored(storage).None? ==> token == old(token) && user == old(user)
    {
      var storedToken := Get(storage, TokenKey);
      var storedUser := Get(storage, UserKey);
      if Truthy(storedToken) && Truthy(storedUser) {
        token := storedToken;
        user := storedUser;
      }
    }

    method Login(newToken: string, newUser: string)
      modifies this
      ensures storage == SaveSession(old(storage), newToken, newUser)
      ensures token == Some(newToken) && user == Some(newUser)
      ensures IsAuthenticated() <==> newToken != ""
    {
      storage := SaveSession(storage, newToken, newUser);
      token := Some(newToken);
      user := Some(newUser);
    }

    method Logout()
      modifies this
      ensures storage == ClearSession(old(storage))
      ensures token == None && user == None
      ensures !IsAuthenticated()
    {
      storage := ClearSession(storage);
      token := None;
      user := None;
    }
  }

  /**
   * A login, then a page reload (a new provider over the same storage, mounted):
   * the reloaded provider is signed in exactly when the first one was, and with
   * a non-empty token it holds the same token and user.
   */
  method LoginThenReload(storage: map<string, string>, token: string, user: string)
      returns (before: Option<string>, after: Option<string>, afterUser: Option<string>, signedIn: bool)
    requires user != ""
    ensures before == Some(token)
    ensures signedIn <==> token != ""
    ensures token != "" ==> after == Some(token) && afterUser == Some(user)
    ensures token == "" ==> after == None && afterUser == None
  {
    var first := new AuthProvider(storage);
    first.Restore();
    first.Login(token, user);
    before := first.token;
    var second := new AuthProvider(first.storage);
    second.Restore();
    after, afterUser := second.token, second.user;
    signedIn := second.IsAuthenticated();
    assert signedIn == first.IsAuthenticated();
  }

  /** A logout, then a reload: nothing is restored, and a second logout leaves storage as the first did. */
  method LogoutThenReload(storage: map<string, string>) returns (after: Option<string>, afterUser: Option<string>, same: bool)
    ensures after == None && afterUser == None
    ensures same
  {
    var first := new AuthProvider(storage);
    first.Restore();
    first.Logout();
    var once := first.storage;
    first.Logout();
    same := first.storage == once;
    LogoutIdempotent(once);
    var second := new AuthProvider(first.storage);
    second.Restore();
    after, afterUser := second.token, second.user;
  }
}
