/** The token lifecycle in client storage: `login`, `register`, `logout`,
    `refreshToken`, `getCurrentUser` and `isAuthenticated`. The browser's
    `localStorage` is a string-to-string map and `window.location.href` a
    string, both fields of `Browser`; the server's reply to each request is a
    parameter, so success and failure are both covered. */
module AuthActions {
  import opened Wrappers

  const TokenKey := "token"
  const RefreshKey := "refreshToken"
  const UserKey := "user"
  const LoginPage := "/auth/login"
  const NoRefreshToken := "No refresh token"

  /** The body of a successful login or registration reply. The user record is
      carried as the JSON text that is written to storage. */
  datatype AuthResponse = AuthResponse(access: string, refresh: string, userJson: string)

  /** `localStorage.getItem(key)` read as a JavaScript condition: missing and
      empty values are both falsy. */
  predicate Truthy(storage: map<string, string>, key: string) {
    key in storage && storage[key] != ""
  }

  /** The three writes of a successful login or registration. */
  function SessionStored(storage: map<string, string>, response: AuthResponse): (r: map<string, string>)
    ensures r.Keys == storage.Keys + {TokenKey, RefreshKey, UserKey}
    ensures r[TokenKey] == response.access && r[RefreshKey] == response.refresh
    ensures r[UserKey] == response.userJson
    ensures forall k | k in storage && k !in {TokenKey, RefreshKey, UserKey} :: r[k] == storage[k]
  {
    storage[TokenKey := response.access][RefreshKey := response.refresh][UserKey := response.userJson]
  }

  /** The three removals of `logout`. */
  function SessionRemoved(storage: map<string, string>): (r: map<string, string>)
    ensures r.Keys == storage.Keys - {TokenKey, RefreshKey, UserKey}
    ensures forall k | k in r :: r[k] == storage[k]
  {
    storage - {TokenKey, RefreshKey, UserKey}
  }

  /** `getCurrentUser`: the stored user text, or null when it is missing or empty. */
  function GetCurrentUser(storage: map<string, string>): (r: Option<string>)
    ensures r.None? <==> !Truthy(storage, UserKey)
    ensures r.Some? ==> r.value == storage[UserKey]
  {
    if Truthy(storage, UserKey) then Some(storage[UserKey]) else None
  }

  /** `isAuthenticated`: a non-empty access token is stored. */
  function IsAuthenticated(storage: map<string, string>): (r: bool)
    ensures r <==> TokenKey in storage && storage[TokenKey] != ""
  {
    Truthy(storage, TokenKey)
  }

  /** After a successful login the client counts as authenticated exactly when
      the issued access token is non-empty, and the stored user is the one
      returned by the server when its text is non-empty. */
  lemma LoginAuthenticates(storage: map<string, string>, response: AuthResponse)
    ensures IsAuthenticated(SessionStored(storage, response)) <==> response.access != ""
    ensures response.userJson != "" ==> GetCurrentUser(SessionStored(storage, response)) == Some(response.userJson)
  {
  }

  /** After logout nothing of the session is left in storage. */
  lemma LogoutForgetsSession(storage: map<string, string>)
    ensures !IsAuthenticated(SessionRemoved(storage))
    ensures GetCurrentUser(SessionRemoved(storage)).None?
    ensures RefreshKey !in SessionRemoved(storage)
  {
  }

  /** Logging out after logging in removes everything the login wrote and
      keeps every other key. */
  lemma LoginThenLogout(storage: map<string, string>, response: AuthResponse)
    ensures SessionRemoved(SessionStored(storage, response)) == SessionRemoved(storage)
  {
  }

  class Browser {
    var storage: map<string, string>
    var location: string

    constructor (storage: map<string, string>, location: string)
      ensures this.storage == storage && this.location == location
    {
      this.storage := storage;
      this.location := location;
    }
  }

  /** The shared body of `login` and `register`: posts to `path`, and on
      success stores the access token, the refresh token and the user and
      returns the reply; a rejected request propagates its error and writes
      nothing. */
  method PostAndStore(b: Browser, path: string, reply: Result<AuthResponse, string>)
    returns (r: Result<AuthResponse, string>, posted: string)
    modifies b
    ensures r == reply && posted == path
    ensures reply.Ok? ==> b.storage == SessionStored(old(b.storage), reply.value)
    ensures reply.Err? ==> b.storage == old(b.storage)
    ensures b.location == old(b.location)
  {
    posted := path;
    if reply.Err? {
      return reply, posted;
    }
    b.storage := b.storage[TokenKey := reply.value.access];
    b.storage := b.storage[RefreshKey := reply.value.refresh];
    b.storage := b.storage[UserKey := reply.value.userJson];
    r := reply;
  }

  /** `login`: posts the credentials to "auth/login/" and stores the session. */
  method Login(b: Browser, reply: Result<AuthResponse, string>) returns (r: Result<AuthResponse, string>, posted: string)
    modifies b
    ensures r == reply && posted == "auth/login/"
    ensures reply.Ok? ==> b.storage == SessionStored(old(b.storage), reply.value)
    ensures reply.Err? ==> b.storage == old(b.storage)
    ensures b.location == old(b.location)
  {
    r, posted := PostAndStore(b, "auth/login/", reply);
  }

  /** `register`: posts the details to "auth/register/" and stores the session
      exactly as `login` does. */
  method Register(b: Browser, reply: Result<AuthResponse, string>) returns (r: Result<AuthResponse, string>, posted: string)
    modifies b
    ensures r == reply && posted == "auth/register/"
    ensures reply.Ok? ==> b.storage == SessionStored(old(b.storage), reply.value)
    ensures reply.Err? ==> b.storage == old(b.storage)
    ensures b.location == old(b.location)
  {
    r, posted := PostAndStore(b, "auth/register/", reply);
  }

  /** `logout`: sends the stored refresh token (null when missing); then, in a
      `finally` block, removes the three keys and redirects to the login page
      whether or not the request succeeded. There is no `catch`, so a server
      error is still raised to the caller. */
  method Logout(b: Browser, reply: Result<(), string>) returns (r: Result<(), string>, sentRefresh: Option<string>)
    modifies b
    ensures sentRefresh == (if RefreshKey in old(b.storage) then Some(old(b.storage)[RefreshKey]) else None)
    ensures b.storage == SessionRemoved(old(b.storage))
    ensures b.location == LoginPage
    ensures r == reply
  {
    sentRefresh := if RefreshKey in b.storage then Some(b.storage[RefreshKey]) else None;
    r := reply;
    b.storage := b.storage - {TokenKey};
    b.storage := b.storage - {RefreshKey};
    b.storage := b.storage - {UserKey};
    b.location := LoginPage;
  }

  /** `refreshToken`: fails with "No refresh token" before any request when no
      (or an empty) refresh token is stored; otherwise posts it, and on success
      overwrites only the access token and returns the new one. `called` tells
      whether a request was sent. */
  method RefreshToken(b: Browser, reply: Result<string, string>) returns (r: Result<string, string>, called: bool)
    modifies b
    ensures !Truthy(old(b.storage), RefreshKey) ==>
      r == Err(NoRefreshToken) && !called && b.storage == old(b.storage)
    ensures Truthy(old(b.storage), RefreshKey) ==> called && r == reply
    ensures Truthy(old(b.storage), RefreshKey) && reply.Ok? ==>
      b.storage == old(b.storage)[TokenKey := reply.value]
    ensures reply.Err? ==> b.storage == old(b.storage)
    ensures b.location == old(b.location)
  {
    if !(RefreshKey in b.storage && b.storage[RefreshKey] != "") {
      return Err(NoRefreshToken), false;
    }
    called := true;
    if reply.Err? {
      return reply, called;
    }
    b.storage := b.storage[TokenKey := reply.value];
    r := reply;
  }

  /** A successful refresh keeps the refresh token and the user, and leaves the
      client authenticated exactly when the new token is non-empty. */
  lemma RefreshKeepsSession(storage: map<string, string>, access: string)
    requires Truthy(storage, RefreshKey)
    ensures storage[TokenKey := access][RefreshKey] == storage[RefreshKey]
    ensures GetCurrentUser(storage[TokenKey := access]) == GetCurrentUser(storage)
    ensures IsAuthenticated(storage[TokenKey := access]) <==> access != ""
  {
  }
}
