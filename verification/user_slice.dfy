/** The client session state: the Redux slice `user` and its reducers. The
    store object is `UserStore`; each reducer is a method that overwrites some
    of the four fields, specified by a function on `SessionState` snapshots. */
module UserSlice {
  import opened Wrappers

  /** The profile record the slice stores. */
  datatype User = User(
    id: int,
    username: string,
    email: string,
    firstName: string,
    lastName: string,
    isAdmin: bool,
    userType: string)

  datatype SessionState = SessionState(
    user: Option<User>,
    isAuthenticated: bool,
    token: Option<string>,
    refreshToken: Option<string>)

  /** `initialState`: nobody logged in, no tokens. */
  const Initial := SessionState(None, false, None, None)

  /** `setAuth`: user and both tokens stored, authenticated. */
  function Authenticated(s: SessionState, user: User, token: string, refresh: string): (r: SessionState)
    ensures r.isAuthenticated && r.user == Some(user)
    ensures r.token == Some(token) && r.refreshToken == Some(refresh)
  {
    SessionState(Some(user), true, Some(token), Some(refresh))
  }

  /** `setUser`: user stored and flagged authenticated; tokens untouched. */
  function WithUser(s: SessionState, user: User): (r: SessionState)
    ensures r.isAuthenticated && r.user == Some(user)
    ensures r.token == s.token && r.refreshToken == s.refreshToken
  {
    s.(user := Some(user), isAuthenticated := true)
  }

  /** `setToken`: only the access token changes. */
  function WithToken(s: SessionState, token: string): (r: SessionState)
    ensures r.token == Some(token)
    ensures r.user == s.user && r.isAuthenticated == s.isAuthenticated && r.refreshToken == s.refreshToken
  {
    s.(token := Some(token))
  }

  /** `clearAuth`: every field back to its initial value. */
  function Cleared(s: SessionState): (r: SessionState)
    ensures r == Initial
  {
    SessionState(None, false, None, None)
  }

  /** `clearAuth` is idempotent. */
  lemma ClearIdempotent(s: SessionState)
    ensures Cleared(Cleared(s)) == Cleared(s)
  {
  }

  /** `setUser` on a fresh session yields an authenticated session without
      any access token: the flag is not derived from the token. */
  lemma AuthenticatedWithoutToken(user: User)
    ensures WithUser(Initial, user).isAuthenticated && WithUser(Initial, user).token.None?
  {
  }

  /** `setToken` after `setAuth` keeps the refresh token and user, and
      replaces only the access token. */
  lemma RefreshAfterAuth(s: SessionState, user: User, token: string, refresh: string, newToken: string)
    ensures WithToken(Authenticated(s, user, token, refresh), newToken) == Authenticated(s, user, newToken, refresh)
  {
  }

  class UserStore {
    var user: Option<User>
    var isAuthenticated: bool
    var token: Option<string>
    var refreshToken: Option<string>

    function Snapshot(): SessionState
      reads this
    {
      SessionState(user, isAuthenticated, token, refreshToken)
    }

    constructor ()
      ensures Snapshot() == Initial
    {
      user := None;
      isAuthenticated := false;
      token := None;
      refreshToken := None;
    }

    method SetAuth(u: User, access: string, refresh: string)
      modifies this
      ensures Snapshot() == Authenticated(old(Snapshot()), u, access, refresh)
    {
      user := Some(u);
      token := Some(access);
      refreshToken := Some(refresh);
      isAuthenticated := true;
    }

    method SetUser(u: User)
      modifies this
      ensures Snapshot() == WithUser(old(Snapshot()), u)
    {
      user := Some(u);
      isAuthenticated := true;
    }

    method SetToken(access: string)
      modifies this
      ensures Snapshot() == WithToken(old(Snapshot()), access)
    {
      token := Some(access);
    }

    method ClearAuth()
      modifies this
      ensures Snapshot() == Cleared(old(Snapshot()))
    {
      user := None;
      token := None;
      refreshToken := None;
      isAuthenticated := false;
    }
  }
}
