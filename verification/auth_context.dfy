/**
 * The authentication provider (AuthContext.jsx): three state cells (`user`,
 * `loading`, `isAuthenticated`) driven by the startup check, login, logout
 * and profile updates, on top of the token client and the session manager.
 */
module AuthContext {
  import opened Wrappers
  import opened Api
  import opened Session

  /** The user record `GET /auth/me` returns. */
  datatype Profile = Profile(id: int, username: string, email: string, fullName: Option<string>, isActive: string)

  class AuthProvider {
    const api: Client
    const session: SessionManager
    var user: Option<Profile>
    var loading: bool
    var isAuthenticated: bool

    ghost predicate Valid()
      reads this, session
    {
      session.api == api && session.Valid()
    }

    /** The first render: no user, loading, not authenticated. */
    constructor (session: SessionManager)
      requires session.Valid()
      ensures this.session == session && api == session.api && Valid()
      ensures user == None && loading && !isAuthenticated
    {
      this.session := session;
      api := session.api;
      user := None;
      loading := true;
      isAuthenticated := false;
    }

    /**
     * The startup `checkAuthStatus`. With a live stored token it calls
     * `getCurrentUser()`, a request through `api` whose replies are
     * `first`, `reply` (the refresh endpoint's, used after a 401) and
     * `second` (the resent request's). A fetched user authenticates and
     * schedules the refresh for the token stored by then. A missing or
     * expired token, or a failed fetch, logs out and cancels the refresh
     * timeout. Loading ends on every path.
     */
    method CheckAuthStatus(now: int, first: HttpReply<Profile>, reply: Result<TokenPair, Fault>, second: HttpReply<Profile>)
      requires Valid()
      modifies this`user, this`loading, this`isAuthenticated
      modifies session`refreshTimeout, session`pending, session`nextHandle
      modifies api
      ensures Valid() && !loading
      ensures !old(api.HasLiveToken(now)) ==>
        && user == old(user) && isAuthenticated == old(isAuthenticated)
        && api.State() == old(api.State()).(storage := WithoutTokens(old(api.storage)), authHeader := None)
        && session.refreshTimeout == None && session.pending == map[]
      ensures old(api.HasLiveToken(now)) ==>
        var fetched := CallOutcome(old(api.StoredRefreshToken()), first, reply, second);
        var b := AfterCall(old(api.State()), first, reply);
        && (fetched.Success? ==>
              && user == Some(fetched.value) && isAuthenticated && api.State() == b
              && (api.HasLiveToken(now) ==>
                    session.refreshTimeout == Some(old(session.nextHandle))
                    && session.pending == map[old(session.nextHandle) := DelayFor(api.decode, api.StoredToken().value, now)])
              && (!api.HasLiveToken(now) ==>
                    session.refreshTimeout == old(session.refreshTimeout) && session.pending == old(session.pending)))
        && (fetched.Failure? ==>
              && user == old(user) && isAuthenticated == old(isAuthenticated)
              && api.State() == b.(storage := WithoutTokens(b.storage), authHeader := None)
              && session.refreshTimeout == None && session.pending == map[])
    {
      var token, _ := api.GetStoredTokens();
      if Present(token) && !IsTokenExpired(api.decode, token, now) {
        var fetched := api.Send(now, first, reply, second);
        match fetched
        case Success(profile) =>
          user := Some(profile);
          isAuthenticated := true;
          session.SetupTokenRefresh(now);
        case Failure(_) =>
          api.LogoutUser();
          session.Cleanup();
      } else {
        api.LogoutUser();
        session.Cleanup();
      }
      loading := false;
    }

    /** `updateUser(userData)`: replaces the user and nothing else. */
    method UpdateUser(userData: Option<Profile>)
      modifies this`user
      ensures user == userData
    {
      user := userData;
    }

    /** `login(userData)`: the user is set, authenticated, and the refresh scheduled. */
    method Login(userData: Profile, now: int)
      requires Valid()
      modifies this`user, this`isAuthenticated
      modifies session`refreshTimeout, session`pending, session`nextHandle
      ensures Valid()
      ensures user == Some(userData) && isAuthenticated
      ensures api.HasLiveToken(now) ==>
        session.refreshTimeout == Some(old(session.nextHandle))
        && session.pending == map[old(session.nextHandle) := DelayFor(api.decode, api.StoredToken().value, now)]
      ensures !api.HasLiveToken(now) ==>
        session.refreshTimeout == old(session.refreshTimeout) && session.pending == old(session.pending)
    {
      user := Some(userData);
      isAuthenticated := true;
      session.SetupTokenRefresh(now);
    }

    /** `logout()`: tokens and header gone, no user, no refresh timeout. */
    method Logout()
      requires Valid()
      modifies this`user, this`isAuthenticated
      modifies session`refreshTimeout, session`pending
      modifies api`storage, api`authHeader
      ensures Valid()
      ensures user == None && !isAuthenticated
      ensures api.storage == WithoutTokens(old(api.storage)) && api.authHeader == None
      ensures session.refreshTimeout == None && session.pending == map[]
    {
      api.LogoutUser();
      user := None;
      isAuthenticated := false;
      session.Cleanup();
    }
  }
}
