/**
 * The session manager singleton (sessionManager.js): a minute-by-minute
 * expiry check, one refresh timeout scheduled five minutes before the access
 * token expires, and the fall-back to the login page when a refresh fails.
 *
 * The browser's timer table is part of the state: `pending` maps each
 * outstanding refresh timeout's handle to its effective delay. `FireTimeout`
 * is the event loop running one of them; `CheckTokenExpiration` is one tick
 * of the interval.
 */
module Session {
  import opened Wrappers
  import opened Api

  /** Five minutes, the margin before expiry at which the refresh is scheduled. */
  const RefreshMargin := 300000
  /** The shortest delay the manager asks for: one minute. */
  const MinimumDelay := 60000
  /** The period of the expiry check. */
  const CheckPeriod := 60000

  /**
   * `Math.max(exp * 1000 - now - 300000, 60000)`; None is NaN, which is what
   * JavaScript computes when the payload has no numeric `exp`.
   */
  function RequestedDelay(exp: Option<int>, now: int): (d: Option<int>)
    ensures d.None? <==> exp.None?
    ensures d.Some? ==> d.value >= MinimumDelay
    ensures d.Some? && exp.value * 1000 - now >= RefreshMargin + MinimumDelay ==>
      now + d.value + RefreshMargin == exp.value * 1000
    ensures d.Some? && exp.value * 1000 - now <= RefreshMargin + MinimumDelay ==> d.value == MinimumDelay
  {
    match exp
    case None => None
    case Some(e) =>
      var remaining := e * 1000 - now - RefreshMargin;
      Some(if remaining > MinimumDelay then remaining else MinimumDelay)
  }

  /**
   * The delay a browser actually waits for `setTimeout(f, d)`: the argument
   * is converted to a WebIDL `long` (NaN becomes 0, other values wrap modulo
   * 2^32 into the signed 32-bit range) and negative results count as 0.
   */
  function TimerDelay(requested: Option<int>): (d: nat)
    ensures requested.None? ==> d == 0
    ensures requested.Some? && 0 <= requested.value < 0x8000_0000 ==> d == requested.value
    ensures d < 0x8000_0000
  {
    match requested
    case None => 0
    case Some(v) =>
      var wrapped := v % 0x1_0000_0000;
      if wrapped >= 0x8000_0000 then 0 else wrapped
  }

  /**
   * For a token that expires more than six minutes (and less than about 24
   * days) from now, the scheduled refresh fires while the token is still
   * live, exactly five minutes before it expires.
   */
  lemma ScheduledRefreshPrecedesExpiry(decode: Decoder, token: string, exp: int, now: int)
    requires DecodeClaims(decode, token) == Some(Claims(Some(exp)))
    requires RefreshMargin + MinimumDelay <= exp * 1000 - now < RefreshMargin + 0x8000_0000
    ensures var fire := now + TimerDelay(RequestedDelay(Some(exp), now));
      && fire + RefreshMargin == exp * 1000
      && !IsTokenExpired(decode, Some(token), fire)
  {
    assert '.' in token;
  }

  /**
   * A token without a numeric `exp` is never considered expired, yet its
   * refresh is scheduled with delay 0: it is refreshed at the next turn of
   * the event loop.
   */
  lemma TokenWithoutExpiryRefreshesAtOnce(decode: Decoder, token: string, now: int)
    requires DecodeClaims(decode, token) == Some(Claims(None))
    ensures !IsTokenExpired(decode, Some(token), now)
    ensures TimerDelay(RequestedDelay(None, now)) == 0
  {
    assert '.' in token;
  }

  /** The delay `scheduleTokenRefresh` gives the timer for a token whose payload decodes. */
  function DelayFor(decode: Decoder, token: string, now: int): nat
    requires DecodeClaims(decode, token).Some?
  {
    TimerDelay(RequestedDelay(DecodeClaims(decode, token).value.exp, now))
  }

  class SessionManager {
    const api: Client
    /** `this.refreshTimeout`: the handle of the last refresh timeout set, null when none. */
    var refreshTimeout: Option<nat>
    /** Outstanding refresh timeouts in the browser: handle to delay. */
    var pending: map<nat, nat>
    /** The handle the browser gives to the next timer. */
    var nextHandle: nat
    /** Intervals started with `setInterval(checkTokenExpiration, 60000)`. */
    var intervals: nat

    /**
     * At most one refresh timeout is ever outstanding, and it is the one
     * `refreshTimeout` names. Handles are positive, hence truthy.
     */
    ghost predicate Valid()
      reads this
    {
      && nextHandle >= 1
      && (refreshTimeout.Some? ==> 1 <= refreshTimeout.value < nextHandle)
      && (forall h :: h in pending ==> refreshTimeout == Some(h))
    }

    /** `new SessionManager()`: start the expiry check, then `setupTokenRefresh()`. */
    constructor (api: Client, now: int)
      ensures this.api == api && Valid() && intervals == 1
      ensures api.HasLiveToken(now) ==>
        pending == map[1 := DelayFor(api.decode, api.StoredToken().value, now)] && refreshTimeout == Some(1)
      ensures !api.HasLiveToken(now) ==> pending == map[] && refreshTimeout == None
    {
      this.api := api;
      refreshTimeout := None;
      pending := map[];
      nextHandle := 1;
      intervals := 1;
      new;
      SetupTokenRefresh(now);
    }

    /**
     * `scheduleTokenRefresh(token)`: when the payload decodes, the previous
     * refresh timeout is cancelled and a new one is set; when it does not,
     * the error is caught and nothing changes.
     */
    method ScheduleTokenRefresh(token: string, now: int)
      requires Valid()
      modifies this`refreshTimeout, this`pending, this`nextHandle
      ensures Valid()
      ensures DecodeClaims(api.decode, token).None? ==>
        refreshTimeout == old(refreshTimeout) && pending == old(pending) && nextHandle == old(nextHandle)
      ensures DecodeClaims(api.decode, token).Some? ==>
        var h := old(nextHandle);
        && refreshTimeout == Some(h) && nextHandle == h + 1
        && pending == map[h := TimerDelay(RequestedDelay(DecodeClaims(api.decode, token).value.exp, now))]
    {
      match DecodeClaims(api.decode, token)
      case None =>
      case Some(claims) =>
        var delay := TimerDelay(RequestedDelay(claims.exp, now));
        if refreshTimeout.Some? {
          pending := pending - {refreshTimeout.value};
        }
        assert pending == map[];
        var h := nextHandle;
        nextHandle := nextHandle + 1;
        pending := pending[h := delay];
        refreshTimeout := Some(h);
    }

    /** `setupTokenRefresh()`: schedule only for a stored token that is live now. */
    method SetupTokenRefresh(now: int)
      requires Valid()
      modifies this`refreshTimeout, this`pending, this`nextHandle
      ensures Valid()
      ensures !api.HasLiveToken(now) ==>
        refreshTimeout == old(refreshTimeout) && pending == old(pending) && nextHandle == old(nextHandle)
      ensures api.HasLiveToken(now) ==>
        var h := old(nextHandle);
        && refreshTimeout == Some(h) && nextHandle == h + 1
        && pending == map[h := DelayFor(api.decode, api.StoredToken().value, now)]
    {
      var token, _ := api.GetStoredTokens();
      if Present(token) && !IsTokenExpired(api.decode, token, now) {
        ScheduleTokenRefresh(token.value, now);
      }
    }

    /**
     * `handleRefreshFailure()`: clear the tokens and go to /login unless
     * already there. The pending refresh timeout, if any, is left in place.
     */
    method HandleRefreshFailure()
      modifies api`storage, api`location, api`navigations
      ensures api.storage == WithoutTokens(old(api.storage))
      ensures api.location == LoginPath
      ensures api.navigations == old(api.navigations) + (if old(api.location) == LoginPath then 0 else 1)
    {
      api.ClearTokens();
      if api.location != LoginPath {
        api.location := LoginPath;
        api.navigations := api.navigations + 1;
      }
    }

    /**
     * `refreshToken()`, given the refresh endpoint's reply: a new access
     * token is stored and its own refresh scheduled; a failure clears the
     * tokens, leaves for /login and is rethrown.
     */
    method RefreshToken(reply: Result<TokenPair, Fault>, now: int) returns (r: Result<string, Fault>)
      requires Valid()
      modifies this`refreshTimeout, this`pending, this`nextHandle
      modifies api`storage, api`authHeader, api`refreshRequests, api`location, api`navigations
      ensures Valid()
      ensures r == RefreshOutcome(old(api.StoredRefreshToken()), reply)
      ensures api.refreshRequests == old(api.refreshRequests) + (if Present(old(api.StoredRefreshToken())) then 1 else 0)
      ensures r.Success? ==>
        && api.storage == WithTokens(old(api.storage), reply.value.access, reply.value.refresh)
        && api.authHeader == AuthHeaderFor(Some(r.value))
        && api.location == old(api.location) && api.navigations == old(api.navigations)
        && (DecodeClaims(api.decode, r.value).Some? ==>
              refreshTimeout == Some(old(nextHandle))
              && pending == map[old(nextHandle) := TimerDelay(RequestedDelay(DecodeClaims(api.decode, r.value).value.exp, now))])
        && (DecodeClaims(api.decode, r.value).None? ==>
              refreshTimeout == old(refreshTimeout) && pending == old(pending) && nextHandle == old(nextHandle))
      ensures r.Failure? ==>
        && api.storage == WithoutTokens(old(api.storage)) && api.authHeader == None
        && api.location == LoginPath
        && api.navigations == old(api.navigations) + (if old(api.location) == LoginPath then 0 else 1)
        && refreshTimeout == old(refreshTimeout) && pending == old(pending)
    {
      r := api.RefreshAccessToken(reply);
      match r
      case Success(newToken) =>
        ScheduleTokenRefresh(newToken, now);
      case Failure(_) =>
        HandleRefreshFailure();
    }

    /** One tick of the expiry-check interval: refresh a stored token that has expired. */
    method CheckTokenExpiration(reply: Result<TokenPair, Fault>, now: int)
      requires Valid()
      modifies this`refreshTimeout, this`pending, this`nextHandle
      modifies api`storage, api`authHeader, api`refreshRequests, api`location, api`navigations
      ensures Valid()
      ensures !(Present(old(api.StoredToken())) && IsTokenExpired(api.decode, old(api.StoredToken()), now)) ==>
        unchanged(this) && unchanged(api)
      ensures Present(old(api.StoredToken())) && IsTokenExpired(api.decode, old(api.StoredToken()), now) ==>
        var o := RefreshOutcome(old(api.StoredRefreshToken()), reply);
        && api.refreshRequests == old(api.refreshRequests) + (if Present(old(api.StoredRefreshToken())) then 1 else 0)
        && (o.Success? ==>
              && api.storage == WithTokens(old(api.storage), reply.value.access, reply.value.refresh)
              && api.authHeader == AuthHeaderFor(Some(o.value))
              && api.location == old(api.location) && api.navigations == old(api.navigations)
              && (DecodeClaims(api.decode, o.value).Some? ==>
                    refreshTimeout == Some(old(nextHandle)) && pending == map[old(nextHandle) := DelayFor(api.decode, o.value, now)])
              && (DecodeClaims(api.decode, o.value).None? ==>
                    refreshTimeout == old(refreshTimeout) && pending == old(pending) && nextHandle == old(nextHandle)))
        && (o.Failure? ==>
              && api.storage == WithoutTokens(old(api.storage)) && api.authHeader == None
              && api.location == LoginPath
              && api.navigations == old(api.navigations) + (if old(api.location) == LoginPath then 0 else 1)
              && refreshTimeout == old(refreshTimeout) && pending == old(pending))
    {
      var token, _ := api.GetStoredTokens();
      if Present(token) && IsTokenExpired(api.decode, token, now) {
        var _ := RefreshToken(reply, now);
      }
    }

    /**
     * `ensureValidToken()`: no token is an error, an expired one is
     * refreshed, a live one is returned as it is.
     */
    method EnsureValidToken(reply: Result<TokenPair, Fault>, now: int) returns (r: Result<string, Fault>)
      requires Valid()
      modifies this`refreshTimeout, this`pending, this`nextHandle
      modifies api`storage, api`authHeader, api`refreshRequests, api`location, api`navigations
      ensures Valid()
      ensures !Present(old(api.StoredToken())) ==>
        r == Failure(Thrown("No token available")) && unchanged(this) && unchanged(api)
      ensures old(api.HasLiveToken(now)) ==>
        r == Success(old(api.StoredToken()).value) && unchanged(this) && unchanged(api)
      ensures Present(old(api.StoredToken())) && IsTokenExpired(api.decode, old(api.StoredToken()), now) ==>
        && r == RefreshOutcome(old(api.StoredRefreshToken()), reply)
        && api.refreshRequests == old(api.refreshRequests) + (if Present(old(api.StoredRefreshToken())) then 1 else 0)
        && (r.Success? ==>
              && api.storage == WithTokens(old(api.storage), reply.value.access, reply.value.refresh)
              && api.authHeader == AuthHeaderFor(Some(r.value))
              && api.location == old(api.location) && api.navigations == old(api.navigations)
              && (DecodeClaims(api.decode, r.value).Some? ==>
                    refreshTimeout == Some(old(nextHandle))
                    && pending == map[old(nextHandle) := TimerDelay(RequestedDelay(DecodeClaims(api.decode, r.value).value.exp, now))])
              && (DecodeClaims(api.decode, r.value).None? ==>
                    refreshTimeout == old(refreshTimeout) && pending == old(pending) && nextHandle == old(nextHandle)))
        && (r.Failure? ==>
              && api.storage == WithoutTokens(old(api.storage)) && api.authHeader == None
              && api.location == LoginPath
              && api.navigations == old(api.navigations) + (if old(api.location) == LoginPath then 0 else 1)
              && refreshTimeout == old(refreshTimeout) && pending == old(pending))
    {
      var token, _ := api.GetStoredTokens();
      if !Present(token) {
        r := Failure(Thrown("No token available"));
      } else if IsTokenExpired(api.decode, token, now) {
        r := RefreshToken(reply, now);
      } else {
        r := Success(token.value);
      }
    }

    /** `cleanup()`: cancel the refresh timeout and forget its handle. */
    method Cleanup()
      requires Valid()
      modifies this`refreshTimeout, this`pending
      ensures Valid()
      ensures refreshTimeout == None && pending == map[]
    {
      if refreshTimeout.Some? {
        pending := pending - {refreshTimeout.value};
        refreshTimeout := None;
      }
      assert pending == map[];
    }

    /** The browser runs the outstanding refresh timeout `h`. */
    method FireTimeout(h: nat, reply: Result<TokenPair, Fault>, now: int) returns (r: Result<string, Fault>)
      requires Valid() && h in pending
      modifies this`refreshTimeout, this`pending, this`nextHandle
      modifies api`storage, api`authHeader, api`refreshRequests, api`location, api`navigations
      ensures Valid()
      ensures r == RefreshOutcome(old(api.StoredRefreshToken()), reply)
      ensures api.refreshRequests == old(api.refreshRequests) + (if Present(old(api.StoredRefreshToken())) then 1 else 0)
      ensures r.Success? ==>
        && api.storage == WithTokens(old(api.storage), reply.value.access, reply.value.refresh)
        && api.authHeader == AuthHeaderFor(Some(r.value))
        && api.location == old(api.location) && api.navigations == old(api.navigations)
        && (DecodeClaims(api.decode, r.value).Some? ==>
              refreshTimeout == Some(old(nextHandle)) && pending == map[old(nextHandle) := DelayFor(api.decode, r.value, now)])
        && (DecodeClaims(api.decode, r.value).None? ==>
              refreshTimeout == Some(h) && pending == map[] && nextHandle == old(nextHandle))
      ensures r.Failure? ==>
        && api.storage == WithoutTokens(old(api.storage)) && api.authHeader == None
        && api.location == LoginPath
        && api.navigations == old(api.navigations) + (if old(api.location) == LoginPath then 0 else 1)
        && refreshTimeout == Some(h) && pending == map[]
    {
      pending := pending - {h};
      r := RefreshToken(reply, now);
    }
  }
}
