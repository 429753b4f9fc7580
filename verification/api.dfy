/**
 * The client's token store and HTTP glue (api.js): two localStorage keys, the
 * expiry test on the access token's `exp` claim, refresh-and-store, the
 * Authorization default header and the two axios interceptors.
 *
 * The browser is the state of `Client`: localStorage is a map, the axios
 * default header an optional string, `window.location` a path plus a count of
 * navigations. The clock is the `now` argument (milliseconds since the
 * epoch) and every network reply is an argument.
 */
module Api {
  import opened Wrappers
  import opened Js

  const TokenKey := "expense_tracker_token"
  const RefreshTokenKey := "expense_tracker_refresh_token"
  const LoginPath := "/login"

  /**
   * The claims the client reads from an access token: `exp` (section 4.1.4 of
   * RFC 7519) in seconds, or None when the payload has no numeric `exp`
   * (JavaScript then computes with NaN).
   */
  datatype Claims = Claims(exp: Option<int>)

  /**
   * `JSON.parse(atob(segment))`: plain base64 decoding followed by JSON
   * parsing of the payload segment. None stands for either call throwing.
   */
  type Decoder = string -> Option<Claims>

  /** Why an operation failed: a thrown Error, an HTTP error status, or no response at all. */
  datatype Fault = Thrown(message: string) | HttpError(status: int) | NoResponse

  /** The body of a successful login or refresh reply. */
  datatype TokenPair = TokenPair(access: string, refresh: string)

  /** The prefix of `s` before its first `c`: all of `s` when there is none. */
  function UntilChar(s: string, c: char): (r: string)
    ensures |r| <= |s| && c !in r && r == s[..|r|]
    ensures |r| == |s| || s[|r|] == c
  {
    if s == [] || s[0] == c then [] else [s[0]] + UntilChar(s[1..], c)
  }

  /** The position of the first '.' of `s`. */
  function FirstDot(s: string): (i: nat)
    requires '.' in s
    ensures i < |s| && s[i] == '.' && '.' !in s[..i]
  {
    if s[0] == '.' then 0
    else
      assert '.' in s[1..] by { assert s == [s[0]] + s[1..]; }
      var i := FirstDot(s[1..]);
      assert s[..i + 1] == [s[0]] + s[1..][..i];
      i + 1
  }

  /**
   * `token.split('.')[1]`: the payload segment of a JWS compact serialization
   * (section 7.1 of RFC 7515), i.e. the text between the first '.' and the
   * next '.' or the end; None (JavaScript `undefined`) when the token has no '.'.
   */
  function PayloadSegment(token: string): (seg: Option<string>)
    ensures seg.None? <==> '.' !in token
    ensures seg.Some? ==>
      var start := FirstDot(token) + 1;
      var end := start + |seg.value|;
      && end <= |token| && token[start..end] == seg.value && '.' !in seg.value
      && (end == |token| || token[end] == '.')
  {
    if '.' !in token then None
    else
      var start := FirstDot(token) + 1;
      var seg := UntilChar(token[start..], '.');
      assert token[start..][..|seg|] == token[start..start + |seg|];
      Some(seg)
  }

  /** The claims of a token, or None when decoding would throw. */
  function DecodeClaims(decode: Decoder, token: string): Option<Claims> {
    match PayloadSegment(token)
    case None => None
    case Some(seg) => decode(seg)
  }

  /** JavaScript truthiness of a stored token: present and non-empty. */
  predicate Present(t: Option<string>) {
    t.Some? && t.value != ""
  }

  /**
   * `isTokenExpired(token)` at clock reading `now` (milliseconds).
   */
  function IsTokenExpired(decode: Decoder, token: Option<string>, now: int): (expired: bool)
    ensures !Present(token) ==> expired
    ensures Present(token) && DecodeClaims(decode, token.value).None? ==> expired
    ensures Present(token) && DecodeClaims(decode, token.value) == Some(Claims(None)) ==> !expired
    ensures forall e: int :: Present(token) && DecodeClaims(decode, token.value) == Some(Claims(Some(e))) ==>
      (expired <==> e * 1000 < now)
  {
    if !Present(token) then true
    else match DecodeClaims(decode, token.value)
      case None => true
      case Some(Claims(None)) => false
      case Some(Claims(Some(exp))) => exp * 1000 < now
  }

  /** Once a token is expired it stays expired as the clock advances. */
  lemma ExpiryIsMonotone(decode: Decoder, token: Option<string>, earlier: int, later: int)
    requires earlier <= later
    requires IsTokenExpired(decode, token, earlier)
    ensures IsTokenExpired(decode, token, later)
  {
  }

  /** The value of a storage key, None when the key is absent (`getItem` returns null). */
  function Lookup(storage: map<string, string>, key: string): Option<string> {
    if key in storage then Some(storage[key]) else None
  }

  /** localStorage after `storeTokens(access, refresh)`. */
  function WithTokens(storage: map<string, string>, access: string, refresh: string): (after: map<string, string>)
    ensures Lookup(after, TokenKey) == Some(access)
    ensures Lookup(after, RefreshTokenKey) == Some(refresh)
    ensures forall k :: k != TokenKey && k != RefreshTokenKey ==> Lookup(after, k) == Lookup(storage, k)
  {
    storage[TokenKey := access][RefreshTokenKey := refresh]
  }

  /** localStorage after `clearTokens()`. */
  function WithoutTokens(storage: map<string, string>): (after: map<string, string>)
    ensures Lookup(after, TokenKey) == None && Lookup(after, RefreshTokenKey) == None
    ensures forall k :: k != TokenKey && k != RefreshTokenKey ==> Lookup(after, k) == Lookup(storage, k)
  {
    storage - {TokenKey, RefreshTokenKey}
  }

  /** `Bearer ${token}`. */
  function BearerCredentials(token: string): string {
    "Bearer " + token
  }

  /**
   * The Authorization default header after `setAuthHeader(token)`: the Bearer
   * credentials of section 2.1 of RFC 6750 for a truthy token, none otherwise.
   */
  function AuthHeaderFor(token: Option<string>): (header: Option<string>)
    ensures header.Some? <==> Present(token)
    ensures header.Some? ==> BearerToken(header.value) == token
  {
    if Present(token) then
      BearerRoundTrip(token.value);
      Some(BearerCredentials(token.value))
    else None
  }

  /**
   * How the server side reads an Authorization header: split at the first
   * space, accept the scheme "Bearer" (in any letter case) and return the rest.
   */
  function BearerToken(header: string): (token: Option<string>)
    ensures token.Some? ==> |header| > |token.value| && header[|header| - |token.value|..] == token.value
  {
    var scheme := UntilChar(header, ' ');
    if |scheme| < |header| && UpperAscii(scheme) == "BEARER" then Some(header[|scheme| + 1..]) else None
  }

  /** Reading back the header `setAuthHeader` writes yields the token written. */
  lemma {:induction false} BearerRoundTrip(token: string)
    ensures BearerToken(BearerCredentials(token)) == Some(token)
  {
    var header := BearerCredentials(token);
    UntilSpacePrefix("Bearer", " " + token);
    assert header == "Bearer" + (" " + token);
    assert UpperAscii("Bearer") == "BEARER";
    assert header[|"Bearer"| + 1..] == token;
  }

  /** The space-free prefix of a word followed by a space is that word. */
  lemma {:induction false} UntilSpacePrefix(word: string, rest: string)
    requires ' ' !in word && |rest| > 0 && rest[0] == ' '
    ensures UntilChar(word + rest, ' ') == word
    decreases |word|
  {
    if word != [] {
      assert (word + rest)[1..] == word[1..] + rest;
      UntilSpacePrefix(word[1..], rest);
    } else {
      assert word + rest == rest;
    }
  }

  /**
   * What `refreshAccessToken` returns for the stored refresh token and the
   * reply of `POST /auth/refresh`: no request without a refresh token, the new
   * access token on success, the error otherwise.
   */
  function RefreshOutcome(refresh: Option<string>, reply: Result<TokenPair, Fault>): (r: Result<string, Fault>)
    ensures !Present(refresh) ==> r == Failure(Thrown("No refresh token available"))
    ensures Present(refresh) && reply.Success? ==> r == Success(reply.value.access)
    ensures Present(refresh) && reply.Failure? ==> r == Failure(reply.error)
  {
    if !Present(refresh) then Failure(Thrown("No refresh token available"))
    else match reply
      case Success(pair) => Success(pair.access)
      case Failure(e) => Failure(e)
  }

  /** What the response-error interceptor does with a failed request. */
  datatype Intercepted = Resend | Reject(fault: Fault)

  /** The reply to one request sent through `api`: a body, or an error with the HTTP status (None without a response). */
  datatype HttpReply<T> = Ok(body: T) | Failed(status: Option<int>, error: Fault)

  /** `error.response?.status === 401` */
  predicate Unauthorized<T>(reply: HttpReply<T>) {
    reply.Failed? && reply.status == Some(401)
  }

  /** The browser state api.js reads and writes, as one value. */
  datatype Browser = Browser(storage: map<string, string>, authHeader: Option<string>, location: string,
                             navigations: nat, refreshRequests: nat)

  /**
   * The browser after a request through `api` whose first reply is `first`:
   * only a 401 changes anything. It makes the response interceptor call
   * `refreshAccessToken` with the refresh endpoint's `reply`. A new pair is
   * stored and becomes the header; any failure, "No refresh token available"
   * included, clears both tokens and the header and sends the browser to /login.
   */
  function AfterCall<T>(b: Browser, first: HttpReply<T>, reply: Result<TokenPair, Fault>): (after: Browser)
    ensures !Unauthorized(first) ==> after == b
    ensures Unauthorized(first) ==>
      after.refreshRequests == b.refreshRequests + (if Present(Lookup(b.storage, RefreshTokenKey)) then 1 else 0)
    ensures Unauthorized(first) && RefreshOutcome(Lookup(b.storage, RefreshTokenKey), reply).Success? ==>
      && after.storage == WithTokens(b.storage, reply.value.access, reply.value.refresh)
      && after.authHeader == AuthHeaderFor(Some(reply.value.access))
      && after.location == b.location && after.navigations == b.navigations
    ensures Unauthorized(first) && RefreshOutcome(Lookup(b.storage, RefreshTokenKey), reply).Failure? ==>
      && after.storage == WithoutTokens(b.storage) && after.authHeader == None
      && after.location == LoginPath && after.navigations == b.navigations + 1
  {
    if !Unauthorized(first) then b
    else
      var refresh := Lookup(b.storage, RefreshTokenKey);
      var requests := b.refreshRequests + (if Present(refresh) then 1 else 0);
      match RefreshOutcome(refresh, reply)
      case Success(access) =>
        b.(storage := WithTokens(b.storage, reply.value.access, reply.value.refresh),
           authHeader := AuthHeaderFor(Some(access)), refreshRequests := requests)
      case Failure(_) =>
        Browser(WithoutTokens(b.storage), None, LoginPath, b.navigations + 1, requests)
  }

  /**
   * What the caller of a request through `api` receives: the first reply's
   * body; a non-401 error as it is; after a 401, the refresh error, or else
   * the reply to the resent request, whose error is never retried again.
   */
  function CallOutcome<T>(refresh: Option<string>, first: HttpReply<T>, reply: Result<TokenPair, Fault>,
                          second: HttpReply<T>): (r: Result<T, Fault>)
    ensures first.Ok? ==> r == Success(first.body)
    ensures first.Failed? && !Unauthorized(first) ==> r == Failure(first.error)
    ensures Unauthorized(first) && RefreshOutcome(refresh, reply).Failure? ==>
      r == Failure(RefreshOutcome(refresh, reply).error)
    ensures Unauthorized(first) && RefreshOutcome(refresh, reply).Success? ==>
      r == (if second.Ok? then Success(second.body) else Failure(second.error))
  {
    match first
    case Ok(body) => Success(body)
    case Failed(_, error) =>
      if !Unauthorized(first) then Failure(error)
      else match RefreshOutcome(refresh, reply)
        case Failure(e) => Failure(e)
        case Success(_) => if second.Ok? then Success(second.body) else Failure(second.error)
  }

  /**
   * A 401 with no refresh token stored (a wrong password at login, say)
   * reaches the caller as "No refresh token available", not as the 401,
   * and leaves the browser logged out on /login.
   */
  lemma UnauthorizedWithoutRefreshToken<T>(b: Browser, first: HttpReply<T>, reply: Result<TokenPair, Fault>,
                                           second: HttpReply<T>)
    requires Unauthorized(first) && !Present(Lookup(b.storage, RefreshTokenKey))
    ensures CallOutcome(Lookup(b.storage, RefreshTokenKey), first, reply, second) ==
      Failure(Thrown("No refresh token available"))
    ensures AfterCall(b, first, reply) ==
      Browser(WithoutTokens(b.storage), None, LoginPath, b.navigations + 1, b.refreshRequests)
  {
  }

  /** The mutable config of one outgoing request. */
  class Request {
    var authorization: Option<string>
    var retry: bool

    constructor (authorization: Option<string>)
      ensures this.authorization == authorization && !retry
    {
      this.authorization := authorization;
      retry := false;
    }
  }

  /** The browser state that api.js reads and writes. */
  class Client {
    /** `atob` + `JSON.parse` on a payload segment. */
    const decode: Decoder
    /** window.localStorage */
    var storage: map<string, string>
    /** api.defaults.headers.common['Authorization'] */
    var authHeader: Option<string>
    /** window.location.pathname */
    var location: string
    /** How many times `window.location.href` has been assigned. */
    var navigations: nat
    /** How many `POST /auth/refresh` requests have been sent. */
    var refreshRequests: nat

    constructor (decode: Decoder, storage: map<string, string>, location: string)
      ensures this.decode == decode && this.storage == storage && this.location == location
      ensures authHeader == None && navigations == 0 && refreshRequests == 0
    {
      this.decode := decode;
      this.storage := storage;
      this.location := location;
      authHeader := None;
      navigations := 0;
      refreshRequests := 0;
    }

    function State(): Browser
      reads this
    {
      Browser(storage, authHeader, location, navigations, refreshRequests)
    }

    function StoredToken(): Option<string>
      reads this
    {
      Lookup(storage, TokenKey)
    }

    function StoredRefreshToken(): Option<string>
      reads this
    {
      Lookup(storage, RefreshTokenKey)
    }

    /** A stored token that is present and not expired at `now`. */
    predicate HasLiveToken(now: int)
      reads this
    {
      Present(StoredToken()) && !IsTokenExpired(decode, StoredToken(), now)
    }

    /** `getStoredTokens()`: both keys, null when absent. */
    method GetStoredTokens() returns (token: Option<string>, refreshToken: Option<string>)
      ensures token == Lookup(storage, TokenKey) && refreshToken == Lookup(storage, RefreshTokenKey)
    {
      token := if TokenKey in storage then Some(storage[TokenKey]) else None;
      refreshToken := if RefreshTokenKey in storage then Some(storage[RefreshTokenKey]) else None;
    }

    /** `storeTokens(access, refresh)`. */
    method StoreTokens(access: string, refresh: string)
      modifies this`storage
      ensures storage == WithTokens(old(storage), access, refresh)
    {
      storage := storage[TokenKey := access];
      storage := storage[RefreshTokenKey := refresh];
    }

    /** `clearTokens()`. */
    method ClearTokens()
      modifies this`storage
      ensures storage == WithoutTokens(old(storage))
    {
      storage := storage - {TokenKey};
      storage := storage - {RefreshTokenKey};
      assert storage == old(storage) - {TokenKey, RefreshTokenKey};
    }

    /** `setAuthHeader(token)`. */
    method SetAuthHeader(token: Option<string>)
      modifies this`authHeader
      ensures authHeader == AuthHeaderFor(token)
    {
      if token.Some? && token.value != "" {
        authHeader := Some("Bearer " + token.value);
      } else {
        authHeader := None;
      }
    }

    /**
     * `refreshAccessToken()`, given the reply the refresh endpoint would send.
     * On success the new pair is stored and becomes the default header; on
     * any failure both tokens are removed and the header is deleted.
     */
    method RefreshAccessToken(reply: Result<TokenPair, Fault>) returns (r: Result<string, Fault>)
      modifies this`storage, this`authHeader, this`refreshRequests
      ensures r == RefreshOutcome(old(StoredRefreshToken()), reply)
      ensures refreshRequests == old(refreshRequests) + (if Present(old(StoredRefreshToken())) then 1 else 0)
      ensures r.Success? ==>
        storage == WithTokens(old(storage), reply.value.access, reply.value.refresh) && authHeader == AuthHeaderFor(Some(r.value))
      ensures r.Failure? ==> storage == WithoutTokens(old(storage)) && authHeader == None
    {
      var _, refreshToken := GetStoredTokens();
      if !Present(refreshToken) {
        r := Failure(Thrown("No refresh token available"));
      } else {
        refreshRequests := refreshRequests + 1;
        match reply
        case Success(pair) =>
          StoreTokens(pair.access, pair.refresh);
          SetAuthHeader(Some(pair.access));
          r := Success(pair.access);
        case Failure(e) =>
          r := Failure(e);
      }
      if r.Failure? {
        ClearTokens();
        SetAuthHeader(None);
      }
    }

    /** The request interceptor: attach the stored token only while it is live. */
    method InterceptRequest(req: Request, now: int)
      modifies req`authorization
      ensures HasLiveToken(now) ==> req.authorization == Some(BearerCredentials(StoredToken().value))
      ensures !HasLiveToken(now) ==> req.authorization == old(req.authorization)
    {
      var token, _ := GetStoredTokens();
      if Present(token) && !IsTokenExpired(decode, token, now) {
        req.authorization := Some("Bearer " + token.value);
      }
    }

    /**
     * The response-error interceptor for a failed request with HTTP status
     * `status` (None when there was no response). A 401 on a request not yet
     * retried marks it retried and refreshes: on success the request is resent
     * with the new token; on failure the browser goes to /login (whatever the
     * current path) and the refresh error is rejected. Every other error is
     * rejected unchanged.
     */
    method InterceptResponseError(req: Request, status: Option<int>, error: Fault, reply: Result<TokenPair, Fault>)
      returns (outcome: Intercepted)
      modifies this, req
      ensures !(status == Some(401) && !old(req.retry)) ==>
        outcome == Reject(error) && unchanged(this) && unchanged(req)
      ensures status == Some(401) && !old(req.retry) ==>
        var r := RefreshOutcome(old(StoredRefreshToken()), reply);
        && req.retry
        && refreshRequests == old(refreshRequests) + (if Present(old(StoredRefreshToken())) then 1 else 0)
        && (r.Success? ==>
              && outcome == Resend
              && req.authorization == Some(BearerCredentials(r.value))
              && storage == WithTokens(old(storage), reply.value.access, reply.value.refresh)
              && authHeader == AuthHeaderFor(Some(r.value))
              && location == old(location) && navigations == old(navigations))
        && (r.Failure? ==>
              && outcome == Reject(r.error)
              && req.authorization == old(req.authorization)
              && storage == WithoutTokens(old(storage)) && authHeader == None
              && location == LoginPath && navigations == old(navigations) + 1)
    {
      if status == Some(401) && !req.retry {
        req.retry := true;
        var r := RefreshAccessToken(reply);
        match r
        case Success(newToken) =>
          req.authorization := Some("Bearer " + newToken);
          outcome := Resend;
        case Failure(refreshError) =>
          location := LoginPath;
          navigations := navigations + 1;
          outcome := Reject(refreshError);
      } else {
        outcome := Reject(error);
      }
    }

    /**
     * One request through `api` at clock reading `now`: the request
     * interceptor, the server's `first` reply, and on an error the response
     * interceptor, which may refresh (with the refresh endpoint's `reply`)
     * and resend, the resent request getting `second`.
     */
    method Send<T>(now: int, first: HttpReply<T>, reply: Result<TokenPair, Fault>, second: HttpReply<T>)
      returns (r: Result<T, Fault>)
      modifies this
      ensures r == CallOutcome(old(StoredRefreshToken()), first, reply, second)
      ensures State() == AfterCall(old(State()), first, reply)
    {
      var req := new Request(None);
      InterceptRequest(req, now);
      match first
      case Ok(body) =>
        r := Success(body);
      case Failed(status, error) =>
        var outcome := InterceptResponseError(req, status, error, reply);
        match outcome
        case Reject(fault) =>
          r := Failure(fault);
        case Resend =>
          InterceptRequest(req, now);
          match second
          case Ok(body) =>
            r := Success(body);
          case Failed(status', error') =>
            var again := InterceptResponseError(req, status', error', reply);
            r := Failure(again.fault);
    }

    /**
     * `loginUser(credentials)`: `POST /auth/login` through `api`; the pair
     * of a successful reply is stored and its access token becomes the
     * default header. A 401 (wrong password, unknown or inactive user) goes
     * through the response interceptor like any other request.
     */
    method LoginUser(now: int, first: HttpReply<TokenPair>, reply: Result<TokenPair, Fault>, second: HttpReply<TokenPair>)
      returns (r: Result<TokenPair, Fault>)
      modifies this
      ensures r == CallOutcome(old(StoredRefreshToken()), first, reply, second)
      ensures r.Failure? ==> State() == AfterCall(old(State()), first, reply)
      ensures r.Success? ==>
        var b := AfterCall(old(State()), first, reply);
        State() == b.(storage := WithTokens(b.storage, r.value.access, r.value.refresh),
                      authHeader := AuthHeaderFor(Some(r.value.access)))
    {
      r := Send(now, first, reply, second);
      if r.Success? {
        StoreTokens(r.value.access, r.value.refresh);
        SetAuthHeader(Some(r.value.access));
      }
    }

    /** `logoutUser()`: both tokens gone, no default header. */
    method LogoutUser()
      modifies this`storage, this`authHeader
      ensures storage == WithoutTokens(old(storage)) && authHeader == None
    {
      ClearTokens();
      SetAuthHeader(None);
    }
  }
}
