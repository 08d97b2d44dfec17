/**
 * The client-side session: the browser stores that hold the credentials, the
 * `AuthState` record the provider publishes, its transitions (startup,
 * refresh, the refresh-failure reset, logout) as functions of the stores, and
 * the provider object whose methods perform them in place.
 */
module Session {
  import opened Wrappers
  import opened TokenCodec

  /** `sessionStorage`, reduced to its `access_token` slot. */
  class SessionStorage {
    var accessToken: Option<string>

    constructor (accessToken: Option<string>)
      ensures this.accessToken == accessToken
    {
      this.accessToken := accessToken;
    }
  }

  /** The cookie jar, reduced to its `refresh_token` cookie. */
  class CookieJar {
    var refreshToken: Option<string>

    constructor (refreshToken: Option<string>)
      ensures this.refreshToken == refreshToken
    {
      this.refreshToken := refreshToken;
    }
  }

  datatype AuthState = AuthState(user: Option<User>, isAuthenticated: bool, isLoading: bool, accessToken: Option<string>)

  /** The signed-out state every failure and logout writes. */
  const SignedOut := AuthState(None, false, false, None)

  const MockUser := User(Some(1), Some("admin_demo"), Some("admin"))

  /**
   * The provider's invariant: authenticated exactly when there is a user,
   * exactly when there is a token; so a token is held exactly when signed in.
   */
  predicate Consistent(s: AuthState): (b: bool)
    ensures b ==> (s.isAuthenticated <==> s.accessToken.Some?)
  {
    (s.isAuthenticated <==> s.user.Some?) && (s.user.Some? <==> s.accessToken.Some?)
  }

  /** JavaScript truthiness of a stored string: present and not empty. */
  predicate Truthy(v: Option<string>) {
    v.Some? && v.value != ""
  }

  /**
   * The state the provider starts in: in mock mode the demo admin, signed in
   * with `mock-token`; otherwise nobody, still loading.
   */
  function InitialState(useMock: bool): (s: AuthState)
    ensures Consistent(s)
    ensures s.isAuthenticated == useMock && s.isLoading == !useMock
    ensures useMock ==> s.user == Some(MockUser) && s.accessToken == Some("mock-token")
  {
    if useMock then AuthState(Some(MockUser), true, false, Some("mock-token"))
    else AuthState(None, false, true, None)
  }

  /** Everything the transitions read and write: the published state and the two stores. */
  datatype Stores = Stores(state: AuthState, sessionToken: Option<string>, refreshCookie: Option<string>)

  /**
   * What the refresh request yields: a response whose `access` field is a
   * string (`None` when the field is missing or not a string), or a thrown
   * error (network failure, non-success status, unreadable body).
   */
  datatype Exchange = Issued(access: Option<string>) | Thrown

  /**
   * `refreshSession`, given the transport `exchange` that posts a refresh
   * token and answers, as a function from the stores before to the stores
   * after and the returned flag.
   */
  function Refresh(useMock: bool, codec: Codec, s: Stores, exchange: string -> Exchange): (r: (Stores, bool))
    ensures useMock ==> r == (s, true)
    ensures !useMock && !Truthy(s.refreshCookie) ==> r == (s, false)
    ensures r.0.refreshCookie == s.refreshCookie
    ensures r.0.state == s.state || (Consistent(r.0.state) && !r.0.state.isLoading)
    ensures !r.1 ==> r.0.sessionToken == s.sessionToken
    ensures !r.1 ==> r.0.state == s.state || r.0.state == SignedOut
    ensures !useMock && r.1 ==>
      r.0.state.isAuthenticated && !r.0.state.isLoading &&
      r.0.sessionToken.Some? && r.0.state.accessToken == r.0.sessionToken &&
      r.0.state.user == ParseJwt(codec, r.0.sessionToken.value) &&
      exchange(s.refreshCookie.value) == Issued(r.0.sessionToken)
  {
    if useMock then (s, true)
    else if !Truthy(s.refreshCookie) then (s, false)
    else
      match exchange(s.refreshCookie.value)
      case Thrown => (s.(state := SignedOut), false)
      case Issued(access) =>
        var user := if access.Some? then ParseJwt(codec, access.value) else None;
        if user.None? then (s, false)
        else (Stores(AuthState(user, true, false, access), access, s.refreshCookie), true)
  }

  /**
   * `initAuth` at time `now`: reuse an unexpired stored token that parses,
   * else refresh, and sign out if the refresh reports failure. The flag says
   * whether `refreshSession` was called.
   */
  function Startup(useMock: bool, codec: Codec, now: int, s: Stores, exchange: string -> Exchange): (r: (Stores, bool))
    ensures useMock ==> r == (s, false)
    ensures !useMock ==> Consistent(r.0.state) && !r.0.state.isLoading
    ensures !useMock && r.0.state.isAuthenticated ==> r.0.state.accessToken == r.0.sessionToken
    ensures r.0.refreshCookie == s.refreshCookie
    ensures !r.1 ==> r.0.sessionToken == s.sessionToken
  {
    if useMock then (s, false)
    else
      var token := s.sessionToken;
      if Truthy(token) && !IsTokenExpired(codec, token.value, now) && ParseJwt(codec, token.value).Some? then
        (s.(state := AuthState(ParseJwt(codec, token.value), true, false, token)), false)
      else
        var (after, refreshed) := Refresh(useMock, codec, s, exchange);
        (if refreshed then after else after.(state := SignedOut), true)
  }

  /** `logout`: both stores emptied and the signed-out state published, whatever came before. */
  function AfterLogout(s: Stores): (r: Stores)
    ensures r.state == SignedOut && Consistent(r.state)
    ensures r.sessionToken.None? && r.refreshCookie.None?
  {
    Stores(SignedOut, None, None)
  }

  /** Logging out twice leaves the stores as logging out once. */
  lemma LogoutIdempotent(s: Stores)
    ensures AfterLogout(AfterLogout(s)) == AfterLogout(s)
  {
  }

  /** A successful refresh publishes the user of the new token, with that token, and stores it. */
  lemma RefreshSucceeds(codec: Codec, s: Stores, exchange: string -> Exchange, access: string)
    requires Truthy(s.refreshCookie)
    requires exchange(s.refreshCookie.value) == Issued(Some(access))
    requires ParseJwt(codec, access).Some?
    ensures Refresh(false, codec, s, exchange) ==
      (Stores(AuthState(ParseJwt(codec, access), true, false, Some(access)), Some(access), s.refreshCookie), true)
  {
  }

  /** A response whose token cannot be parsed is reported as failure and changes nothing. */
  lemma RefreshUnparseableChangesNothing(codec: Codec, s: Stores, exchange: string -> Exchange)
    requires Truthy(s.refreshCookie)
    requires exchange(s.refreshCookie.value).Issued?
    requires var access := exchange(s.refreshCookie.value).access;
      access.None? || ParseJwt(codec, access.value).None?
    ensures Refresh(false, codec, s, exchange) == (s, false)
  {
  }

  /** A thrown transport error signs out but leaves the stored token in place. */
  lemma RefreshErrorSignsOut(codec: Codec, s: Stores, exchange: string -> Exchange)
    requires Truthy(s.refreshCookie)
    requires exchange(s.refreshCookie.value) == Thrown
    ensures Refresh(false, codec, s, exchange) == (Stores(SignedOut, s.sessionToken, s.refreshCookie), false)
  {
  }

  /** Startup with an unexpired stored token that parses signs in with that very token and calls no refresh. */
  lemma StartupReusesStoredToken(codec: Codec, now: int, s: Stores, exchange: string -> Exchange)
    requires Truthy(s.sessionToken)
    requires !IsTokenExpired(codec, s.sessionToken.value, now)
    requires ParseJwt(codec, s.sessionToken.value).Some?
    ensures Startup(false, codec, now, s, exchange) ==
      (s.(state := AuthState(ParseJwt(codec, s.sessionToken.value), true, false, s.sessionToken)), false)
  {
  }

  /** Any other startup refreshes, keeping a successful result and signing out on failure. */
  lemma StartupFallsBackToRefresh(codec: Codec, now: int, s: Stores, exchange: string -> Exchange)
    requires !Truthy(s.sessionToken) || IsTokenExpired(codec, s.sessionToken.value, now)
      || ParseJwt(codec, s.sessionToken.value).None?
    ensures var (after, ok) := Refresh(false, codec, s, exchange);
      Startup(false, codec, now, s, exchange) == (if ok then after else after.(state := SignedOut), true)
  {
  }

  /**
   * An expired stored token and no refresh cookie end signed out; the
   * expired token itself stays in session storage.
   */
  lemma ExpiredTokenWithoutCookieSignsOut(codec: Codec, now: int, s: Stores, exchange: string -> Exchange)
    requires s.sessionToken.Some? && IsTokenExpired(codec, s.sessionToken.value, now)
    requires s.refreshCookie.None?
    ensures Startup(false, codec, now, s, exchange) == (Stores(SignedOut, s.sessionToken, None), true)
  {
  }

  /** In mock mode startup and refresh change nothing, and refresh reports success. */
  lemma MockSessionStays(codec: Codec, now: int, s: Stores, exchange: string -> Exchange)
    ensures Startup(true, codec, now, s, exchange) == (s, false)
    ensures Refresh(true, codec, s, exchange) == (s, true)
  {
  }

  /**
   * The session provider: the published `state`, the shared session storage
   * and cookie jar, the mock switch and the decoders it was built with.
   */
  class AuthProvider {
    const useMock: bool
    const codec: Codec
    const session: SessionStorage
    const cookies: CookieJar
    var state: AuthState

    ghost predicate Valid()
      reads this
    {
      Consistent(state)
    }

    function Current(): Stores
      reads this, session, cookies
    {
      Stores(state, session.accessToken, cookies.refreshToken)
    }

    constructor (useMock: bool, codec: Codec, session: SessionStorage, cookies: CookieJar)
      ensures Valid()
      ensures this.useMock == useMock && this.codec == codec
      ensures this.session == session && this.cookies == cookies
      ensures state == InitialState(useMock)
    {
      this.useMock := useMock;
      this.codec := codec;
      this.session := session;
      this.cookies := cookies;
      state := InitialState(useMock);
    }

    method RefreshSession(exchange: string -> Exchange) returns (ok: bool)
      requires Valid()
      modifies this, session
      ensures Valid()
      ensures (Current(), ok) == Refresh(useMock, codec, old(Current()), exchange)
    {
      if useMock {
        return true;
      }
      var refreshToken := cookies.refreshToken;
      if !Truthy(refreshToken) {
        return false;
      }
      match exchange(refreshToken.value) {
        case Thrown =>
          state := SignedOut;
          return false;
        case Issued(access) =>
          var user := if access.Some? then ParseJwt(codec, access.value) else None;
          if user.None? {
            return false;
          }
          state := AuthState(user, true, false, access);
          session.accessToken := access;
          return true;
      }
    }

    method InitAuth(now: int, exchange: string -> Exchange) returns (refreshAttempted: bool)
      requires Valid()
      modifies this, session
      ensures Valid()
      ensures (Current(), refreshAttempted) == Startup(useMock, codec, now, old(Current()), exchange)
    {
      if useMock {
        return false;
      }
      var existingToken := session.accessToken;
      if Truthy(existingToken) && !IsTokenExpired(codec, existingToken.value, now) {
        var user := ParseJwt(codec, existingToken.value);
        if user.Some? {
          state := AuthState(user, true, false, existingToken);
          return false;
        }
      }
      var refreshed := RefreshSession(exchange);
      if !refreshed {
        state := SignedOut;
      }
      return true;
    }

    method Logout()
      requires Valid()
      modifies this, session, cookies
      ensures Valid()
      ensures Current() == AfterLogout(old(Current()))
    {
      cookies.refreshToken := None;
      session.accessToken := None;
      state := SignedOut;
    }
  }
}
