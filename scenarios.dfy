/**
 * How the session provider and the HTTP client meet: both hold the same
 * session storage, so each request carries whatever token the provider last
 * stored, while the base address never changes.
 */
module Scenarios {
  import opened Wrappers
  import Session
  import Api
  import TokenCodec

  /** After logout, requests carry no `Authorization` header. */
  method LogoutThenRequest(provider: Session.AuthProvider, client: Api.ApiClient, url: string)
    returns (config: Api.RequestConfig)
    requires provider.Valid() && provider.session == client.session
    modifies provider, provider.session, provider.cookies
    ensures provider.state == Session.SignedOut
    ensures "Authorization" !in config.headers
  {
    provider.Logout();
    config := client.Request(Api.Get, url, map[]);
  }

  /**
   * A request made after a successful refresh carries the new token, at the
   * same base address as the request made before it.
   */
  method RequestAfterRefresh(provider: Session.AuthProvider, client: Api.ApiClient, url: string,
                             exchange: string -> Session.Exchange)
    returns (before: Api.RequestConfig, ok: bool, after: Api.RequestConfig)
    requires provider.Valid() && provider.session == client.session && !provider.useMock
    modifies provider, provider.session
    ensures before.baseUrl == after.baseUrl == client.baseUrl
    ensures ok ==> provider.state.accessToken.Some? && provider.session.accessToken == provider.state.accessToken
    ensures ok ==>
      after.headers == Api.DefaultHeaders["Authorization" := "Bearer " + provider.state.accessToken.value]
  {
    before := client.Request(Api.Get, url, map[]);
    ok := provider.RefreshSession(exchange);
    if ok {
      // the refreshed token parsed, so it has a payload segment and is not empty
      var t := provider.session.accessToken.value;
      assert provider.state.user == TokenCodec.ParseJwt(provider.codec, t);
      assert '.' in t;
    }
    after := client.Request(Api.Get, url, map[]);
  }

  /**
   * A refresh that throws signs the provider out, yet a non-empty token
   * stored earlier is still stamped on the next request.
   */
  method StaleTokenAfterFailedRefresh(provider: Session.AuthProvider, client: Api.ApiClient, url: string,
                                      exchange: string -> Session.Exchange)
    returns (config: Api.RequestConfig)
    requires provider.Valid() && provider.session == client.session && !provider.useMock
    requires Session.Truthy(provider.cookies.refreshToken)
    requires exchange(provider.cookies.refreshToken.value) == Session.Thrown
    requires Session.Truthy(provider.session.accessToken)
    modifies provider, provider.session
    ensures provider.state == Session.SignedOut
    ensures config.headers == Api.DefaultHeaders["Authorization" := "Bearer " + old(provider.session.accessToken.value)]
  {
    var ok := provider.RefreshSession(exchange);
    config := client.Request(Api.Get, url, map[]);
  }
}
