/**
 * The HTTP client: where requests go (fixed once from the host name), the
 * request interceptor that stamps the live session token on each request,
 * and the invitation-creation request.
 */
module Api {
  import opened Wrappers
  import Strings
  import Session

  /**
   * `getBaseURL`: a development host (one whose name contains `localhost`)
   * is served over plain HTTP at `<first sub>.localhost`, with `demo` when
   * the name has no dot; any other host over HTTPS, unchanged.
   */
  function BaseUrl(hostname: string): (url: string)
    ensures Strings.Includes(hostname, "localhost") && '.' in hostname ==>
      url == "http://" + hostname[..Strings.IndexOf(hostname, '.')] + ".localhost"
    ensures Strings.Includes(hostname, "localhost") && '.' !in hostname ==>
      url == "http://demo.localhost"
    ensures !Strings.Includes(hostname, "localhost") ==> url == "https://" + hostname
  {
    if Strings.Includes(hostname, "localhost") then
      var parts := Strings.Split(hostname, '.');
      var subdomain := if |parts| > 1 then parts[0] else "demo";
      "http://" + subdomain + ".localhost"
    else "https://" + hostname
  }

  predicate StartsWith(s: string, prefix: string) {
    prefix <= s
  }

  /** The scheme is always `http://` or `https://`, and it is `http://` exactly for development hosts. */
  lemma BaseUrlScheme(hostname: string)
    ensures StartsWith(BaseUrl(hostname), "http://") || StartsWith(BaseUrl(hostname), "https://")
    ensures StartsWith(BaseUrl(hostname), "http://") <==> Strings.Includes(hostname, "localhost")
  {
    var url := BaseUrl(hostname);
    if !Strings.Includes(hostname, "localhost") {
      assert url[4] == 's';
    }
  }

  /** A development host `<sub>.localhost...` keeps its first label and stays on plain HTTP. */
  lemma DevelopmentSubdomain(sub: string, rest: string)
    requires '.' !in sub
    ensures BaseUrl(sub + ".localhost" + rest) == "http://" + sub + ".localhost"
  {
    var host := sub + ".localhost" + rest;
    assert host[|sub| + 1..|sub| + 10] == "localhost";
    assert Strings.OccursAt(host, "localhost", |sub| + 1);
    var i := Strings.IndexOf(host, '.');
    assert host[|sub|] == '.';
    assert host[..i] == sub;
  }

  /** A bare `localhost` falls back to the `demo` subdomain. */
  lemma BareLocalhostExample()
    ensures BaseUrl("localhost") == "http://demo.localhost"
  {
    var host := "localhost";
    assert Strings.OccursAt(host, host, 0);
    assert Strings.Includes(host, "localhost");
    assert '.' !in host by {
      forall i | 0 <= i < |host| ensures host[i] != '.' {
      }
    }
  }

  /** A production host is addressed over HTTPS as it is. */
  lemma ProductionHostExample()
    ensures BaseUrl("acme.org") == "https://acme.org"
  {
  }

  datatype HttpMethod = Get | Post | Delete

  /**
   * The path of `usersApi.createInvitations`: the `?count=` query is added
   * only for a count that is present and non-zero (a truthy number).
   */
  function InvitePath(count: Option<int>): (path: string)
    ensures count.Some? && count.value != 0 ==>
      path == "/api/users/invite-code/?count=" + Strings.IntToDecimal(count.value)
    ensures count.None? || count.value == 0 ==> path == "/api/users/invite-code/"
  {
    "/api/users/invite-code/" + (if count.Some? && count.value != 0 then "?count=" + Strings.IntToDecimal(count.value) else "")
  }

  /** The query, when present, reads back as the count it was built from. */
  lemma {:induction false} InviteCountRoundTrip(n: nat)
    requires n != 0
    ensures var path := InvitePath(Some(n));
      var prefix := "/api/users/invite-code/?count=";
      prefix <= path && forall i :: |prefix| <= i < |path| ==> Strings.IsDigit(path[i])
    ensures var digits := InvitePath(Some(n))[|"/api/users/invite-code/?count="|..];
      (forall i :: 0 <= i < |digits| ==> Strings.IsDigit(digits[i])) && Strings.DecimalValue(digits) == n
  {
    var prefix := "/api/users/invite-code/?count=";
    var digits := Strings.NatToDecimal(n);
    assert InvitePath(Some(n)) == prefix + digits;
    assert (prefix + digits)[|prefix|..] == digits;
  }

  /** One outgoing request as the axios interceptor receives and may alter it. */
  class RequestConfig {
    const verb: HttpMethod
    const baseUrl: string
    const url: string
    const data: map<string, string>
    const withCredentials: bool
    var headers: map<string, string>

    constructor (verb: HttpMethod, baseUrl: string, url: string, data: map<string, string>, headers: map<string, string>)
      ensures this.verb == verb && this.baseUrl == baseUrl && this.url == url && this.data == data
      ensures this.headers == headers && withCredentials
    {
      this.verb := verb;
      this.baseUrl := baseUrl;
      this.url := url;
      this.data := data;
      this.headers := headers;
      withCredentials := true;
    }
  }

  /** The headers every request starts with. */
  const DefaultHeaders: map<string, string> := map["Content-Type" := "application/json"]

  /** The shared `apiClient`: its base address is computed once, its token is read per request. */
  class ApiClient {
    const baseUrl: string
    const session: Session.SessionStorage

    constructor (hostname: string, session: Session.SessionStorage)
      ensures baseUrl == BaseUrl(hostname) && this.session == session
    {
      baseUrl := BaseUrl(hostname);
      this.session := session;
    }

    /**
     * The request interceptor: with a non-empty stored token it sets
     * `Authorization: Bearer <token>`, overwriting any earlier value; without
     * one the headers stay as they are. No other part of the request changes.
     */
    method Intercept(config: RequestConfig)
      modifies config`headers
      ensures Session.Truthy(session.accessToken) ==>
        config.headers == old(config.headers)["Authorization" := "Bearer " + session.accessToken.value]
      ensures !Session.Truthy(session.accessToken) ==> config.headers == old(config.headers)
    {
      var token := session.accessToken;
      if Session.Truthy(token) {
        config.headers := config.headers["Authorization" := "Bearer " + token.value];
      }
    }

    /** A request built on the client's base address and passed through the interceptor. */
    method Request(verb: HttpMethod, url: string, data: map<string, string>) returns (config: RequestConfig)
      ensures fresh(config)
      ensures config.verb == verb && config.baseUrl == baseUrl && config.url == url && config.data == data
      ensures config.withCredentials
      ensures Session.Truthy(session.accessToken) ==>
        config.headers == DefaultHeaders["Authorization" := "Bearer " + session.accessToken.value]
      ensures !Session.Truthy(session.accessToken) ==> config.headers == DefaultHeaders
    {
      config := new RequestConfig(verb, baseUrl, url, data, DefaultHeaders);
      Intercept(config);
    }

    /** `usersApi.createInvitations(role, count)`: a POST of `{role}` to the invitation path. */
    method CreateInvitations(role: string, count: Option<int>) returns (config: RequestConfig)
      ensures fresh(config)
      ensures config.verb == Post && config.baseUrl == baseUrl
      ensures config.url == InvitePath(count) && config.data == map["role" := role]
      ensures Session.Truthy(session.accessToken) ==>
        config.headers == DefaultHeaders["Authorization" := "Bearer " + session.accessToken.value]
      ensures !Session.Truthy(session.accessToken) ==> config.headers == DefaultHeaders
    {
      config := Request(Post, InvitePath(count), map["role" := role]);
    }
  }
}
