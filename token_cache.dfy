/**
 * The bearer-token cache of `Authentication` in src/auth.ts: a request
 * interceptor owning one slot (token, expiry). For every outgoing request it
 * either reuses the cached token or asks the credentials provider, performs one
 * token exchange and stores the new token before attaching it.
 *
 * The clock, the provider's answer and the token endpoint's answer are inputs:
 * `now` is the clock read by the freshness check, `refreshedAt` the clock read
 * after the exchange when the expiry is computed (both in milliseconds).
 */
module TokenCache {
  import opened Wrappers
  import opened Credentials

  type Headers = map<string, string>

  const AuthorizationHeader: string := "Authorization"
  const TokenPath: string := "/security/users/authenticate"
  const GrantClientCredentials: string := "client_credentials"
  const FormContentType: string := "application/x-www-form-urlencoded"

  /**
   * The base URL the client hands to the authenticator (src/client.ts:40):
   * the configured auth URL unless it is unset or empty, else the API base URL.
   */
  function AuthBaseUrl(baseUrl: string, authUrl: Option<string>): (r: string)
    ensures authUrl.Some? && authUrl.value != "" ==> r == authUrl.value
    ensures authUrl.None? || authUrl.value == "" ==> r == baseUrl
  {
    if authUrl.Some? && authUrl.value != "" then authUrl.value else baseUrl
  }

  /** The JSON body of a successful token exchange; `expiresIn` is in seconds. */
  datatype TokenResponse = TokenResponse(accessToken: string, expiresIn: nat, tokenType: string)

  /** The POST sent to the token endpoint: URL, form fields in order, headers, response type. */
  datatype ExchangeRequest = ExchangeRequest(
    url: string,
    form: seq<(string, string)>,
    headers: Headers,
    responseType: string)

  /** The external calls an interception may issue, in the order issued. */
  datatype ExternalCall = ProviderCall | TokenExchange(request: ExchangeRequest)

  datatype AuthError =
    | CredentialsError(message: string)  // the provider rejected
    | AuthFailure(message: string)       // the token exchange rejected

  /** The closure-captured slot: both halves start unset. */
  datatype CacheState = CacheState(token: Option<string>, expires: Option<int>)

  const Initial: CacheState := CacheState(None, None)

  /** The reuse test: a truthy (non-empty) token whose expiry lies strictly after now. */
  predicate Reusable(s: CacheState, now: int) {
    s.token.Some? && s.token.value != "" && s.expires.Some? && s.expires.value > now
  }

  function Bearer(token: string): string {
    "Bearer " + token
  }

  function ExchangeRequestFor(authUrl: string, userAgent: string, c: ClientCredentials): ExchangeRequest {
    ExchangeRequest(
      authUrl + TokenPath,
      [("client_id", c.clientId), ("client_secret", c.clientSecret), ("grant_type", GrantClientCredentials)],
      map["User-Agent" := userAgent, "Content-Type" := FormContentType],
      "json")
  }

  /** The names of an encoded form, in order. */
  function FormKeys(form: seq<(string, string)>): (ks: seq<string>)
    ensures |ks| == |form|
    ensures forall i :: 0 <= i < |form| ==> ks[i] == form[i].0
  {
    if form == [] then [] else [form[0].0] + FormKeys(form[1..])
  }

  /** What a form decoder reads back for `key`: the first value under that name. */
  function FormGet(form: seq<(string, string)>, key: string): (r: Option<string>)
    ensures r.None? <==> key !in FormKeys(form)
    ensures r.Some? ==> (key, r.value) in form
  {
    if form == [] then None
    else if form[0].0 == key then Some(form[0].1)
    else FormGet(form[1..], key)
  }

  /** The token exchange carries exactly the provider's credentials and the client-credentials grant. */
  lemma ExchangeRequestShape(authUrl: string, userAgent: string, c: ClientCredentials)
    ensures var x := ExchangeRequestFor(authUrl, userAgent, c);
      && x.url == authUrl + "/security/users/authenticate"
      && FormKeys(x.form) == ["client_id", "client_secret", "grant_type"]
      && FormGet(x.form, "client_id") == Some(c.clientId)
      && FormGet(x.form, "client_secret") == Some(c.clientSecret)
      && FormGet(x.form, "grant_type") == Some("client_credentials")
      && x.headers.Keys == {"User-Agent", "Content-Type"}
      && x.headers["User-Agent"] == userAgent
      && x.headers["Content-Type"] == "application/x-www-form-urlencoded"
  {
  }

  /** How many token exchanges a list of calls holds. */
  function ExchangeCount(calls: seq<ExternalCall>): (n: nat)
    ensures n <= |calls|
    ensures n == 0 <==> forall i :: 0 <= i < |calls| ==> !calls[i].TokenExchange?
  {
    if calls == [] then 0
    else (if calls[0].TokenExchange? then 1 else 0) + ExchangeCount(calls[1..])
  }

  /** Everything one interception produces. */
  datatype StepOutcome = StepOutcome(
    state: CacheState,                 // the cache slot afterwards
    headers: Headers,                  // the request's header collection afterwards
    result: Result<(), AuthError>,     // resolved with the request, or rejected
    calls: seq<ExternalCall>)          // provider calls and token exchanges issued

  /** One interception of a request whose header collection was `headers` (None: absent). */
  function Step(
    authUrl: string, userAgent: string, s: CacheState, headers: Option<Headers>,
    now: int, refreshedAt: int,
    provided: Result<ClientCredentials, string>, exchanged: Result<TokenResponse, string>
  ): (o: StepOutcome)
    // Only the Authorization header is ever written; a missing collection is created empty.
    ensures o.headers - {AuthorizationHeader} == headers.GetOr(map[]) - {AuthorizationHeader}
    // A resolved request carries the bearer header of the token now cached.
    ensures o.result.Ok? ==>
      o.state.token.Some? && AuthorizationHeader in o.headers && o.headers[AuthorizationHeader] == Bearer(o.state.token.value)
    // A rejected request leaves both the cache and the headers as they were.
    ensures o.result.Err? ==> o.state == s && o.headers == headers.GetOr(map[])
    // Cache hit: nothing external happens and the state is unchanged.
    ensures Reusable(s, now) ==> o.calls == [] && o.state == s && o.result.Ok?
    // Cache miss: the provider is asked first, and at most one exchange follows.
    ensures !Reusable(s, now) ==> |o.calls| >= 1 && o.calls[0] == ProviderCall
    ensures ExchangeCount(o.calls) == (if Reusable(s, now) || provided.Err? then 0 else 1)
    // A token freshly known to be valid is the only one attached without an exchange.
    ensures o.result.Ok? && ExchangeCount(o.calls) == 0 ==> Reusable(s, now) && o.state == s
    ensures !Reusable(s, now) && provided.Err? ==>
      o.calls == [ProviderCall] && o.result == Err(CredentialsError(provided.error))
    ensures !Reusable(s, now) && provided.Ok? ==>
      o.calls == [ProviderCall, TokenExchange(ExchangeRequestFor(authUrl, userAgent, provided.value))]
    ensures !Reusable(s, now) && provided.Ok? && exchanged.Err? ==> o.result == Err(AuthFailure(exchanged.error))
    // Successful refresh: the new token replaces the old, expiring expiresIn seconds after refreshedAt.
    ensures !Reusable(s, now) && provided.Ok? && exchanged.Ok? ==>
      o.result.Ok? &&
      o.state == CacheState(Some(exchanged.value.accessToken), Some(refreshedAt + exchanged.value.expiresIn * 1000))
  {
    var h := headers.GetOr(map[]);
    if Reusable(s, now) then
      StepOutcome(s, h[AuthorizationHeader := Bearer(s.token.value)], Ok(()), [])
    else match provided
      case Err(m) => StepOutcome(s, h, Err(CredentialsError(m)), [ProviderCall])
      case Ok(c) =>
        var x := ExchangeRequestFor(authUrl, userAgent, c);
        match exchanged
        case Err(m) => StepOutcome(s, h, Err(AuthFailure(m)), [ProviderCall, TokenExchange(x)])
        case Ok(r) =>
          var s' := CacheState(Some(r.accessToken), Some(refreshedAt + r.expiresIn * 1000));
          StepOutcome(s', h[AuthorizationHeader := Bearer(r.accessToken)], Ok(()), [ProviderCall, TokenExchange(x)])
  }

  /** One intercepted request together with what the outside world answered. */
  datatype Event = Event(
    headers: Option<Headers>,
    now: int,
    refreshedAt: int,
    provided: Result<ClientCredentials, string>,
    exchanged: Result<TokenResponse, string>)

  function Apply(authUrl: string, userAgent: string, s: CacheState, e: Event): StepOutcome {
    Step(authUrl, userAgent, s, e.headers, e.now, e.refreshedAt, e.provided, e.exchanged)
  }

  /** Requests intercepted one after the other by one authenticator starting in state `s`. */
  function Run(authUrl: string, userAgent: string, s: CacheState, events: seq<Event>): (os: seq<StepOutcome>)
    ensures |os| == |events|
    decreases |events|
  {
    if events == [] then []
    else
      var o := Apply(authUrl, userAgent, s, events[0]);
      [o] + Run(authUrl, userAgent, o.state, events[1..])
  }

  /** Token exchanges issued over a run. */
  function TotalExchanges(os: seq<StepOutcome>): nat {
    if os == [] then 0 else ExchangeCount(os[0].calls) + TotalExchanges(os[1..])
  }

  /**
   * While every request comes before the expiry of a non-empty cached token,
   * each one is sent with that token, nothing external happens, and the cache
   * keeps its state.
   */
  lemma {:induction false} ReuseWhileFresh(authUrl: string, userAgent: string, s: CacheState, events: seq<Event>)
    requires forall i :: 0 <= i < |events| ==> Reusable(s, events[i].now)
    ensures var os := Run(authUrl, userAgent, s, events);
      && TotalExchanges(os) == 0
      && forall i :: 0 <= i < |os| ==>
           os[i].state == s && os[i].calls == [] && os[i].result.Ok? &&
           AuthorizationHeader in os[i].headers && os[i].headers[AuthorizationHeader] == Bearer(s.token.value)
  {
    if events != [] {
      var os := Run(authUrl, userAgent, s, events);
      ReuseWhileFresh(authUrl, userAgent, s, events[1..]);
      assert os[1..] == Run(authUrl, userAgent, s, events[1..]);
    }
  }

  /**
   * A request that misses the cache (the first one, or any one at or after the
   * expiry) refreshes; when the exchange succeeds with a non-empty token, every
   * later request made before that token's expiry reuses it, so the whole run
   * issues exactly one exchange and the new token replaces the old one in the
   * cache and in every header.
   */
  lemma {:induction false} OneExchangePerWindow(authUrl: string, userAgent: string, s: CacheState, events: seq<Event>)
    requires |events| >= 1
    requires !Reusable(s, events[0].now)
    requires events[0].provided.Ok? && events[0].exchanged.Ok?
    requires events[0].exchanged.value.accessToken != ""
    requires forall i :: 1 <= i < |events| ==>
      events[i].now < events[0].refreshedAt + events[0].exchanged.value.expiresIn * 1000
    ensures var os := Run(authUrl, userAgent, s, events);
      && os[0].calls[0] == ProviderCall
      && TotalExchanges(os) == 1
      && forall i :: 0 <= i < |os| ==>
           os[i].result.Ok? && os[i].state.token == Some(events[0].exchanged.value.accessToken) &&
           AuthorizationHeader in os[i].headers &&
           os[i].headers[AuthorizationHeader] == Bearer(events[0].exchanged.value.accessToken)
  {
    var os := Run(authUrl, userAgent, s, events);
    var first := os[0];
    var rest := events[1..];
    forall i | 0 <= i < |rest| ensures Reusable(first.state, rest[i].now) {
      assert rest[i] == events[i + 1];
    }
    ReuseWhileFresh(authUrl, userAgent, first.state, rest);
    assert os[1..] == Run(authUrl, userAgent, first.state, rest);
    assert TotalExchanges(os) == ExchangeCount(first.calls) + TotalExchanges(os[1..]);
  }

  /**
   * From the initial empty state the first request always refreshes, and a run
   * within the new token's lifetime issues exactly one exchange.
   */
  lemma OneExchangeWithinWindow(authUrl: string, userAgent: string, events: seq<Event>)
    requires |events| >= 1
    requires events[0].provided.Ok? && events[0].exchanged.Ok?
    requires events[0].exchanged.value.accessToken != ""
    requires forall i :: 1 <= i < |events| ==>
      events[i].now < events[0].refreshedAt + events[0].exchanged.value.expiresIn * 1000
    ensures var os := Run(authUrl, userAgent, Initial, events);
      && os[0].calls[0] == ProviderCall
      && TotalExchanges(os) == 1
      && forall i :: 0 <= i < |os| ==>
           os[i].result.Ok? && AuthorizationHeader in os[i].headers &&
           os[i].headers[AuthorizationHeader] == Bearer(events[0].exchanged.value.accessToken)
  {
    OneExchangePerWindow(authUrl, userAgent, Initial, events);
  }

  /**
   * Once the clock reaches the stored expiry, a request whose provider and
   * exchange succeed issues exactly one exchange, and its token replaces the old one.
   */
  lemma RefreshOnExpiry(
    authUrl: string, userAgent: string, s: CacheState, e: Event)
    requires s.expires.Some? && e.now >= s.expires.value
    requires e.provided.Ok? && e.exchanged.Ok?
    ensures var o := Apply(authUrl, userAgent, s, e);
      && ExchangeCount(o.calls) == 1
      && o.state.token == Some(e.exchanged.value.accessToken)
      && o.headers[AuthorizationHeader] == Bearer(e.exchanged.value.accessToken)
  {
  }

  /** An empty cached token is never reused, whatever its expiry. */
  lemma EmptyTokenNeverReused(authUrl: string, userAgent: string, expires: Option<int>, e: Event)
    ensures Apply(authUrl, userAgent, CacheState(Some(""), expires), e).calls[0] == ProviderCall
  {
  }

  /**
   * With the environment provider and its client id unset, the request is
   * rejected naming the variable, and no token exchange is attempted.
   */
  lemma EnvProviderFailureShortCircuits(
    authUrl: string, userAgent: string, s: CacheState, e: Event, prefix: string, env: Env)
    requires !Reusable(s, e.now)
    requires e.provided == Invoke(EnvCredentials(prefix), env)
    requires !IsSet(env, IdVar(prefix))
    ensures var o := Apply(authUrl, userAgent, s, e);
      && ExchangeCount(o.calls) == 0
      && o.result == Err(CredentialsError("Client ID not set in " + prefix + "_CLIENT_ID"))
      && o.state == s
  {
    assert IdMissing(prefix) == "Client ID not set in " + prefix + "_CLIENT_ID";
  }

  /**
   * The token exchange of an authenticator built from a client configuration
   * goes to the chosen base URL followed by the token path.
   */
  lemma ExchangeGoesToConfiguredUrl(
    baseUrl: string, authUrl: Option<string>, userAgent: string, s: CacheState, e: Event)
    requires !Reusable(s, e.now) && e.provided.Ok?
    ensures var o := Apply(AuthBaseUrl(baseUrl, authUrl), userAgent, s, e);
      && |o.calls| == 2 && o.calls[1].TokenExchange?
      && o.calls[1].request.url == (if authUrl.Some? && authUrl.value != "" then authUrl.value else baseUrl) + TokenPath
  {
  }

  /** A request as the interceptor sees it: only its header collection is touched. */
  class InterceptedRequest {
    var headers: Option<Headers>
    var url: string
    var verb: string
    var data: string

    constructor (headers: Option<Headers>, url: string, verb: string, data: string)
      ensures this.headers == headers && this.url == url && this.verb == verb && this.data == data
    {
      this.headers := headers;
      this.url := url;
      this.verb := verb;
      this.data := data;
    }
  }

  /** The interceptor returned by `Authentication(baseUrl, provider)`, with its private cache slot. */
  class Authenticator {
    const authUrl: string
    const userAgent: string
    var token: Option<string>
    var tokenExpires: Option<int>

    function State(): CacheState
      reads this
    {
      CacheState(token, tokenExpires)
    }

    constructor (authUrl: string, userAgent: string)
      ensures this.authUrl == authUrl && this.userAgent == userAgent
      ensures State() == Initial
    {
      this.authUrl := authUrl;
      this.userAgent := userAgent;
      token := None;
      tokenExpires := None;
    }

    /**
     * Intercept one request. The request's other fields are outside the frame,
     * so they cannot change.
     */
    method Intercept(
      req: InterceptedRequest, now: int, refreshedAt: int,
      provided: Result<ClientCredentials, string>, exchanged: Result<TokenResponse, string>
    ) returns (result: Result<(), AuthError>, calls: seq<ExternalCall>)
      modifies this, req`headers
      ensures var o := Step(authUrl, userAgent, old(State()), old(req.headers), now, refreshedAt, provided, exchanged);
        && State() == o.state
        && req.headers == Some(o.headers)
        && result == o.result
        && calls == o.calls
    {
      if req.headers.None? {
        req.headers := Some(map[]);
      }
      if token.Some? && token.value != "" && tokenExpires.Some? && tokenExpires.value > now {
        req.headers := Some(req.headers.value[AuthorizationHeader := Bearer(token.value)]);
        return Ok(()), [];
      }

      calls := [ProviderCall];
      if provided.Err? {
        return Err(CredentialsError(provided.error)), calls;
      }
      var credentials := provided.value;

      var request := ExchangeRequestFor(authUrl, userAgent, credentials);
      calls := calls + [TokenExchange(request)];
      if exchanged.Err? {
        return Err(AuthFailure(exchanged.error)), calls;
      }

      token := Some(exchanged.value.accessToken);
      tokenExpires := Some(refreshedAt + exchanged.value.expiresIn * 1000);

      req.headers := Some(req.headers.value[AuthorizationHeader := Bearer(token.value)]);
      result := Ok(());
    }
  }

  /**
   * What the client constructor installs as its request interceptor
   * (src/client.ts:40-42): an authenticator bound to the chosen auth URL.
   */
  method NewAuthenticator(baseUrl: string, authUrl: Option<string>, userAgent: string) returns (a: Authenticator)
    ensures fresh(a)
    ensures a.authUrl == AuthBaseUrl(baseUrl, authUrl) && a.userAgent == userAgent
    ensures a.State() == Initial
  {
    var chosen := AuthBaseUrl(baseUrl, authUrl);
    a := new Authenticator(chosen, userAgent);
  }
}
