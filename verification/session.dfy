/**
 * The bearer-token session policy of the HTTP client module: `initAxiosApi`
 * decides what happens to the stored token and builds a fresh client; the
 * request interceptor copies the stored token into every outgoing request; the
 * response interceptor forgets the stored token when a request comes back 401.
 *
 * The device's secure storage is a map from key to value (class `SecureStore`),
 * a client is a record of its defaults (`ClientConfig`), and a request on its
 * way out is an object whose headers the interceptor overwrites in place
 * (`RequestConfig`). The values `SessionState`, `Step` and `Run` describe the
 * same behaviour without the heap, and the class `Api` is proved against them.
 */
module Session {
  import opened Wrappers

  /** The one secure-storage key this module uses. */
  const AuthTokenKey: string := "authToken"
  const AuthorizationHeader: string := "Authorization"
  /** The `Bearer <token>` form of the header value, up to the token. */
  const BearerPrefix: string := "Bearer "
  /** Every client's request timeout, in milliseconds. */
  const TimeoutMs: nat := 60000
  /** The query parameter every client adds to mark requests from the app. */
  const IsMobileParam: string := "is_mobile"

  /** JavaScript truthiness of a `string | null`: `null` and `""` are false. */
  predicate Truthy(t: Option<string>) {
    t.Some? && t.value != ""
  }

  function Lookup(m: map<string, string>, key: string): Option<string> {
    if key in m then Some(m[key]) else None
  }

  // ---------------------------------------------------------------- headers

  /** The `Authorization` value that presents token `t` (`Bearer <token>`). */
  function Bearer(t: string): (h: string)
    ensures |h| == |BearerPrefix| + |t|
    ensures h[..|BearerPrefix|] == BearerPrefix && h[|BearerPrefix|..] == t
  {
    BearerPrefix + t
  }

  /** Left inverse of `Bearer`: the text after a leading `Bearer ` prefix. */
  function BearerCredential(h: string): (r: Option<string>)
    ensures r.Some? ==> h == Bearer(r.value)
    ensures r.None? ==> forall t :: h != Bearer(t)
  {
    if |h| >= |BearerPrefix| && h[..|BearerPrefix|] == BearerPrefix then
      assert h == BearerPrefix + h[|BearerPrefix|..];
      Some(h[|BearerPrefix|..])
    else
      None
  }

  /** Every token survives the trip through its `Authorization` value. */
  lemma BearerRoundTrip(t: string)
    ensures BearerCredential(Bearer(t)) == Some(t)
  {
  }

  // ------------------------------------------------------- initialisation

  /** The argument of `initAxiosApi`; both fields may be omitted. */
  datatype ApiConfigParams = ApiConfigParams(isLoggedIn: Option<bool>, token: Option<string>)
  {
    /** An omitted `isLoggedIn` defaults to false. */
    predicate LoggedIn() {
      isLoggedIn.GetOr(false)
    }

    /** Logged in with a non-empty token: the case that saves the token and bakes in a header. */
    predicate SavesToken() {
      LoggedIn() && Truthy(token)
    }
  }

  /** What `initAxiosApi` leaves in secure storage. */
  function StoreAfterInit(items: map<string, string>, p: ApiConfigParams): (r: map<string, string>)
    ensures forall k :: k != AuthTokenKey ==> Lookup(r, k) == Lookup(items, k)
    ensures p.SavesToken() ==> Lookup(r, AuthTokenKey) == p.token
    ensures !p.LoggedIn() ==> Lookup(r, AuthTokenKey) == None
    ensures p.LoggedIn() && !Truthy(p.token) ==> r == items
  {
    if p.SavesToken() then items[AuthTokenKey := p.token.value]
    else if !p.LoggedIn() then items - {AuthTokenKey}
    else items
  }

  /** The defaults of one client. */
  datatype ClientConfig = ClientConfig(
    baseURL: string,
    timeout: nat,
    params: map<string, bool>,
    headers: map<string, string>)

  /**
   * The base URL is the environment's API URL put through a template string,
   * so an unset variable becomes the text "undefined".
   */
  function BaseUrl(apiUrl: Option<string>): (u: string)
    ensures apiUrl.Some? ==> u == apiUrl.value
    ensures apiUrl.None? ==> u == "undefined"
  {
    apiUrl.GetOr("undefined")
  }

  /** The client `initAxiosApi` creates. */
  function CreateClient(p: ApiConfigParams, apiUrl: Option<string>): (c: ClientConfig)
    ensures c.baseURL == BaseUrl(apiUrl) && c.timeout == TimeoutMs
    ensures c.params == map[IsMobileParam := true]
    ensures c.headers.Keys <= {AuthorizationHeader}
    ensures Lookup(c.headers, AuthorizationHeader).Some? <==> p.SavesToken()
    ensures p.SavesToken() ==> Lookup(c.headers, AuthorizationHeader) == Some(Bearer(p.token.value))
  {
    ClientConfig(
      BaseUrl(apiUrl),
      TimeoutMs,
      map[IsMobileParam := true],
      if p.SavesToken() then map[AuthorizationHeader := Bearer(p.token.value)] else map[])
  }

  // ------------------------------------------------------------- requests

  datatype HttpMethod = Get | Post | Put | Patch | Delete

  /** What a caller passes when it issues a request. */
  datatype Request = Request(
    verb: HttpMethod,
    url: string,
    headers: map<string, string>,
    data: Option<string>)

  /**
   * The request interceptor's rule: a truthy stored token replaces whatever
   * `Authorization` the request had; every other header stays as it was.
   */
  function WithStoredToken(headers: map<string, string>, stored: Option<string>): (r: map<string, string>)
    ensures forall k :: k != AuthorizationHeader ==> Lookup(r, k) == Lookup(headers, k)
    ensures Truthy(stored) ==> Lookup(r, AuthorizationHeader) == Some(Bearer(stored.value))
    ensures !Truthy(stored) ==> r == headers
  {
    if Truthy(stored) then headers[AuthorizationHeader := Bearer(stored.value)] else headers
  }

  // ------------------------------------------------------------ responses

  datatype Response = Response(status: int, data: string)

  /** A failed request; `response` is absent when no response arrived at all. */
  datatype AxiosError = AxiosError(message: string, response: Option<Response>)
  {
    function Unauthorized(): (r: bool)
      ensures r ==> response.Some?
      ensures response.Some? ==> (r <==> response.value.status == 401)
    {
      response.Some? && response.value.status == 401
    }
  }

  /** How a request settled: the value its promise resolved or rejected with. */
  datatype Settled = Fulfilled(response: Response) | Rejected(error: AxiosError)
  {
    predicate Unauthorized() {
      Rejected? && error.Unauthorized()
    }
  }

  /** What the response interceptor leaves in secure storage. */
  function StoreAfterResponse(items: map<string, string>, o: Settled): (r: map<string, string>)
    ensures forall k :: k != AuthTokenKey ==> Lookup(r, k) == Lookup(items, k)
    ensures o.Unauthorized() ==> Lookup(r, AuthTokenKey) == None
    ensures !o.Unauthorized() ==> r == items
  {
    if o.Unauthorized() then items - {AuthTokenKey} else items
  }

  // ------------------------------------------------------ session as values

  /** Secure storage and the current client (`None` before the first `initAxiosApi`). */
  datatype SessionState = SessionState(items: map<string, string>, client: Option<ClientConfig>)

  datatype Event =
    | Init(params: ApiConfigParams, apiUrl: Option<string>)
    | Send(request: Request)
    | Settle(outcome: Settled)

  function Step(s: SessionState, e: Event): SessionState {
    match e
    case Init(p, u) => SessionState(StoreAfterInit(s.items, p), Some(CreateClient(p, u)))
    case Send(_) => s
    case Settle(o) => s.(items := StoreAfterResponse(s.items, o))
  }

  function Run(s: SessionState, es: seq<Event>): SessionState
    decreases |es|
  {
    if es == [] then s else Run(Step(s, es[0]), es[1..])
  }

  /**
   * The headers a request goes out with: the client's defaults under the
   * request's own headers, then the request interceptor. `None` when no client
   * has been created yet.
   * For `Authorization` this is a three-level precedence: the stored token,
   * then the caller's header, then the client's default.
   */
  function Dispatch(s: SessionState, req: Request): (r: Option<map<string, string>>)
    ensures r.Some? <==> s.client.Some?
    ensures r.Some? ==> forall k :: k != AuthorizationHeader ==>
      Lookup(r.value, k) == (if k in req.headers then Some(req.headers[k]) else Lookup(s.client.value.headers, k))
    ensures r.Some? ==> (
      Lookup(r.value, AuthorizationHeader) ==
        if Truthy(Lookup(s.items, AuthTokenKey)) then Some(Bearer(s.items[AuthTokenKey]))
        else if AuthorizationHeader in req.headers then Some(req.headers[AuthorizationHeader])
        else Lookup(s.client.value.headers, AuthorizationHeader))
  {
    match s.client
    case None => None
    case Some(c) => Some(WithStoredToken(c.headers + req.headers, Lookup(s.items, AuthTokenKey)))
  }

  /** At request time the stored token wins over any baked-in or per-request header. */
  lemma StoredTokenWins(s: SessionState, req: Request)
    requires s.client.Some? && Truthy(Lookup(s.items, AuthTokenKey))
    ensures Dispatch(s, req).Some?
    ensures Lookup(Dispatch(s, req).value, AuthorizationHeader)
         == Some(Bearer(s.items[AuthTokenKey]))
    ensures BearerCredential(Dispatch(s, req).value[AuthorizationHeader]) == Some(s.items[AuthTokenKey])
  {
    BearerRoundTrip(s.items[AuthTokenKey]);
  }

  /** Without a stored token the request keeps the headers it was built with. */
  lemma NoStoredTokenKeepsHeaders(s: SessionState, req: Request)
    requires s.client.Some? && !Truthy(Lookup(s.items, AuthTokenKey))
    ensures Dispatch(s, req) == Some(s.client.value.headers + req.headers)
  {
  }

  /** An event that neither forgets nor replaces the stored token `t`. */
  predicate KeepsToken(e: Event, t: string) {
    match e
    case Init(p, _) => p.LoggedIn() && (Truthy(p.token) ==> p.token == Some(t))
    case Send(_) => true
    case Settle(o) => !o.Unauthorized()
  }

  lemma {:induction false} TokenSurvives(s: SessionState, es: seq<Event>, t: string)
    requires Lookup(s.items, AuthTokenKey) == Some(t) && s.client.Some?
    requires forall i :: 0 <= i < |es| ==> KeepsToken(es[i], t)
    ensures Lookup(Run(s, es).items, AuthTokenKey) == Some(t) && Run(s, es).client.Some?
    decreases |es|
  {
    if es != [] {
      TokenSurvives(Step(s, es[0]), es[1..], t);
    }
  }

  /**
   * After `initAxiosApi({isLoggedIn: true, token: t})` with a non-empty `t`,
   * and as long as no 401 arrives and no later initialisation logs out or
   * saves another token, every request is sent with `Bearer t`.
   */
  lemma LoginRoundTrip(s: SessionState, t: string, apiUrl: Option<string>, es: seq<Event>, req: Request)
    requires t != ""
    requires forall i :: 0 <= i < |es| ==> KeepsToken(es[i], t)
    ensures var s' := Run(Step(s, Init(ApiConfigParams(Some(true), Some(t)), apiUrl)), es);
      && Dispatch(s', req).Some?
      && Lookup(Dispatch(s', req).value, AuthorizationHeader) == Some(Bearer(t))
  {
    TokenSurvives(Step(s, Init(ApiConfigParams(Some(true), Some(t)), apiUrl)), es, t);
  }

  /** A state in which nothing would put a credential on an outgoing request. */
  predicate Anonymous(s: SessionState) {
    && Lookup(s.items, AuthTokenKey) == None
    && s.client.Some?
    && AuthorizationHeader !in s.client.value.headers
  }

  lemma {:induction false} AnonymousSurvives(s: SessionState, es: seq<Event>)
    requires Anonymous(s)
    requires forall i :: 0 <= i < |es| ==> !(es[i].Init? && es[i].params.SavesToken())
    ensures Anonymous(Run(s, es))
    decreases |es|
  {
    if es != [] {
      AnonymousSurvives(Step(s, es[0]), es[1..]);
    }
  }

  /**
   * After `initAxiosApi` without `isLoggedIn` (omitted or false), and until an
   * initialisation saves a token, a request goes out without `Authorization`
   * unless its caller set one.
   */
  lemma LoggedOutRequestsCarryNoCredential(
    s: SessionState, p: ApiConfigParams, apiUrl: Option<string>, es: seq<Event>, req: Request)
    requires !p.LoggedIn()
    requires forall i :: 0 <= i < |es| ==> !(es[i].Init? && es[i].params.SavesToken())
    requires AuthorizationHeader !in req.headers
    ensures var s' := Run(Step(s, Init(p, apiUrl)), es);
      Dispatch(s', req).Some? && AuthorizationHeader !in Dispatch(s', req).value
  {
    AnonymousSurvives(Step(s, Init(p, apiUrl)), es);
  }

  /**
   * A 401 forgets the stored token but not the header baked into the current
   * client: the next request still goes out with the old token.
   */
  lemma BakedHeaderOutlivesUnauthorized(
    s: SessionState, t: string, apiUrl: Option<string>, e: AxiosError, req: Request)
    requires t != "" && e.Unauthorized() && AuthorizationHeader !in req.headers
    ensures var s' := Step(Step(s, Init(ApiConfigParams(Some(true), Some(t)), apiUrl)), Settle(Rejected(e)));
      && Lookup(s'.items, AuthTokenKey) == None
      && Dispatch(s', req) == Some(map[AuthorizationHeader := Bearer(t)] + req.headers)
  {
  }

  // ------------------------------------------------------------ the heap

  /** The device's secure storage, as a map from key to value. */
  class SecureStore {
    var items: map<string, string>

    constructor (initial: map<string, string>)
      ensures items == initial
    {
      items := initial;
    }

    method SetItemAsync(key: string, value: string)
      modifies this
      ensures items == old(items)[key := value]
    {
      items := items[key := value];
    }

    /** Deleting a missing key is not an error. */
    method DeleteItemAsync(key: string)
      modifies this
      ensures items == old(items) - {key}
    {
      items := items - {key};
    }

    method GetItemAsync(key: string) returns (v: Option<string>)
      ensures v.Some? <==> key in items
      ensures v.Some? ==> v.value == items[key]
    {
      v := if key in items then Some(items[key]) else None;
    }
  }

  /** A request on its way out, built from the client's defaults and the caller's request. */
  class RequestConfig {
    var verb: HttpMethod
    var url: string
    var baseURL: string
    var timeout: nat
    var params: map<string, bool>
    var headers: map<string, string>
    var data: Option<string>

    constructor (c: ClientConfig, req: Request)
      ensures verb == req.verb && url == req.url && data == req.data
      ensures baseURL == c.baseURL && timeout == c.timeout && params == c.params
      ensures headers == c.headers + req.headers
    {
      verb, url, data := req.verb, req.url, req.data;
      baseURL, timeout, params := c.baseURL, c.timeout, c.params;
      headers := c.headers + req.headers;
    }
  }

  /** The module's state: the exported client, and the secure storage it consults. */
  class Api {
    const secureStore: SecureStore
    var axiosApi: Option<ClientConfig>

    function State(): SessionState
      reads this, secureStore
    {
      SessionState(secureStore.items, axiosApi)
    }

    constructor (store: SecureStore)
      ensures secureStore == store && axiosApi == None
    {
      secureStore := store;
      axiosApi := None;
    }

    /** `initAxiosApi(params)`, with the environment's API URL passed in. */
    method InitAxiosApi(params: ApiConfigParams, apiUrl: Option<string>)
      modifies this, secureStore
      ensures State() == Step(old(State()), Init(params, apiUrl))
      ensures Lookup(secureStore.items, AuthTokenKey)
           == if params.SavesToken() then params.token
              else if !params.LoggedIn() then None
              else Lookup(old(secureStore.items), AuthTokenKey)
    {
      var isLoggedIn := params.LoggedIn();
      var token := params.token;
      if isLoggedIn && Truthy(token) {
        secureStore.SetItemAsync(AuthTokenKey, token.value);
      } else if !isLoggedIn {
        secureStore.DeleteItemAsync(AuthTokenKey);
      }
      axiosApi := Some(CreateClient(params, apiUrl));
    }

    /** The request interceptor: overwrites `Authorization` in place when a token is stored. */
    method InterceptRequest(config: RequestConfig) returns (r: RequestConfig)
      modifies config`headers
      ensures r == config
      ensures config.headers == WithStoredToken(old(config.headers), Lookup(secureStore.items, AuthTokenKey))
    {
      var storedToken := secureStore.GetItemAsync(AuthTokenKey);
      if Truthy(storedToken) {
        config.headers := config.headers[AuthorizationHeader := Bearer(storedToken.value)];
      }
      r := config;
    }

    /**
     * Issues `req` on the current client: the configuration merged from the
     * client's defaults and the request, after the request interceptor. There
     * is no request when no client has been created yet.
     */
    method Send(req: Request) returns (sent: Option<RequestConfig>)
      ensures sent.Some? <==> axiosApi.Some?
      ensures sent.Some? ==> fresh(sent.value)
      ensures sent.Some? ==> Some(sent.value.headers) == Dispatch(State(), req)
      ensures sent.Some? ==>
        && sent.value.url == req.url && sent.value.verb == req.verb && sent.value.data == req.data
        && sent.value.baseURL == axiosApi.value.baseURL && sent.value.timeout == axiosApi.value.timeout
        && sent.value.params == axiosApi.value.params
    {
      match axiosApi
      case None =>
        sent := None;
      case Some(c) =>
        var config := new RequestConfig(c, req);
        config := InterceptRequest(config);
        sent := Some(config);
    }

    /** The response interceptor: a 401 forgets the stored token; every outcome is passed on unchanged. */
    method InterceptResponse(outcome: Settled) returns (r: Settled)
      modifies secureStore
      ensures r == outcome
      ensures State() == Step(old(State()), Settle(outcome))
    {
      if outcome.Rejected? && outcome.error.response.Some? && outcome.error.response.value.status == 401 {
        secureStore.DeleteItemAsync(AuthTokenKey);
      }
      r := outcome;
    }
  }
}
