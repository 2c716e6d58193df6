/**
  The HTTP wrapper (src/services/http-client.js): request construction (URL,
  headers, token injection, body rule), normalisation of what comes back into
  one value every caller can branch on, and classification of transport failures.
  The network call itself is an input: the `Transport` outcome of `fetch`.
 */
module HttpClient {
  import opened Text
  import opened Values
  import opened Config
  import opened Session

  const LoggedInMessage := "用户已登录"
  const NotLoggedInMessage := "用户未登录"
  const NetworkMessage := "网络连接失败，请检查网络设置"
  const TimeoutMessage := "请求超时，请稍后重试"
  const UnknownMessage := "未知错误"

  /**
    The body as the wrapper reads it. `JsonObject` and `JsonArray`: the
    Content-Type header contained `application/json` and the payload parsed to
    an object or an array. `PlainText`: any other (or no) Content-Type, with
    the payload as text.
   */
  datatype Body =
    | JsonObject(fields: map<string, Value>)
    | JsonArray(elements: seq<Value>)
    | PlainText(text: string)

  datatype Received = Received(status: nat, statusText: string, body: Body)

  /** An exception `fetch` rejects with: its `name` and `message`. */
  datatype JsError = JsError(name: string, message: string)

  /** How the network call ended. An abort by the timeout arrives as an `AbortError`. */
  datatype Transport = Responded(response: Received) | Threw(error: JsError)

  /** `response.ok`: a 2xx status. */
  predicate Ok2xx(status: int) {
    200 <= status < 300
  }

  /** The wrapper's settings, read once from the environment table. */
  datatype Client = Client(baseUrl: Option<string>, timeout: int, debug: bool)

  function ClientOf(cfg: EnvConfig): Client {
    Client(cfg.baseUrl, cfg.timeout, cfg.debug)
  }

  /** The constructor reads the environment entry the deployment tag selects:
      the external base URL, a 30 s timeout, and debugging outside production. */
  lemma ClientFromEnvironment(nodeEnv: Option<string>, ext: Externals)
    ensures ClientOf(CurrentEnvConfig(nodeEnv, ext)) ==
      Client(ext.apiBaseUrl, DefaultTimeout, SelectDeployment(nodeEnv) != Production)
    ensures nodeEnv.None? ==> ClientOf(CurrentEnvConfig(nodeEnv, ext)).debug
  {
  }

  // ---------------------------------------------------------------------------
  // Response normalisation

  /** `handleResponse(response)`. */
  function HandleResponse(r: Received): (v: Value)
    ensures v.Obj? || v.Arr?
    ensures r.body.JsonObject? && Get(Obj(r.body.fields), "success") != Undefined ==> v == Obj(r.body.fields)
    ensures r.body.JsonObject? && Get(Obj(r.body.fields), "success") == Undefined ==>
      && v.Obj? && v.fields.Keys == r.body.fields.Keys + {"success"}
      && Get(v, "success") == Bool(Ok2xx(r.status))
      && (forall k :: k in r.body.fields && k != "success" ==> v.fields[k] == r.body.fields[k])
    ensures r.body.JsonArray? ==>
      v.Arr? && v.items == r.body.elements && Get(v, "success") == Bool(Ok2xx(r.status))
    ensures r.body.PlainText? && (r.body.text == "true" || r.body.text == "false") ==>
      && Get(v, "success") == Bool(true)
      && Get(v, "data") == Bool(r.body.text == "true")
      && Get(v, "message") == Str(if r.body.text == "true" then LoggedInMessage else NotLoggedInMessage)
    ensures r.body.PlainText? && r.body.text != "true" && r.body.text != "false" ==>
      && Get(v, "success") == Bool(Ok2xx(r.status))
      && Get(v, "text") == Str(r.body.text)
      && Get(v, "message") == Str(r.body.text)
  {
    var ok := Bool(Ok2xx(r.status));
    match r.body
    case JsonObject(fields) =>
      if Get(Obj(fields), "success") != Undefined then Obj(fields) else Obj(fields["success" := ok])
    case JsonArray(elements) =>
      Arr(elements, map["success" := ok])
    case PlainText(text) =>
      if text == "true" || text == "false" then
        var b := text == "true";
        Obj(map["success" := Bool(true), "data" := Bool(b),
                "message" := Str(if b then LoggedInMessage else NotLoggedInMessage)])
      else
        Obj(map["success" := ok, "text" := Str(text), "message" := Str(text)])
  }

  /** The three transport failure classes `handleError` distinguishes. */
  datatype FailureKind = NetworkFailure | TimeoutFailure | UnknownFailure

  /** The class of a rejection: a TypeError mentioning `fetch` is a network
      failure (checked first), an AbortError a timeout, anything else unknown. */
  function Classify(e: JsError): (k: FailureKind)
    ensures k == NetworkFailure <==> e.name == "TypeError" && Contains(e.message, "fetch")
    ensures k == TimeoutFailure <==> e.name == "AbortError"
  {
    if e.name == "TypeError" && Contains(e.message, "fetch") then NetworkFailure
    else if e.name == "AbortError" then TimeoutFailure
    else UnknownFailure
  }

  function Code(k: FailureKind): string {
    match k
    case NetworkFailure => "NET_002"
    case TimeoutFailure => "NET_001"
    case UnknownFailure => "NET_003"
  }

  /** `handleError(error)`: always a failure, coded by the class of the rejection. */
  function HandleError(e: JsError): (v: Value)
    ensures v.Obj? && v.fields.Keys == {"success", "message", "error", "code"}
    ensures Get(v, "success") == Bool(false)
    ensures Get(v, "code") == Str(Code(Classify(e)))
    ensures Classify(e) == NetworkFailure ==>
      Get(v, "error") == Str("NETWORK_ERROR") && Get(v, "message") == Str(NetworkMessage)
    ensures Classify(e) == TimeoutFailure ==>
      Get(v, "error") == Str("TIMEOUT_ERROR") && Get(v, "message") == Str(TimeoutMessage)
    ensures Classify(e) == UnknownFailure ==>
      && Get(v, "error") == Str("UNKNOWN_ERROR")
      && Get(v, "message") == Str(if e.message != "" then e.message else UnknownMessage)
  {
    var k := Classify(e);
    var (message, error) :=
      match k
      case NetworkFailure => (NetworkMessage, "NETWORK_ERROR")
      case TimeoutFailure => (TimeoutMessage, "TIMEOUT_ERROR")
      case UnknownFailure => (if e.message != "" then e.message else UnknownMessage, "UNKNOWN_ERROR");
    Obj(map["success" := Bool(false), "message" := Str(message), "error" := Str(error), "code" := Str(Code(k))])
  }

  /** Every status code renders as a distinct `HTTP_<status>` code. */
  function StatusCode(status: nat): (code: string)
    ensures |code| > 5 && code[..5] == "HTTP_"
    ensures forall i :: 5 <= i < |code| ==> IsDigit(code[i])
    ensures DecimalValue(code[5..]) == status
  {
    var digits := NatToDecimal(status);
    DecimalRoundTrip(status);
    assert ("HTTP_" + digits)[5..] == digits;
    "HTTP_" + digits
  }

  /** The envelope of the login-status check answered with 400: a success saying "not logged in". */
  function NotLoggedInEnvelope(status: nat): (v: Value)
    ensures v.Obj? && v.fields.Keys == {"success", "isLoggedIn", "message", "error", "code", "status"}
    ensures Get(v, "success") == Bool(true)
    ensures Get(v, "isLoggedIn") == Bool(false)
    ensures Get(v, "code") == Str(StatusCode(status))
    ensures Get(v, "message") == Str(NotLoggedInMessage)
  {
    Obj(map["success" := Bool(true), "isLoggedIn" := Bool(false), "message" := Str(NotLoggedInMessage),
            "error" := Str("HTTP_ERROR"), "code" := Str(StatusCode(status)), "status" := Num(status)])
  }

  /** The envelope of any other non-2xx response: a failure coded `HTTP_<status>`,
      with the body's message when it has a truthy one. */
  function HttpFailureEnvelope(r: Received): (v: Value)
    ensures v.Obj? && v.fields.Keys == {"success", "message", "error", "code", "status", "data"}
    ensures Get(v, "success") == Bool(false)
    ensures Get(v, "code") == Str(StatusCode(r.status))
    ensures Get(v, "error") == Str("HTTP_ERROR")
    ensures Get(v, "status") == Num(r.status)
    ensures Get(v, "data") == HandleResponse(r)
    ensures Truthy(Get(HandleResponse(r), "message")) ==> Get(v, "message") == Get(HandleResponse(r), "message")
    ensures !Truthy(Get(HandleResponse(r), "message")) ==>
      Get(v, "message") == Str("HTTP " + NatToDecimal(r.status) + ": " + r.statusText)
  {
    var errorData := HandleResponse(r);
    var fallback := Str("HTTP " + NatToDecimal(r.status) + ": " + r.statusText);
    var message := if Truthy(Get(errorData, "message")) then Get(errorData, "message") else fallback;
    Obj(map["success" := Bool(false), "message" := message, "error" := Str("HTTP_ERROR"),
            "code" := Str(StatusCode(r.status)), "status" := Num(r.status), "data" := errorData])
  }

  /** The login-status quirk applies: a 400 on a URL containing the status path. */
  predicate QuirkApplies(fullUrl: string, status: nat) {
    status == 400 && Contains(fullUrl, StatusMarker)
  }

  /** What a completed exchange or a rejection turns into for the caller. */
  function Settle(fullUrl: string, t: Transport): (v: Value)
    ensures t.Threw? ==> v == HandleError(t.error)
    ensures t.Responded? && Ok2xx(t.response.status) ==> v == HandleResponse(t.response)
    ensures t.Responded? && QuirkApplies(fullUrl, t.response.status) ==> v == NotLoggedInEnvelope(400)
    ensures t.Responded? && !Ok2xx(t.response.status) && !QuirkApplies(fullUrl, t.response.status) ==>
      v == HttpFailureEnvelope(t.response)
  {
    match t
    case Threw(e) => HandleError(e)
    case Responded(r) =>
      if Ok2xx(r.status) then HandleResponse(r)
      else if QuirkApplies(fullUrl, r.status) then NotLoggedInEnvelope(r.status)
      else HttpFailureEnvelope(r)
  }

  /** A JSON object body as parsing yields it: no property holds `undefined`. */
  predicate ParsedBody(b: Body) {
    b.JsonObject? ==> forall k :: k in b.fields ==> b.fields[k] != Undefined
  }

  /** The wrapper never hands back a bare string, null or undefined, and its
      result always carries a `success` property. */
  lemma SettleShape(fullUrl: string, t: Transport)
    requires t.Responded? ==> ParsedBody(t.response.body)
    ensures Settle(fullUrl, t).Obj? || Settle(fullUrl, t).Arr?
    ensures Get(Settle(fullUrl, t), "success") != Undefined
  {
  }

  /** The 400 quirk depends on the URL alone: the same 400 response is a success
      on the login-status URL and an `HTTP_400` failure on any other. */
  lemma BadRequestQuirk(url: string, other: string, r: Received)
    requires r.status == 400
    requires Contains(url, StatusMarker) && !Contains(other, StatusMarker)
    ensures Get(Settle(url, Responded(r)), "success") == Bool(true)
    ensures Get(Settle(other, Responded(r)), "success") == Bool(false)
    ensures Get(Settle(url, Responded(r)), "code") == Get(Settle(other, Responded(r)), "code") == Str("HTTP_400")
  {
    assert NatToDecimal(400) == "400" by {
      assert NatToDecimal(4) == "4";
      assert NatToDecimal(40) == "40";
    }
  }

  // ---------------------------------------------------------------------------
  // Request construction

  /** The options a caller passes to `request`; `body` is `null` when none is given. */
  datatype Options = Options(verb: string, headers: Headers, body: Value, timeout: Option<int>, includeAuth: bool)

  /** What goes to `fetch` besides the URL. `body` holds the value serialised
      with `JSON.stringify`, or nothing. */
  datatype RequestConfig = RequestConfig(verb: string, headers: Headers, body: Option<Value>, timeout: int)

  /** The request `request` dispatches: URL, configuration and abort deadline. */
  datatype Prepared = Prepared(url: string, config: RequestConfig, abortAfter: int)

  /** The three verbs the API functions use are already upper case. */
  lemma UpperVerbs()
    ensures AsciiUpper("GET") == "GET" && AsciiUpper("POST") == "POST" && AsciiUpper("DELETE") == "DELETE"
  {
  }

  /** The default options of the `get`/`post`/`delete` helpers for a given verb. */
  function Defaults(verb: string): Options {
    Options(verb, map[], Null, None, true)
  }

  /** The body rule: a truthy body is serialised for every verb but GET. */
  function BodyFor(verb: string, body: Value): (b: Option<Value>)
    ensures AsciiUpper(verb) == "GET" ==> b.None?
    ensures AsciiUpper(verb) != "GET" ==> (b.Some? <==> Truthy(body))
    ensures b.Some? ==> b.value == body
  {
    if Truthy(body) && AsciiUpper(verb) != "GET" then Some(body) else None
  }

  /** The URL rule: anything starting with "http" is absolute, anything else
      is appended to the base URL. */
  function FullUrl(c: Client, url: string): (r: string)
    ensures StartsWith(url, "http") ==> r == url
    ensures !StartsWith(url, "http") ==> r == Interpolate(c.baseUrl) + url
  {
    if StartsWith(url, "http") then url else Interpolate(c.baseUrl) + url
  }

  /** Headers of `request`: caller headers over the JSON content type, then the
      stored token (unchanged) as `Authorization` when authentication is wanted. */
  function RequestHeaders(store: Store, caller: Headers, includeAuth: bool): (h: Headers)
    ensures ContentType in h
    ensures h[ContentType] == if ContentType in caller then caller[ContentType] else JsonMime
    ensures Authorization in h <==> (includeAuth && HasToken(store)) || Authorization in caller
    ensures includeAuth && HasToken(store) ==> h[Authorization] == store[TokenKey]
    ensures !(includeAuth && HasToken(store)) && Authorization in caller ==> h[Authorization] == caller[Authorization]
    ensures forall k :: k != ContentType && k != Authorization ==>
      (k in h <==> k in caller) && (k in h ==> h[k] == caller[k])
  {
    var merged := map[ContentType := JsonMime] + caller;
    if includeAuth && HasToken(store) then merged[Authorization := store[TokenKey]] else merged
  }

  /** The request `request(url, options)` sends. */
  function Prepare(c: Client, store: Store, url: string, o: Options): (p: Prepared)
    ensures p.url == FullUrl(c, url)
    ensures p.config.verb == AsciiUpper(o.verb)
    ensures p.config.headers == RequestHeaders(store, o.headers, o.includeAuth)
    ensures p.config.body == BodyFor(o.verb, o.body)
    ensures p.config.timeout == c.timeout
    ensures p.abortAfter == if o.timeout.Some? then o.timeout.value else c.timeout
  {
    var config := RequestConfig(AsciiUpper(o.verb), RequestHeaders(store, o.headers, o.includeAuth),
                                BodyFor(o.verb, o.body), c.timeout);
    Prepared(FullUrl(c, url), config, match o.timeout case Some(t) => t case None => c.timeout)
  }

  /** `createRequestConfig(verb, headers, body)`: the default headers with the
      token first, then the caller's headers over them. */
  function CreateRequestConfig(c: Client, store: Store, verb: string, headers: Headers, body: Value): (rc: RequestConfig)
    ensures rc.verb == AsciiUpper(verb)
    ensures rc.body == BodyFor(verb, body)
    ensures rc.timeout == c.timeout
    ensures forall k :: k in headers ==> k in rc.headers && rc.headers[k] == headers[k]
    ensures forall k :: k !in headers ==> (k in rc.headers <==> k in DefaultHeaders(store, true))
    ensures forall k :: k !in headers && k in rc.headers ==> rc.headers[k] == DefaultHeaders(store, true)[k]
  {
    RequestConfig(AsciiUpper(verb), DefaultHeaders(store, true) + headers, BodyFor(verb, body), c.timeout)
  }

  /** The two header merges disagree on purpose: `request` lets the stored token
      win over a caller's `Authorization`, `createRequestConfig` lets the caller win. */
  lemma AuthorizationPrecedence(c: Client, store: Store, verb: string, caller: Headers, body: Value)
    requires HasToken(store) && Authorization in caller
    ensures Prepare(c, store, "/x", Options(verb, caller, body, None, true)).config.headers[Authorization] == store[TokenKey]
    ensures CreateRequestConfig(c, store, verb, caller, body).headers[Authorization] == caller[Authorization]
  {
  }

  /** A GET request never carries a body, whatever body the caller passed. */
  lemma GetCarriesNoBody(c: Client, store: Store, url: string, o: Options)
    requires AsciiUpper(o.verb) == "GET"
    ensures Prepare(c, store, url, o).config.body.None?
    ensures CreateRequestConfig(c, store, o.verb, o.headers, o.body).body.None?
  {
  }

  /** One call of `request`: what was sent, and what the caller gets back. */
  datatype Exchange = Exchange(sent: Prepared, reply: Value)

  function Request(c: Client, store: Store, url: string, o: Options, t: Transport): (x: Exchange)
    ensures x.sent == Prepare(c, store, url, o)
    ensures x.reply == Settle(x.sent.url, t)
  {
    var p := Prepare(c, store, url, o);
    Exchange(p, Settle(p.url, t))
  }
}
