/**
 * The transport layer of the console: request construction, the normalisation of an HTTP
 * response into a value or an error message, the resource clients built on it, the golf-course
 * list query, and the health check. The network is abstract: what `fetch` produced for a
 * request is an input value (`Fetched`).
 */
module Api {
  import opened Wrappers
  import opened Text
  import opened Json
  import Records

  // ---------------------------------------------------------------- configuration

  const DefaultBaseUrl: string := "http://localhost:8080"
  const DefaultToken: string := "admin-bearer-token"

  /** The base URL and bearer token the build was configured with. */
  datatype Config = Config(baseUrl: string, token: string)

  /** `VITE_API_URL || default` and `VITE_API_BEARER_TOKEN || default`: an unset or empty variable falls back. */
  function ResolveConfig(envUrl: Option<string>, envToken: Option<string>): Config {
    Config(
      if envUrl.Some? && envUrl.value != "" then envUrl.value else DefaultBaseUrl,
      if envToken.Some? && envToken.value != "" then envToken.value else DefaultToken)
  }

  /**
   * An unset or empty variable falls back to its default, a non-empty one is taken verbatim,
   * and each setting depends on its own variable only.
   */
  lemma ResolveConfigFallback(other: Option<string>, value: string)
    ensures ResolveConfig(None, other).baseUrl == DefaultBaseUrl
    ensures ResolveConfig(Some(""), other).baseUrl == DefaultBaseUrl
    ensures value != "" ==> ResolveConfig(Some(value), other).baseUrl == value
    ensures ResolveConfig(other, None).token == DefaultToken
    ensures ResolveConfig(other, Some("")).token == DefaultToken
    ensures value != "" ==> ResolveConfig(other, Some(value)).token == value
  {
  }

  // ---------------------------------------------------------------- requests

  /** Header objects, as ordered name/value lists. */
  type Headers = seq<(string, string)>

  /** The two headers every request carries. */
  function DefaultHeaders(cfg: Config): Headers {
    [("Content-Type", "application/json"), ("Authorization", "Bearer " + cfg.token)]
  }

  /** The `options` argument of a request; `body` is the value passed to `JSON.stringify`. */
  datatype Options = Options(verb: Option<string>, body: Option<Value>, headers: Option<Headers>)

  /** What is handed to `fetch`. An absent verb means GET. */
  datatype Request = Request(url: string, verb: Option<string>, headers: Headers, body: Option<Value>)

  /** The URL and the configuration object the generic request builds for `endpoint` and `opts`. */
  function Issue(cfg: Config, endpoint: string, opts: Options): Request {
    var extra := if opts.headers.Some? then opts.headers.value else [];
    Request(cfg.baseUrl + endpoint, opts.verb, Records.Spread(DefaultHeaders(cfg), extra), opts.body)
  }

  /** The request goes to the base URL followed by the endpoint, unchanged, with the caller's method and body. */
  lemma IssueTarget(cfg: Config, endpoint: string, opts: Options)
    ensures Issue(cfg, endpoint, opts).url[..|cfg.baseUrl|] == cfg.baseUrl
    ensures Issue(cfg, endpoint, opts).url[|cfg.baseUrl|..] == endpoint
    ensures Issue(cfg, endpoint, opts).verb == opts.verb && Issue(cfg, endpoint, opts).body == opts.body
  {
  }

  /**
   * The merged headers: a caller header overrides the default of the same name, other caller
   * headers are added, an unlisted default is kept, and the defaults come first.
   */
  lemma MergedHeaders(cfg: Config, endpoint: string, opts: Options, name: string)
    ensures var extra := if opts.headers.Some? then opts.headers.value else [];
      Records.Lookup(Issue(cfg, endpoint, opts).headers, name) ==
        if Records.Lookup(extra, name).Some? then Records.Lookup(extra, name)
        else Records.Lookup(DefaultHeaders(cfg), name)
    ensures Records.Keys(DefaultHeaders(cfg)) <= Records.Keys(Issue(cfg, endpoint, opts).headers)
  {
    var extra := if opts.headers.Some? then opts.headers.value else [];
    Records.LookupSpread(DefaultHeaders(cfg), extra, name);
    Records.SpreadKeepsBaseOrder(DefaultHeaders(cfg), extra);
  }

  /** Without caller headers, a request carries the JSON content type and the bearer token. */
  lemma DefaultHeadersSent(cfg: Config, endpoint: string, verb: Option<string>, body: Option<Value>)
    ensures Records.Lookup(Issue(cfg, endpoint, Options(verb, body, None)).headers, "Content-Type") == Some("application/json")
    ensures Records.Lookup(Issue(cfg, endpoint, Options(verb, body, None)).headers, "Authorization") == Some("Bearer " + cfg.token)
  {
    var d := DefaultHeaders(cfg);
    assert d[..1] == [("Content-Type", "application/json")];
    MergedHeaders(cfg, endpoint, Options(verb, body, None), "Content-Type");
    MergedHeaders(cfg, endpoint, Options(verb, body, None), "Authorization");
  }

  // ---------------------------------------------------------------- responses

  /**
   * An HTTP response: its status, its `content-type` header, its body text, and what
   * `response.json()` makes of that body (a value, or the parser's error message).
   */
  datatype Response = Response(status: int, contentType: Option<string>, text: string, json: Result<Value, string>)

  /** What `fetch` produced: a rejection (network failure, with its message) or a response. */
  datatype Fetched = NetworkFailure(message: string) | Received(response: Response)

  /** `response.ok`. */
  predicate Ok(status: int) {
    200 <= status <= 299
  }

  const HttpErrorPrefix: string := "HTTP error! status: "

  /** The message used when an error body carries no truthy `message`. */
  function HttpErrorMessage(status: int): string {
    HttpErrorPrefix + IntToString(status)
  }

  /** The status code can be read back from the fallback message. */
  lemma HttpErrorMessageStatus(status: int)
    ensures HttpErrorMessage(status)[..|HttpErrorPrefix|] == HttpErrorPrefix
    ensures ParseInt(HttpErrorMessage(status)[|HttpErrorPrefix|..]) == Some(status)
  {
    assert HttpErrorMessage(status)[|HttpErrorPrefix|..] == IntToString(status);
    ParseIntRoundTrip(status);
  }

  /** A content type that `includes("application/json")`. */
  predicate JsonContent(contentType: Option<string>) {
    contentType.Some? && contentType.value != "" && Contains(contentType.value, "application/json")
  }

  /** The message an error response turns into: the body's `message`, or the status fallback. */
  function ErrorMessage(r: Response): string {
    // a body that does not parse reads as `{}`
    var errorData := if r.json.Success? then r.json.value else Obj([]);
    if errorData.Null? then NullRead("message")
    else if Present(Field(errorData, "message")) then ToJsString(Field(errorData, "message").value)
    else HttpErrorMessage(r.status)
  }

  /**
   * The generic request's outcome for what `fetch` produced: the error it throws, or the value
   * it resolves to (the parsed body for JSON content, the body text otherwise).
   */
  function Settle(f: Fetched): (r: Result<Value, string>)
    ensures f.NetworkFailure? ==> r == Failure(f.message)
    ensures f.Received? && !Ok(f.response.status) ==> r == Failure(ErrorMessage(f.response))
  {
    match f
    case NetworkFailure(m) => Failure(m)
    case Received(resp) =>
      if !Ok(resp.status) then Failure(ErrorMessage(resp))
      else if JsonContent(resp.contentType) then resp.json
      else Success(Str(resp.text))
  }

  /** An error response whose body is JSON `null` throws while reading its `message`. */
  lemma NullErrorBody(status: int, contentType: Option<string>, text: string)
    requires !Ok(status)
    ensures Settle(Received(Response(status, contentType, text, Success(Null)))) == Failure(NullRead("message"))
  {
  }

  /** An error response reports the body's truthy `message`, else exactly the status fallback. */
  lemma ErrorResponseMessage(r: Response)
    requires !Ok(r.status)
    requires !(r.json.Success? && r.json.value.Null?)
    ensures var msg := if r.json.Success? then Field(r.json.value, "message") else None;
      Settle(Received(r)) == Failure(if Present(msg) then ToJsString(msg.value) else HttpErrorMessage(r.status))
  {
  }

  /** An error response whose body is a string message reports that string verbatim. */
  lemma ErrorMessageVerbatim(status: int, contentType: Option<string>, text: string, message: string)
    requires !Ok(status) && message != ""
    ensures Settle(Received(Response(status, contentType, text, Success(Obj([("message", Str(message))]))))) == Failure(message)
  {
    assert Records.Lookup([("message", Str(message))], "message") == Some(Str(message));
  }

  /** A successful response yields the parsed body if and only if its content type is JSON, else its text. */
  lemma SuccessBody(r: Response, v: Value)
    requires Ok(r.status) && r.json == Success(v) && v != Str(r.text)
    ensures Settle(Received(r)) == Success(v) <==> JsonContent(r.contentType)
    ensures Settle(Received(r)) == Success(Str(r.text)) <==> !JsonContent(r.contentType)
  {
  }

  /** The generic request fails exactly on a network failure, a non-2xx status, or a JSON body that does not parse. */
  lemma SettleFails(f: Fetched)
    ensures Settle(f).Failure? <==>
      f.NetworkFailure? || !Ok(f.response.status) || (JsonContent(f.response.contentType) && f.response.json.Failure?)
  {
  }

  // ---------------------------------------------------------------- envelopes

  /** `response[key] || []`: fails like the request, and reading a key of a `null` body throws. */
  function Unwrap(r: Result<Value, string>, key: string): (u: Result<Value, string>)
    ensures r.Failure? ==> u == r
    ensures u.Success? ==> Truthy(u.value)
    ensures r.Success? && r.value.Obj? && Present(Field(r.value, key)) ==> u == Success(Field(r.value, key).value)
    ensures r.Success? && !r.value.Null? && !Present(Field(r.value, key)) ==> u == Success(Arr([]))
  {
    match r
    case Failure(e) => Failure(e)
    case Success(v) => if v.Null? then Failure(NullRead(key)) else Success(Or(Field(v, key), Arr([])))
  }

  /** The resource calls the console makes. */
  datatype Call =
    | ListTags
    | ReadTag(id: string)
    | CreateTag(data: Value)
    | UpdateTag(id: string, data: Value)
    | DeleteTag(id: string)
    | PrintTags(data: Value)
    | ListEvidence
    | ReadEvidence(id: string)
    | ListGolfCourses(query: string)
    | ReadGolfCourse(id: string)

  function Endpoint(c: Call): string {
    match c
    case ListTags => "/admin/tags"
    case ReadTag(id) => "/admin/tags/" + id
    case CreateTag(_) => "/admin/tags"
    case UpdateTag(id, _) => "/admin/tags/" + id
    case DeleteTag(id) => "/admin/tags/" + id
    case PrintTags(_) => "/admin/print-tags"
    case ListEvidence => "/evidence"
    case ReadEvidence(id) => "/evidence/" + id
    case ListGolfCourses(query) => "/admin/golf-courses?" + query
    case ReadGolfCourse(id) => "/admin/golf-courses/" + id
  }

  function MethodOf(c: Call): string {
    match c
    case CreateTag(_) => "POST"
    case PrintTags(_) => "POST"
    case UpdateTag(_, _) => "PUT"
    case DeleteTag(_) => "DELETE"
    case _ => "GET"
  }

  function BodyOf(c: Call): Option<Value> {
    match c
    case CreateTag(data) => Some(data)
    case UpdateTag(_, data) => Some(data)
    case PrintTags(data) => Some(data)
    case _ => None
  }

  /** The request each call issues. */
  function RequestFor(cfg: Config, c: Call): Request {
    Issue(cfg, Endpoint(c), Options(Some(MethodOf(c)), BodyOf(c), None))
  }

  /** Every call sends exactly the default headers, an explicit method, and a body only when it writes. */
  lemma CallRequest(cfg: Config, c: Call)
    ensures RequestFor(cfg, c).headers == DefaultHeaders(cfg)
    ensures RequestFor(cfg, c).url == cfg.baseUrl + Endpoint(c)
    ensures RequestFor(cfg, c).body.Some? <==> MethodOf(c) in {"POST", "PUT"}
  {
  }

  /** A single-resource call addresses the resource named by its id. */
  lemma EndpointNamesResource(c: Call)
    requires c.ReadTag? || c.UpdateTag? || c.DeleteTag?
    ensures Endpoint(c)[..|"/admin/tags/"|] == "/admin/tags/"
    ensures Endpoint(c)[|"/admin/tags/"|..] == c.id
  {
  }

  /** What each client function resolves to or throws: list calls unwrap their envelope, the others return the body. */
  function Outcome(c: Call, f: Fetched): Result<Value, string> {
    match c
    case ListTags => Unwrap(Settle(f), "tags")
    case ListEvidence => Unwrap(Settle(f), "records")
    case _ => Settle(f)
  }

  /** The envelope key a list call unwraps. */
  function EnvelopeKey(c: Call): string {
    if c.ListTags? then "tags" else "records"
  }

  /**
   * A list call on a 2xx JSON reply resolves to the envelope field when it is truthy; a `null`
   * body throws while reading that field; a failed request fails the call with the same error.
   */
  lemma ListUnwrapsEnvelope(c: Call, f: Fetched, v: Value)
    requires c.ListTags? || c.ListEvidence?
    requires f.Received? && Ok(f.response.status) && JsonContent(f.response.contentType) && f.response.json == Success(v)
    ensures v.Obj? && Present(Field(v, EnvelopeKey(c))) ==> Outcome(c, f) == Success(Field(v, EnvelopeKey(c)).value)
    ensures v.Null? ==> Outcome(c, f) == Failure(NullRead(EnvelopeKey(c)))
    ensures Outcome(c, f).Success? ==> Truthy(Outcome(c, f).value)
  {
  }

  /** A list call fails exactly when the request does, with the request's error; every other call resolves to the settled body. */
  lemma OutcomeOfFailedRequest(c: Call, f: Fetched)
    ensures Settle(f).Failure? ==> Outcome(c, f) == Settle(f)
    ensures !c.ListTags? && !c.ListEvidence? ==> Outcome(c, f) == Settle(f)
  {
  }

  /** A tag list whose `tags` field is missing or falsy comes back as the empty list. */
  lemma ListWithoutEnvelope(f: Fetched, resp: Response, v: Value)
    requires f == Received(resp) && Ok(resp.status) && JsonContent(resp.contentType) && resp.json == Success(v)
    requires v.Obj? && !Present(Field(v, "tags"))
    ensures Outcome(ListTags, f) == Success(Arr([]))
  {
  }

  // ---------------------------------------------------------------- golf-course list query

  /** The parameters of the golf-course list; an absent one takes its default. */
  datatype ListParams = ListParams(page: Option<int>, limit: Option<int>, sort: Option<string>, order: Option<string>, search: Option<string>)

  function OrDefault<T>(o: Option<T>, d: T): T {
    if o.Some? then o.value else d
  }

  /** The query-string pairs, built as `new URLSearchParams({...})` followed by a conditional `append`. */
  method BuildGolfCourseQuery(p: ListParams) returns (query: seq<(string, string)>)
    ensures |query| >= 4
    ensures query[..4] == [
      ("page", IntToString(OrDefault(p.page, 1))),
      ("limit", IntToString(OrDefault(p.limit, 20))),
      ("sort", OrDefault(p.sort, "name")),
      ("order", OrDefault(p.order, "ASC"))]
    ensures |query| == 5 <==> OrDefault(p.search, "") != ""
    ensures |query| == 5 ==> query[4] == ("search", OrDefault(p.search, ""))
    ensures |query| <= 5
  {
    var page := OrDefault(p.page, 1);
    var limit := OrDefault(p.limit, 20);
    var sort := OrDefault(p.sort, "name");
    var order := OrDefault(p.order, "ASC");
    var search := OrDefault(p.search, "");
    query := [("page", IntToString(page)), ("limit", IntToString(limit)), ("sort", sort), ("order", order)];
    if search != "" {
      query := query + [("search", search)];
    }
  }

  /** `URLSearchParams.toString()` without percent-encoding: `k=v` pairs joined by `&`. */
  function Serialize(query: seq<(string, string)>): string {
    if query == [] then ""
    else if |query| == 1 then query[0].0 + "=" + query[0].1
    else query[0].0 + "=" + query[0].1 + "&" + Serialize(query[1..])
  }

  /** `getAllGolfCourses(params)`: builds the query, issues the request, returns the envelope unmodified. */
  method GetAllGolfCourses(cfg: Config, p: ListParams, f: Fetched)
    returns (query: seq<(string, string)>, req: Request, r: Result<Value, string>)
    ensures 4 <= |query| <= 5
    ensures query[..4] == [
      ("page", IntToString(OrDefault(p.page, 1))),
      ("limit", IntToString(OrDefault(p.limit, 20))),
      ("sort", OrDefault(p.sort, "name")),
      ("order", OrDefault(p.order, "ASC"))]
    ensures |query| == 5 <==> OrDefault(p.search, "") != ""
    ensures |query| == 5 ==> query[4] == ("search", OrDefault(p.search, ""))
    ensures req.url == cfg.baseUrl + "/admin/golf-courses?" + Serialize(query)
    ensures req.verb == Some("GET") && req.headers == DefaultHeaders(cfg)
    ensures r == Settle(f)
  {
    query := BuildGolfCourseQuery(p);
    var c := ListGolfCourses(Serialize(query));
    req := RequestFor(cfg, c);
    r := Outcome(c, f);
  }

  // ---------------------------------------------------------------- health

  /** The health probe: `GET <base>/health` with the default headers. */
  function HealthRequest(cfg: Config): Request {
    Request(cfg.baseUrl + "/health", Some("GET"), DefaultHeaders(cfg), None)
  }

  /** The health probe is what the generic request would issue for a plain GET of `/health`. */
  lemma HealthProbeIsPlainGet(cfg: Config)
    ensures HealthRequest(cfg) == Issue(cfg, "/health", Options(Some("GET"), None, None))
    ensures HealthRequest(cfg).url == cfg.baseUrl + "/health"
  {
  }

  /** `healthCheck()`: `response.ok`, and false when `fetch` rejects; it never throws. */
  function HealthCheck(f: Fetched): (healthy: bool)
    ensures healthy <==> f.Received? && Ok(f.response.status)
  {
    match f
    case NetworkFailure(_) => false
    case Received(resp) => Ok(resp.status)
  }

  /** The `{status, message}` object of `testConnection()`. */
  datatype Connection = Connection(status: string, message: string)

  const HealthyMessage: string := "API is healthy"
  const UnhealthyMessage: string := "API health check failed"

  /** `testConnection()`, given the answer of the health check. */
  function TestConnection(healthy: bool): (c: Connection)
    ensures c.status == "connected" <==> healthy
    ensures c.status == "error" <==> !healthy
    ensures c.message == if healthy then HealthyMessage else UnhealthyMessage
  {
    if healthy then Connection("connected", HealthyMessage) else Connection("error", UnhealthyMessage)
  }

  /** The connection reads "connected" exactly when the health probe got a 2xx response. */
  lemma ConnectedIffOk(f: Fetched)
    ensures TestConnection(HealthCheck(f)).status == "connected" <==> f.Received? && Ok(f.response.status)
  {
  }
}
