/** The authenticated request client of `src/utils/api.js`: header merging,
    bearer-token attachment, URL construction, response classification and
    the four verb wrappers. The identity provider's answer and the network's
    reply are parameters. */
module Api {
  import opened Wrappers
  import opened Json

  const BaseUrl: string := "http://localhost:5000"
  const ContentTypeHeader: string := "Content-Type"
  const AuthorizationHeader: string := "Authorization"
  const JsonMediaType: string := "application/json"
  const DefaultFailure: string := "API request failed"
  const NullReadMessage: string := "Cannot read properties of null (reading 'error')"

  type Headers = map<string, string>

  /** The `options` argument of `apiCall`; an absent verb lets `fetch` default to GET. */
  datatype Options = Options(verb: Option<string>, headers: Headers, body: Option<Json>)

  /** One call of `apiCall(endpoint, options)`. */
  datatype Call = Call(endpoint: string, options: Options)

  /** The request handed to `fetch`. The body holds the value `JSON.stringify` serialises. */
  datatype Request = Request(url: string, verb: Option<string>, headers: Headers, body: Option<Json>)

  /** What `auth.currentUser` and `user.getIdToken()` yield. */
  datatype Identity = Anonymous | Token(token: string) | TokenFailure(reason: string)

  /** What `fetch` and `response.json()` yield: a transport failure, or a status
      flag with the parsed body (`None` when the body is not valid JSON). */
  datatype Reply = TransportFailure(reason: string) | Response(ok: bool, body: Option<Json>)

  /** Every way `apiCall` rejects; the caught error is re-thrown as it is. */
  datatype ApiError =
    | TokenError(reason: string)
    | NetworkError(reason: string)
    | MalformedBody
    | NullBody
    | ApplicationError(message: string)

  /** `error.message`. */
  function Message(e: ApiError): string {
    match e
    case TokenError(r) => r
    case NetworkError(r) => r
    case MalformedBody => "Unexpected end of JSON input"
    case NullBody => NullReadMessage
    case ApplicationError(m) => m
  }

  /** `{'Content-Type': 'application/json', ...callerHeaders}`, then the bearer
      credential written over whatever the caller put under `Authorization`. */
  function MergeHeaders(caller: Headers, token: Option<string>): (h: Headers)
    ensures ContentTypeHeader in h
    ensures h[ContentTypeHeader] == (if ContentTypeHeader in caller then caller[ContentTypeHeader] else JsonMediaType)
    ensures token.Some? ==> AuthorizationHeader in h && h[AuthorizationHeader] == "Bearer " + token.value
    ensures token.None? ==> (AuthorizationHeader in h <==> AuthorizationHeader in caller)
    ensures token.None? && AuthorizationHeader in caller ==> h[AuthorizationHeader] == caller[AuthorizationHeader]
    ensures forall k :: k in caller && k != AuthorizationHeader ==> k in h && h[k] == caller[k]
    ensures forall k :: k in h ==> k in caller || k == ContentTypeHeader || k == AuthorizationHeader
  {
    var merged := map[ContentTypeHeader := JsonMediaType] + caller;
    match token
    case None => merged
    case Some(t) => merged[AuthorizationHeader := "Bearer " + t]
  }

  /** Everything `apiCall` does before `fetch`: obtain a token when a user is
      signed in, merge the headers and build the URL. */
  function Prepare(call: Call, identity: Identity): (r: Result<Request, ApiError>)
    ensures identity.TokenFailure? <==> r.Failure?
    ensures identity.TokenFailure? ==> r == Failure(TokenError(identity.reason))
    ensures r.Success? ==> r.value.url == BaseUrl + call.endpoint
    ensures r.Success? ==> r.value.verb == call.options.verb && r.value.body == call.options.body
    ensures r.Success? ==> r.value.headers == MergeHeaders(call.options.headers, if identity.Token? then Some(identity.token) else None)
    ensures r.Success? ==> (AuthorizationHeader in r.value.headers <==>
                            identity.Token? || AuthorizationHeader in call.options.headers)
    ensures identity.Token? ==> r.Success? && r.value.headers[AuthorizationHeader] == "Bearer " + identity.token
  {
    match identity
    case TokenFailure(reason) => Failure(TokenError(reason))
    case Anonymous =>
      Success(Request(BaseUrl + call.endpoint, call.options.verb, MergeHeaders(call.options.headers, None), call.options.body))
    case Token(t) =>
      Success(Request(BaseUrl + call.endpoint, call.options.verb, MergeHeaders(call.options.headers, Some(t)), call.options.body))
  }

  /** The error thrown for a parsed body of a non-OK response: reading
      `data.error` of `null` is a TypeError; a truthy `error` becomes the
      message; otherwise the generic message. */
  function FailureOf(data: Json): (e: ApiError)
    ensures data.JNull? <==> e == NullBody
    ensures data.JObj? && "error" in data.fields && data.fields["error"].JStr? && data.fields["error"].s != ""
            ==> e == ApplicationError(data.fields["error"].s)
    ensures !data.JNull? && !(data.JObj? && "error" in data.fields && Truthy(data.fields["error"]))
            ==> e == ApplicationError(DefaultFailure)
  {
    match data
    case JNull => NullBody
    case JObj(fields) =>
      if "error" in fields && Truthy(fields["error"]) then ApplicationError(ToJsString(fields["error"]))
      else ApplicationError(DefaultFailure)
    case _ => ApplicationError(DefaultFailure)
  }

  /** Everything `apiCall` does after `fetch`: parse, then check `response.ok`. */
  function Classify(reply: Reply): (r: Result<Json, ApiError>)
    ensures r.Success? <==> reply.Response? && reply.ok && reply.body.Some?
    ensures r.Success? ==> r.value == reply.body.value
    ensures reply.TransportFailure? ==> r == Failure(NetworkError(reply.reason))
    ensures reply.Response? && reply.body.None? ==> r == Failure(MalformedBody)
    ensures reply.Response? && !reply.ok && reply.body.Some? ==> r == Failure(FailureOf(reply.body.value))
  {
    match reply
    case TransportFailure(reason) => Failure(NetworkError(reason))
    case Response(ok, body) =>
      match body
      case None => Failure(MalformedBody)
      case Some(data) => if ok then Success(data) else Failure(FailureOf(data))
  }

  /** One `apiCall`: the request that reached `fetch` (none when the token could
      not be obtained) and the settled outcome. `reply` is the network's answer
      to that request and is not consulted when nothing was sent. */
  datatype Exchange = Exchange(sent: Option<Request>, result: Result<Json, ApiError>)

  function ApiCall(call: Call, identity: Identity, reply: Reply): (x: Exchange)
    ensures x.sent.None? <==> identity.TokenFailure?
    ensures x.sent.Some? ==> Prepare(call, identity) == Success(x.sent.value)
    ensures x.sent.None? ==> x.result == Failure(TokenError(identity.reason))
    ensures x.sent.Some? ==> x.result == Classify(reply)
  {
    match Prepare(call, identity)
    case Failure(e) => Exchange(None, Failure(e))
    case Success(request) => Exchange(Some(request), Classify(reply))
  }

  function Get(endpoint: string): (c: Call)
    ensures c.endpoint == endpoint && c.options.verb.None? && c.options.body.None? && c.options.headers == map[]
  {
    Call(endpoint, Options(None, map[], None))
  }

  function Post(endpoint: string, data: Json): (c: Call)
    ensures c.endpoint == endpoint && c.options.verb == Some("POST") && c.options.body == Some(data)
    ensures c.options.headers == map[]
  {
    Call(endpoint, Options(Some("POST"), map[], Some(data)))
  }

  function Put(endpoint: string, data: Json): (c: Call)
    ensures c.endpoint == endpoint && c.options.verb == Some("PUT") && c.options.body == Some(data)
    ensures c.options.headers == map[]
  {
    Call(endpoint, Options(Some("PUT"), map[], Some(data)))
  }

  function Delete(endpoint: string): (c: Call)
    ensures c.endpoint == endpoint && c.options.verb == Some("DELETE") && c.options.body.None?
    ensures c.options.headers == map[]
  {
    Call(endpoint, Options(Some("DELETE"), map[], None))
  }

  /** A call built by one of the four wrappers. */
  ghost predicate FromWrapper(c: Call) {
    c == Get(c.endpoint) || c == Delete(c.endpoint)
    || (c.options.body.Some? && (c == Post(c.endpoint, c.options.body.value) || c == Put(c.endpoint, c.options.body.value)))
  }

  /** Through the wrappers, the headers are exactly the JSON content type plus,
      iff a user is signed in, the bearer credential. */
  lemma WrapperHeaders(c: Call, identity: Identity)
    requires FromWrapper(c)
    ensures identity.Anonymous? ==> Prepare(c, identity).value.headers == map[ContentTypeHeader := JsonMediaType]
    ensures identity.Token? ==>
              Prepare(c, identity).value.headers
              == map[ContentTypeHeader := JsonMediaType, AuthorizationHeader := "Bearer " + identity.token]
  {
    assert c.options.headers == map[];
    assert map[ContentTypeHeader := JsonMediaType] + map[] == map[ContentTypeHeader := JsonMediaType];
  }

  /** Each wrapper sends its verb (none for `get`, which `fetch` treats as
      GET) to `BaseUrl + endpoint`; only `post` and `put` carry a body. */
  lemma WrapperRequests(endpoint: string, data: Json, identity: Identity)
    requires !identity.TokenFailure?
    ensures var r := Prepare(Get(endpoint), identity).value;
            r.url == BaseUrl + endpoint && r.verb.None? && r.body.None?
    ensures var r := Prepare(Post(endpoint, data), identity).value;
            r.url == BaseUrl + endpoint && r.verb == Some("POST") && r.body == Some(data)
    ensures var r := Prepare(Put(endpoint, data), identity).value;
            r.url == BaseUrl + endpoint && r.verb == Some("PUT") && r.body == Some(data)
    ensures var r := Prepare(Delete(endpoint), identity).value;
            r.url == BaseUrl + endpoint && r.verb == Some("DELETE") && r.body.None?
  {
  }

  /** An anonymous request is sent without credentials, and a 401 reply
      `{error: "Unauthorized"}` rejects with that message. */
  lemma AnonymousUnauthorized(endpoint: string)
    ensures var x := ApiCall(Get(endpoint), Anonymous, Response(false, Some(JObj(map["error" := JStr("Unauthorized")]))));
            && x.sent.Some?
            && AuthorizationHeader !in x.sent.value.headers
            && x.result == Failure(ApplicationError("Unauthorized"))
  {
    WrapperHeaders(Get(endpoint), Anonymous);
  }

  /** An OK reply resolves with the parsed body, whatever its shape. */
  lemma OkReturnsBody(c: Call, identity: Identity, data: Json)
    requires !identity.TokenFailure?
    ensures ApiCall(c, identity, Response(true, Some(data))).result == Success(data)
  {
  }
}
