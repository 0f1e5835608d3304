/** The generic HTTP client of cli_app/api_client.py (`APIClient`, `APIError`).

    The transport (`requests.Session.request`) is a parameter `send` from the
    request the client builds to an `Outcome`: a transport failure with its
    cause, or a response with status, reason phrase and its body decoded as
    JSON (`None` when the body is not JSON). Every operation returns a `Call`:
    the request handed to the transport, if any, and what the Python method
    returns or raises. */
module ApiClient {
  import opened Wrappers
  import Text
  import opened JsonValues
  import opened HeaderMap
  import Urls

  datatype Method = GET | POST | PUT | DELETE

  /** The arguments `session.request` receives. `JNull` for `body` or
      `params` is Python's `None`: no JSON body, no query string. */
  datatype Request = Request(
    verb: Method,
    url: string,
    body: Json,
    params: Json,
    headers: Headers,
    timeout: int,
    verify: bool)

  datatype Response = Response(status: int, reason: string, body: Option<Json>)

  datatype Outcome = TransportFailure(cause: string) | Received(response: Response)

  /** `APIError(message, status_code, response)`; the message is whatever the
      error body held under "message" or "error", so it need not be a string. */
  datatype APIError = APIError(message: Json, statusCode: Option<int>, response: Option<Response>)

  /** What a client method can raise: an `APIError`, a `TypeError` (a
      duplicate keyword argument, or probing an error body that is not a
      JSON object), a JSON decoding error from `response.json()` on a
      success body, or pydantic's validation error at construction. */
  datatype Fault = Api(error: APIError) | TypeErrorRaised | JsonDecodeErrorRaised | ValidationErrorRaised

  datatype Call<T> = Call(sent: Option<Request>, result: Result<T, Fault>)

  /** `requests.Response.ok`: false exactly for the 4xx and 5xx statuses. */
  predicate IsOk(status: int) {
    !(400 <= status < 600)
  }

  // ---------------------------------------------------------------------
  // Error normalisation

  const FailedPrefix: string := "API request failed: "
  const TransportPrefix: string := "Request failed: "

  /** `f"API request failed: {response.status_code} {response.reason}"` */
  function FallbackMessage(status: int, reason: string): (m: string)
    ensures Text.StartsWith(m, FailedPrefix)
    ensures Text.EndsWith(m, " " + reason)
  {
    FailedPrefix + Text.IntToString(status) + " " + reason
  }

  /** The fallback text tells statuses apart: two different statuses with the
      same reason phrase never produce the same message. */
  lemma {:induction false} FallbackMessageInjective(s1: int, s2: int, reason: string)
    requires FallbackMessage(s1, reason) == FallbackMessage(s2, reason)
    ensures s1 == s2
  {
    var a := Text.IntToString(s1);
    var b := Text.IntToString(s2);
    var m := FallbackMessage(s1, reason);
    assert m == FailedPrefix + a + " " + reason;
    assert m == FailedPrefix + b + " " + reason;
    assert |a| == |b|;
    assert a == m[|FailedPrefix|..|FailedPrefix| + |a|];
    assert b == m[|FailedPrefix|..|FailedPrefix| + |b|];
    Text.IntToStringInjective(s1, s2);
  }

  /** The message of the error raised for a not-ok response: the decoded
      body's "message", else its "error", else the fallback; the fallback
      too when the body is not JSON. `"message" in body` and `body[...]`
      are Python's operators, so an error body that is JSON but not an
      object can raise `TypeError` instead. */
  function ExtractMessage(body: Option<Json>, fallback: string): (r: Result<Json, Fault>)
    ensures body.None? ==> r == Success(JString(fallback))
    ensures body.Some? && body.value.JObject? ==>
      var fields := body.value.fields;
      r == Success(if "message" in fields then fields["message"]
                   else if "error" in fields then fields["error"]
                   else JString(fallback))
    ensures body.Some? && (body.value.JNull? || body.value.JBool? || body.value.JNumber?) ==>
      r == Failure(TypeErrorRaised)
    ensures body.Some? && body.value.JString? ==>
      (r.Success? <==> !Text.Contains(body.value.str, "message") && !Text.Contains(body.value.str, "error"))
    ensures r.Failure? ==> r.error == TypeErrorRaised
    ensures r.Success? && body.Some? && !body.value.JObject? ==> r.value == JString(fallback)
  {
    match body
    case None => Success(JString(fallback))
    case Some(j) =>
      match PyIn("message", j)
      case None => Failure(TypeErrorRaised)
      case Some(hasMessage) =>
        if hasMessage then
          match PySubscript(j, "message")
          case None => Failure(TypeErrorRaised)
          case Some(m) => Success(m)
        else
          match PyIn("error", j)
          case None => Failure(TypeErrorRaised)
          case Some(hasError) =>
            if hasError then
              match PySubscript(j, "error")
              case None => Failure(TypeErrorRaised)
              case Some(e) => Success(e)
            else Success(JString(fallback))
  }

  /** The rule at the heart of `_make_request`: an ok response is returned
      unchanged, a not-ok one becomes an `APIError` carrying its status and
      the response, a transport failure becomes an `APIError` with neither. */
  function Normalise(outcome: Outcome): (r: Result<Response, Fault>)
    ensures r.Success? <==> outcome.Received? && IsOk(outcome.response.status)
    ensures r.Success? ==> r.value == outcome.response
    ensures outcome.TransportFailure? ==>
      r == Failure(Api(APIError(JString(TransportPrefix + outcome.cause), None, None)))
    ensures outcome.Received? && !IsOk(outcome.response.status) && r.error.Api? ==>
      r.error.error.statusCode == Some(outcome.response.status) && r.error.error.response == Some(outcome.response)
    ensures outcome.Received? && !IsOk(outcome.response.status) ==>
      var resp := outcome.response;
      match ExtractMessage(resp.body, FallbackMessage(resp.status, resp.reason))
      case Success(m) => r.Failure? && r.error == Api(APIError(m, Some(resp.status), Some(resp)))
      case Failure(f) => r.Failure? && r.error == f
    ensures r.Failure? ==> r.error.Api? || r.error.TypeErrorRaised?
  {
    match outcome
    case TransportFailure(cause) => Failure(Api(APIError(JString(TransportPrefix + cause), None, None)))
    case Received(resp) =>
      if IsOk(resp.status) then Success(resp)
      else
        match ExtractMessage(resp.body, FallbackMessage(resp.status, resp.reason))
        case Failure(f) => Failure(f)
        case Success(m) => Failure(Api(APIError(m, Some(resp.status), Some(resp))))
  }

  /** Every error carries a status exactly when the server answered, and an
      error body that is a JSON object or not JSON at all always yields an
      `APIError`. */
  lemma NormaliseErrorShape(outcome: Outcome)
    requires Normalise(outcome).Failure?
    ensures Normalise(outcome).error.Api? ==>
      (Normalise(outcome).error.error.statusCode.Some? <==> outcome.Received?)
    ensures outcome.TransportFailure? ==> Normalise(outcome).error.Api?
    ensures outcome.Received? && (outcome.response.body.None? || outcome.response.body.value.JObject?) ==>
      Normalise(outcome).error.Api?
  {
  }

  /** The error response the client's tests use: status 400 "Bad Request"
      with body {"error": "Bad Request", "message": "Invalid data"}. The
      "message" entry wins, so the error's text is "Invalid data". */
  lemma MessageBeatsError()
    ensures
      var resp := Response(400, "Bad Request",
        Some(JObject(map["error" := JString("Bad Request"), "message" := JString("Invalid data")])));
      Normalise(Received(resp)) == Failure(Api(APIError(JString("Invalid data"), Some(400), Some(resp))))
  {
  }

  // ---------------------------------------------------------------------
  // Construction and the session

  /** What the `requests` and `pydantic` libraries contribute: pydantic's
      `HttpUrl` check, the headers a fresh `requests.Session` starts with,
      and `urljoin` for inputs outside the shapes `Urls.Resolve` covers. */
  datatype Library = Library(
    acceptsHttpUrl: string -> bool,
    sessionDefaults: seq<Header>,
    urljoin: (string, string) -> string)

  datatype Session = Session(headers: Headers, verify: bool, open: bool)

  datatype Client = Client(baseUrl: string, token: string, timeout: int, verifySsl: bool, session: Session)

  const UserAgent: string := "Python-CLI-App/0.1.0"
  const JsonContentType: string := "application/json"

  function SessionEntries(token: string): seq<Header> {
    [Header("Authorization", "Bearer " + token), Header("Content-Type", JsonContentType), Header("User-Agent", UserAgent)]
  }

  /** `_setup_session`: the library's defaults updated with the client's own three. */
  function SessionHeaders(lib: Library, token: string): Headers {
    Update(Update(map[], lib.sessionDefaults), SessionEntries(token))
  }

  /** The three names differ in their first letter, whatever the case. */
  lemma EntryKeysDistinct(token: string)
    ensures Key("Authorization") != Key("Content-Type")
    ensures Key("Authorization") != Key("User-Agent")
    ensures Key("Content-Type") != Key("User-Agent")
  {
    assert Key("Authorization")[0] == 'a';
    assert Key("Content-Type")[0] == 'c';
    assert Key("User-Agent")[0] == 'u';
  }

  /** The session sends the bearer token, the JSON content type and the
      application's user agent, whatever the library's defaults and however
      the name is spelled; every other header is the library's default. */
  lemma {:induction false} SessionHeadersExact(lib: Library, token: string, name: string)
    ensures Lookup(SessionHeaders(lib, token), name) ==
      if Key(name) == Key("Authorization") then Some("Bearer " + token)
      else if Key(name) == Key("Content-Type") then Some(JsonContentType)
      else if Key(name) == Key("User-Agent") then Some(UserAgent)
      else Lookup(Update(map[], lib.sessionDefaults), name)
  {
    EntryKeysDistinct(token);
    UpdateLookup(Update(map[], lib.sessionDefaults), SessionEntries(token), name);
    LastValueOfThree(Header("Authorization", "Bearer " + token), Header("Content-Type", JsonContentType),
                     Header("User-Agent", UserAgent), name);
  }

  /** `APIClient(base_url, token, timeout=..., verify_ssl=...)` */
  function NewClient(lib: Library, baseUrl: string, token: string, timeout: int, verifySsl: bool): (r: Result<Client, Fault>)
    ensures r.Success? <==> lib.acceptsHttpUrl(baseUrl)
    ensures r.Failure? ==> r.error == ValidationErrorRaised
    ensures r.Success? ==> r.value.baseUrl == baseUrl && r.value.token == token
    ensures r.Success? ==> r.value.timeout == timeout && r.value.verifySsl == verifySsl
    ensures r.Success? ==> r.value.session.verify == verifySsl && r.value.session.open
    ensures r.Success? ==> r.value.session.headers == SessionHeaders(lib, token)
  {
    if !lib.acceptsHttpUrl(baseUrl) then Failure(ValidationErrorRaised)
    else Success(Client(baseUrl, token, timeout, verifySsl, Session(SessionHeaders(lib, token), verifySsl, true)))
  }

  // ---------------------------------------------------------------------
  // Requests

  /** `urljoin(str(self.base_url), endpoint)` */
  function JoinUrl(lib: Library, base: string, endpoint: string): (url: string)
    ensures Urls.ModelledBase(base) && Urls.ModelledRef(endpoint) ==> url == Urls.Resolve(base, endpoint)
  {
    if Urls.ModelledBase(base) && Urls.ModelledRef(endpoint) then Urls.Resolve(base, endpoint)
    else lib.urljoin(base, endpoint)
  }

  /** The request `_make_request` hands to the session, with the timeout
      the session call receives. */
  function BuildRequest(lib: Library, c: Client, verb: Method, endpoint: string, body: Json, params: Json,
                        extra: seq<Header>, timeout: int): (q: Request)
    ensures q.verb == verb && q.body == body && q.params == params
    ensures q.url == JoinUrl(lib, c.baseUrl, endpoint)
    ensures q.timeout == timeout && q.verify == c.session.verify
    ensures c.session.headers.Keys <= q.headers.Keys
  {
    UpdateKeepsKeys(c.session.headers, extra);
    Request(verb, JoinUrl(lib, c.baseUrl, endpoint), body, params, Update(c.session.headers, extra), timeout, c.session.verify)
  }

  /** Per-request headers override the session's on a case-insensitive name
      match and every other session header is sent as is. The session itself
      is a value, so merging cannot alter it. */
  lemma MergedHeaders(lib: Library, c: Client, verb: Method, endpoint: string, body: Json, params: Json,
                      extra: seq<Header>, timeout: int, name: string)
    ensures Lookup(BuildRequest(lib, c, verb, endpoint, body, params, extra, timeout).headers, name)
         == Overlay(LastValue(extra, name), Lookup(c.session.headers, name))
  {
    UpdateLookup(c.session.headers, extra, name);
  }

  /** Issues the request with the given timeout and normalises the outcome. */
  function Perform(lib: Library, send: Request -> Outcome, c: Client, verb: Method, endpoint: string,
                   body: Json, params: Json, extra: seq<Header>, timeout: int): (r: Call<Response>)
    ensures r.sent == Some(BuildRequest(lib, c, verb, endpoint, body, params, extra, timeout))
    ensures r.result == Normalise(send(r.sent.value))
  {
    var q := BuildRequest(lib, c, verb, endpoint, body, params, extra, timeout);
    Call(Some(q), Normalise(send(q)))
  }

  /** `_make_request(verb, endpoint, data, params, headers, **kwargs)`.
      The only keyword argument any caller passes is `timeout`; since the
      session call already receives `timeout=self.timeout`, passing it
      again is a duplicate keyword and raises `TypeError` before anything
      is sent. */
  function MakeRequest(lib: Library, send: Request -> Outcome, c: Client, verb: Method, endpoint: string,
                       body: Json, params: Json, extra: seq<Header>, kwTimeout: Option<int>): (r: Call<Response>)
    ensures kwTimeout.Some? ==> r == Call(None, Failure(TypeErrorRaised))
    ensures kwTimeout.None? ==> r.sent.Some? && r.sent.value.timeout == c.timeout
    ensures kwTimeout.None? ==> r == Perform(lib, send, c, verb, endpoint, body, params, extra, c.timeout)
  {
    if kwTimeout.Some? then Call(None, Failure(TypeErrorRaised))
    else Perform(lib, send, c, verb, endpoint, body, params, extra, c.timeout)
  }

  /** `response.json()` on the response `_make_request` returned. */
  function ResponseJson(call: Call<Response>): (r: Call<Json>)
    ensures r.sent == call.sent
    ensures r.result.Success? <==> call.result.Success? && call.result.value.body.Some?
    ensures r.result.Success? ==> r.result.value == call.result.value.body.value
    ensures call.result.Failure? ==> r.result == Failure(call.result.error)
    ensures call.result.Success? && call.result.value.body.None? ==> r.result == Failure(JsonDecodeErrorRaised)
  {
    match call.result
    case Failure(f) => Call(call.sent, Failure(f))
    case Success(resp) =>
      if resp.body.None? then Call(call.sent, Failure(JsonDecodeErrorRaised))
      else Call(call.sent, Success(resp.body.value))
  }

  /** What a data call promises once its request is sent: the decoded body
      of an ok response is returned, an ok response that is not JSON raises
      the decoding error, and every other outcome fails with the error the
      request's normalisation raised. */
  predicate ReturnsBody(send: Request -> Outcome, r: Call<Json>) {
    r.sent.Some? ==>
      var o := send(r.sent.value);
      && (r.result.Success? <==> o.Received? && IsOk(o.response.status) && o.response.body.Some?)
      && (r.result.Success? ==> r.result.value == o.response.body.value)
      && (o.Received? && IsOk(o.response.status) && o.response.body.None? ==>
            r.result == Failure(JsonDecodeErrorRaised))
      && (Normalise(o).Failure? ==> r.result == Failure(Normalise(o).error))
  }

  /** `get_resource(resource, params)` */
  function GetResource(lib: Library, send: Request -> Outcome, c: Client, resource: string, params: Json): (r: Call<Json>)
    ensures r.sent == Some(BuildRequest(lib, c, GET, resource, JNull, params, [], c.timeout))
    ensures ReturnsBody(send, r)
  {
    ResponseJson(MakeRequest(lib, send, c, GET, resource, JNull, params, [], None))
  }

  /** `list_resources(resource, params)` */
  function ListResources(lib: Library, send: Request -> Outcome, c: Client, resource: string, params: Json): (r: Call<Json>)
    ensures r.sent == Some(BuildRequest(lib, c, GET, resource, JNull, params, [], c.timeout))
    ensures ReturnsBody(send, r)
  {
    ResponseJson(MakeRequest(lib, send, c, GET, resource, JNull, params, [], None))
  }

  /** Listing and getting are the same request with the same result. */
  lemma ListIsGet(lib: Library, send: Request -> Outcome, c: Client, resource: string, params: Json)
    ensures ListResources(lib, send, c, resource, params) == GetResource(lib, send, c, resource, params)
  {
  }

  /** The body argument of `create_resource` / `update_resource`. */
  datatype Payload = Raw(text: string) | Data(data: Json)

  const InvalidJsonMessage: string := "Invalid JSON data provided"

  /** `json.loads` on a text payload (`None`: `JSONDecodeError`), or the
      data itself. */
  function Decode(p: Payload, parseJson: string -> Option<Json>): (r: Result<Json, Fault>)
    ensures p.Data? ==> r == Success(p.data)
    ensures p.Raw? ==> (r.Success? <==> parseJson(p.text).Some?)
    ensures p.Raw? && r.Success? ==> r.value == parseJson(p.text).value
    ensures r.Failure? ==> r.error == Api(APIError(JString(InvalidJsonMessage), None, None))
  {
    match p
    case Data(j) => Success(j)
    case Raw(s) =>
      match parseJson(s)
      case None => Failure(Api(APIError(JString(InvalidJsonMessage), None, None)))
      case Some(j) => Success(j)
  }

  /** Shared shape of creation and update: decode first, send only a
      decoded body. */
  function Write(lib: Library, send: Request -> Outcome, c: Client, verb: Method, resource: string,
                 data: Payload, parseJson: string -> Option<Json>): (r: Call<Json>)
    ensures Decode(data, parseJson).Failure? ==> r == Call(None, Decode(data, parseJson))
    ensures Decode(data, parseJson).Success? ==>
      r.sent == Some(BuildRequest(lib, c, verb, resource, Decode(data, parseJson).value, JNull, [], c.timeout))
    ensures ReturnsBody(send, r)
  {
    match Decode(data, parseJson)
    case Failure(f) => Call(None, Failure(f))
    case Success(body) => ResponseJson(MakeRequest(lib, send, c, verb, resource, body, JNull, [], None))
  }

  /** `create_resource(resource, data)` */
  function CreateResource(lib: Library, send: Request -> Outcome, c: Client, resource: string,
                          data: Payload, parseJson: string -> Option<Json>): (r: Call<Json>)
    ensures data.Raw? && parseJson(data.text).None? ==>
      r == Call(None, Failure(Api(APIError(JString(InvalidJsonMessage), None, None))))
    ensures r.sent.Some? <==> Decode(data, parseJson).Success?
    ensures r.sent.Some? ==> r.sent.value.verb == POST && r.sent.value.body == Decode(data, parseJson).value
    ensures Decode(data, parseJson).Success? ==>
      r.sent == Some(BuildRequest(lib, c, POST, resource, Decode(data, parseJson).value, JNull, [], c.timeout))
    ensures data.Data? ==> r.sent.Some? && r.sent.value.body == data.data
    ensures ReturnsBody(send, r)
  {
    Write(lib, send, c, POST, resource, data, parseJson)
  }

  /** `update_resource(resource, data)` */
  function UpdateResource(lib: Library, send: Request -> Outcome, c: Client, resource: string,
                          data: Payload, parseJson: string -> Option<Json>): (r: Call<Json>)
    ensures data.Raw? && parseJson(data.text).None? ==>
      r == Call(None, Failure(Api(APIError(JString(InvalidJsonMessage), None, None))))
    ensures r.sent.Some? <==> Decode(data, parseJson).Success?
    ensures r.sent.Some? ==> r.sent.value.verb == PUT && r.sent.value.body == Decode(data, parseJson).value
    ensures Decode(data, parseJson).Success? ==>
      r.sent == Some(BuildRequest(lib, c, PUT, resource, Decode(data, parseJson).value, JNull, [], c.timeout))
    ensures data.Data? ==> r.sent.Some? && r.sent.value.body == data.data
    ensures ReturnsBody(send, r)
  {
    Write(lib, send, c, PUT, resource, data, parseJson)
  }

  /** Creation and update differ only in the method: same URL, body,
      headers and settings, and the same result for the same outcome. */
  lemma CreateUpdateDifferOnlyInMethod(lib: Library, send: Request -> Outcome, c: Client, resource: string,
                                       data: Payload, parseJson: string -> Option<Json>)
    requires forall q: Request :: send(q) == send(q.(verb := POST))
    ensures CreateResource(lib, send, c, resource, data, parseJson).result
         == UpdateResource(lib, send, c, resource, data, parseJson).result
    ensures
      var s := UpdateResource(lib, send, c, resource, data, parseJson).sent;
      CreateResource(lib, send, c, resource, data, parseJson).sent == if s.Some? then Some(s.value.(verb := POST)) else None
  {
  }

  /** `delete_resource(resource)` */
  function DeleteResource(lib: Library, send: Request -> Outcome, c: Client, resource: string): (r: Call<bool>)
    ensures r.sent == Some(BuildRequest(lib, c, DELETE, resource, JNull, JNull, [], c.timeout))
    ensures r.result.Success? <==> send(r.sent.value).Received? && IsOk(send(r.sent.value).response.status)
    ensures r.result.Success? ==> (r.result.value <==> send(r.sent.value).response.status in {200, 204})
    ensures r.result.Failure? ==> Normalise(send(r.sent.value)) == Failure(r.result.error)
  {
    var call := MakeRequest(lib, send, c, DELETE, resource, JNull, JNull, [], None);
    match call.result
    case Failure(f) => Call(call.sent, Failure(f))
    case Success(resp) => Call(call.sent, Success(resp.status == 200 || resp.status == 204))
  }

  /** Deletion reports false for every other ok status, 202 and 3xx included. */
  lemma DeleteOtherOkStatusIsFalse(lib: Library, send: Request -> Outcome, c: Client, resource: string)
    requires var q := BuildRequest(lib, c, DELETE, resource, JNull, JNull, [], c.timeout);
             send(q).Received? && IsOk(send(q).response.status) && send(q).response.status != 200
             && send(q).response.status != 204
    ensures DeleteResource(lib, send, c, resource).result == Success(false)
  {
  }

  const HealthPath: string := "health"
  const HealthTimeout: int := 10

  /** The answer `health_check` derives from the request's result: true
      for status 200, false for any other ok status and for any `APIError`;
      other exceptions propagate. */
  function HealthVerdict(call: Call<Response>): (r: Call<bool>)
    ensures r.sent == call.sent
    ensures r.result == Success(true) <==> call.result.Success? && call.result.value.status == 200
    ensures r.result.Failure? <==> call.result.Failure? && !call.result.error.Api?
    ensures r.result.Failure? ==> r.result.error == call.result.error
  {
    match call.result
    case Success(resp) => Call(call.sent, Success(resp.status == 200))
    case Failure(Api(_)) => Call(call.sent, Success(false))
    case Failure(f) => Call(call.sent, Failure(f))
  }

  /** `health_check()` as written: the 10-second timeout travels through
      `**kwargs` next to `timeout=self.timeout`, a duplicate keyword. */
  function HealthCheckAsWritten(lib: Library, send: Request -> Outcome, c: Client): (r: Call<bool>)
    ensures r.sent.None? && r.result.Failure?
  {
    HealthVerdict(MakeRequest(lib, send, c, GET, HealthPath, JNull, JNull, [], Some(HealthTimeout)))
  }

  /** As written, the health check never reaches the server and never
      answers true or false: every call raises `TypeError`. */
  lemma HealthCheckAsWrittenAlwaysRaises(lib: Library, send: Request -> Outcome, c: Client)
    ensures HealthCheckAsWritten(lib, send, c) == Call(None, Failure(TypeErrorRaised))
  {
  }

  /** `health_check()` as intended: GET "health" with a 10-second timeout. */
  function HealthCheck(lib: Library, send: Request -> Outcome, c: Client): (r: Call<bool>)
    ensures r.sent == Some(BuildRequest(lib, c, GET, HealthPath, JNull, JNull, [], HealthTimeout))
    ensures r.result == Success(true) <==>
      send(r.sent.value).Received? && send(r.sent.value).response.status == 200
    ensures r.result.Failure? ==> r.result.error == TypeErrorRaised
    ensures
      var o := send(r.sent.value);
      o.Received? && IsOk(o.response.status) ==> r.result == Success(o.response.status == 200)
    ensures
      var n := Normalise(send(r.sent.value));
      n.Failure? ==> r.result == if n.error.Api? then Success(false) else Failure(n.error)
    ensures send(r.sent.value).TransportFailure? ==> r.result == Success(false)
    ensures
      var o := send(r.sent.value);
      o.Received? && !IsOk(o.response.status) && o.response.body.None? ==> r.result == Success(false)
  {
    HealthVerdict(Perform(lib, send, c, GET, HealthPath, JNull, JNull, [], HealthTimeout))
  }

  /** `close()` and the context manager's `__exit__`: the session is always
      set, so both close it; nothing else changes. */
  function Close(c: Client): (r: Client)
    ensures !r.session.open
    ensures r.baseUrl == c.baseUrl && r.token == c.token && r.timeout == c.timeout && r.verifySsl == c.verifySsl
    ensures r.session.headers == c.session.headers && r.session.verify == c.session.verify
  {
    c.(session := c.session.(open := false))
  }

  /** Closing twice is closing once. */
  lemma CloseIdempotent(c: Client)
    ensures Close(Close(c)) == Close(c)
  {
  }

  /** A closed client builds the same requests as before closing. */
  lemma CloseKeepsRequests(lib: Library, c: Client, verb: Method, endpoint: string, body: Json, params: Json,
                           extra: seq<Header>, timeout: int)
    ensures BuildRequest(lib, Close(c), verb, endpoint, body, params, extra, timeout)
         == BuildRequest(lib, c, verb, endpoint, body, params, extra, timeout)
  {
  }
}
