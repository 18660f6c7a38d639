/** The API client: how the list, create, update and delete calls shape
  * their HTTP request and how they turn the backend's response into a
  * returned value or a thrown error. The transport is a parameter
  * `fetch: Request -> Response`; the base URL is left out, so paths are
  * relative to it. */
module Api {
  import opened Values
  import Strings

  const ApiKeyField := "apiKey"
  const ApiKeyHeader := "X-API-KEY"
  const ContentTypeHeader := "content-type"
  const JsonContentType := "application/json"
  const HtmlContentType := "text/html"
  const LogsPath := "/api/logs"

  datatype HttpMethod = Get | Post | Put | Delete

  /** What the client hands to `fetch`. `body` is the object given to
    * `JSON.stringify` (serialisation itself is left out). */
  datatype Request = Request(
    httpMethod: HttpMethod,
    path: string,
    headers: map<string, string>,
    body: Option<map<string, Value>>)

  /** The result of `response.json()`: the decoded value, or the message of
    * the error it rejects with when the body is not JSON. */
  datatype Parsed = Parsed(value: Value) | Unparsable(message: string)

  /** What `fetch` resolves to, reduced to what the client reads:
    * `response.ok`, `response.headers.get("content-type")` (None for a
    * missing header, where `get` returns null), `response.text()` and
    * `response.json()`. */
  datatype Response = Response(
    ok: bool,
    contentType: Option<string>,
    text: string,
    json: Parsed)

  /** An error the call throws. `HttpError` is the `new Error(json.message)`
    * built for a non-ok response, with `error.response` when it is set;
    * `RuntimeFailure` is an exception raised on the way (a body that is not
    * JSON, a property read on null), carrying its message. */
  datatype Fault =
    | HttpError(message: string, response: Option<Value>)
    | RuntimeFailure(message: string)

  /** How an `async` API call settles. */
  datatype Outcome = Returned(value: Value) | Thrown(fault: Fault)

  /** The message of the TypeError raised when reading `prop` of null or
    * undefined (V8's wording). */
  function NullishReadMessage(v: Value, prop: string): string
    requires v.IsNullish()
  {
    "Cannot read properties of " + (if v.Null? then "null" else "undefined")
    + " (reading '" + prop + "')"
  }

  /** `json.message` on a value that is not null or undefined. */
  function MessageProperty(json: Value): (r: Value)
    requires !json.IsNullish()
    ensures json.Obj? && "message" in json.props ==> r == json.props["message"]
    ensures !(json.Obj? && "message" in json.props) ==> r.Undefined?
  {
    if json.Obj? then Lookup(json.props, "message") else Undefined
  }

  /** `new Error(m).message`: the empty string when `m` is undefined,
    * `String(m)` otherwise. */
  function ErrorMessage(m: Value): (r: string)
    ensures m.Str? ==> r == m.s
    ensures m.Undefined? ==> r == ""
  {
    if m.Undefined? then "" else ToText(m)
  }

  /** The error thrown for a non-ok response whose decoded body is `json`;
    * `attach` says whether `error.response = json` is set. Reading
    * `json.message` throws first when the body decoded to null. */
  function ErrorFrom(json: Value, attach: bool): Fault
  {
    if json.IsNullish() then RuntimeFailure(NullishReadMessage(json, "message"))
    else HttpError(ErrorMessage(MessageProperty(json)), if attach then Some(json) else None)
  }

  /** `if (response.ok) return json; throw error`. */
  function Settle(ok: bool, json: Value, attach: bool): Outcome
  {
    if ok then Returned(json) else Thrown(ErrorFrom(json, attach))
  }

  // ---------------------------------------------------------------------
  // Requests

  /** The headers of a create or update call: JSON content and the key the
    * caller put in `entry.apiKey` (converted to a string as `Headers` does). */
  function KeyedHeaders(props: map<string, Value>): map<string, string>
  {
    map[ContentTypeHeader := JsonContentType, ApiKeyHeader := ToText(Lookup(props, ApiKeyField))]
  }

  /** The caller's object after `delete entry.apiKey`. */
  function WithoutApiKey(props: map<string, Value>): (r: map<string, Value>)
    ensures ApiKeyField !in r
    ensures forall k :: k in props && k != ApiKeyField ==> k in r && r[k] == props[k]
    ensures forall k :: k in r ==> k in props
  {
    props - {ApiKeyField}
  }

  function ListRequest(): (r: Request)
    ensures r.httpMethod == Get && r.path == LogsPath
    ensures ApiKeyHeader !in r.headers && r.body.None?
  {
    Request(Get, LogsPath, map[], None)
  }

  function CreateRequest(props: map<string, Value>): (r: Request)
    ensures r.httpMethod == Post && r.path == LogsPath
    ensures r.headers.Keys == {ContentTypeHeader, ApiKeyHeader}
    ensures r.headers[ContentTypeHeader] == JsonContentType
    ensures r.headers[ApiKeyHeader] == ToText(Lookup(props, ApiKeyField))
    ensures r.body.Some? && ApiKeyField !in r.body.value
    ensures forall k :: k in props && k != ApiKeyField <==> k in r.body.value
    ensures forall k :: k in r.body.value ==> r.body.value[k] == props[k]
  {
    Request(Post, LogsPath, KeyedHeaders(props), Some(WithoutApiKey(props)))
  }

  function UpdateRequest(id: string, props: map<string, Value>): (r: Request)
    ensures r.httpMethod == Put && r.path == LogsPath + "/" + id
    ensures r.headers.Keys == {ContentTypeHeader, ApiKeyHeader}
    ensures r.headers[ContentTypeHeader] == JsonContentType
    ensures r.headers[ApiKeyHeader] == ToText(Lookup(props, ApiKeyField))
    ensures r.body.Some? && ApiKeyField !in r.body.value
    ensures forall k :: k in props && k != ApiKeyField <==> k in r.body.value
    ensures forall k :: k in r.body.value ==> r.body.value[k] == props[k]
  {
    Request(Put, LogsPath + "/" + id, KeyedHeaders(props), Some(WithoutApiKey(props)))
  }

  function DeleteRequest(id: string, apiKey: string): (r: Request)
    ensures r.httpMethod == Delete && r.path == LogsPath + "/" + id
    ensures r.headers.Keys == {ApiKeyHeader} && r.headers[ApiKeyHeader] == apiKey
    ensures r.body.None?
  {
    Request(Delete, LogsPath + "/" + id, map[ApiKeyHeader := apiKey], None)
  }

  /** The caller's object as it was before the call, put back together from
    * the request: the body plus the key carried in the header. */
  function CallerObject(req: Request): map<string, Value>
    requires req.body.Some? && ApiKeyHeader in req.headers
  {
    req.body.value[ApiKeyField := Str(req.headers[ApiKeyHeader])]
  }

  /** Nothing is lost by the move: the caller's object can be rebuilt from
    * the request of a create or an update. */
  lemma {:induction false} CallerObjectRoundTrip(id: string, props: map<string, Value>, req: Request)
    requires ApiKeyField in props && props[ApiKeyField].Str?
    requires req == CreateRequest(props) || req == UpdateRequest(id, props)
    ensures req.body.Some? && ApiKeyHeader in req.headers
    ensures CallerObject(req) == props
  {
    var rebuilt := CallerObject(req);
    assert forall k :: k in rebuilt <==> k in props;
    assert forall k :: k in rebuilt ==> rebuilt[k] == props[k];
  }

  /** Create posts to the collection; update and delete address one entry
    * below it, so they never hit the create path. */
  lemma ResourcePaths(id: string, p: map<string, Value>, q: map<string, Value>, key: string)
    ensures CreateRequest(p).path == ListRequest().path == LogsPath
    ensures UpdateRequest(id, q).path == DeleteRequest(id, key).path
    ensures Strings.StartsWith(UpdateRequest(id, q).path, LogsPath + "/")
    ensures CreateRequest(p).path != UpdateRequest(id, q).path
  {
    assert |UpdateRequest(id, q).path| > |LogsPath|;
  }

  // ---------------------------------------------------------------------
  // Responses

  /** The decoded value `json` of a create call: an HTML body is wrapped as
    * `{message: <raw text>}`, anything else goes through `response.json()`.
    * A missing content type makes `.includes` throw on null. */
  function CreateBody(resp: Response): (o: Outcome)
    ensures resp.contentType.None? ==> o.Thrown? && o.fault.RuntimeFailure?
    ensures resp.contentType.Some? && Strings.Contains(resp.contentType.value, HtmlContentType) ==>
      o.Returned? && o.value.Obj? && o.value.props.Keys == {"message"} &&
      MessageProperty(o.value) == Str(resp.text)
    ensures resp.contentType.Some? && !Strings.Contains(resp.contentType.value, HtmlContentType) ==>
      o == ReadJson(resp)
  {
    match resp.contentType
    case None => Thrown(RuntimeFailure(NullishReadMessage(Null, "includes")))
    case Some(ct) =>
      if Strings.Contains(ct, HtmlContentType) then Returned(Obj(map["message" := Str(resp.text)]))
      else
        match resp.json
        case Unparsable(m) => Thrown(RuntimeFailure(m))
        case Parsed(v) => Returned(v)
  }

  /** `createLogEntry` once the request is answered by `resp`. */
  function CreateOutcome(resp: Response): (o: Outcome)
    ensures resp.ok ==> o == CreateBody(resp)
    ensures !resp.ok ==> o.Thrown?
    ensures o.Thrown? && o.fault.HttpError? ==>
      !resp.ok && CreateBody(resp).Returned? && !CreateBody(resp).value.IsNullish() &&
      o.fault.response == Some(CreateBody(resp).value) &&
      o.fault.message == ErrorMessage(MessageProperty(CreateBody(resp).value))
  {
    match CreateBody(resp)
    case Thrown(f) => Thrown(f)
    case Returned(json) => Settle(resp.ok, json, true)
  }

  /** `response.json()` as the rest of the client uses it. */
  function ReadJson(resp: Response): (o: Outcome)
    ensures o.Returned? <==> resp.json.Parsed?
    ensures o.Returned? ==> o.value == resp.json.value
    ensures o.Thrown? ==> o.fault == RuntimeFailure(resp.json.message)
  {
    match resp.json
    case Unparsable(m) => Thrown(RuntimeFailure(m))
    case Parsed(v) => Returned(v)
  }

  /** `listLogEntries`: the decoded body, whatever the status. */
  function ListOutcome(resp: Response): (o: Outcome)
    ensures resp.json.Parsed? ==> o == Returned(resp.json.value)
    ensures resp.json.Unparsable? ==> o == Thrown(RuntimeFailure(resp.json.message))
  {
    ReadJson(resp)
  }

  /** `updateLogEntry` once the request is answered by `resp`. */
  function UpdateOutcome(resp: Response): (o: Outcome)
    ensures resp.ok ==> o == ReadJson(resp)
    ensures !resp.ok ==> o.Thrown?
    ensures o.Thrown? && o.fault.HttpError? ==>
      !resp.ok && o.fault.response.None? && resp.json.Parsed? && !resp.json.value.IsNullish() &&
      o.fault.message == ErrorMessage(MessageProperty(resp.json.value))
    ensures !resp.ok && resp.json.Parsed? && !resp.json.value.IsNullish() ==>
      o == Thrown(HttpError(ErrorMessage(MessageProperty(resp.json.value)), None))
    ensures resp.json.Unparsable? ==> o == Thrown(RuntimeFailure(resp.json.message))
  {
    match ReadJson(resp)
    case Thrown(f) => Thrown(f)
    case Returned(json) => Settle(resp.ok, json, false)
  }

  /** `deleteLogEntry` once the request is answered by `resp`: an ok
    * response returns its decoded body, any other is decoded for its message. */
  function DeleteOutcome(resp: Response): (o: Outcome)
    ensures o == UpdateOutcome(resp)
  {
    if resp.ok then ReadJson(resp)
    else
      match ReadJson(resp)
      case Thrown(f) => Thrown(f)
      case Returned(json) => Thrown(ErrorFrom(json, false))
  }

  /** A create answered with an HTML error page throws an error whose message
    * is the page's raw text and whose `response` is `{message: <text>}`. */
  lemma CreateHtmlError(resp: Response)
    requires resp.contentType.Some? && Strings.Contains(resp.contentType.value, HtmlContentType)
    requires !resp.ok
    ensures CreateOutcome(resp) == Thrown(HttpError(resp.text, Some(Obj(map["message" := Str(resp.text)]))))
  {
  }

  /** A create answered with a JSON error body `{message: m, ...}` throws an
    * error with message `m` that carries the whole body as `response`. */
  lemma CreateJsonError(resp: Response, m: string)
    requires resp.contentType.Some? && !Strings.Contains(resp.contentType.value, HtmlContentType)
    requires !resp.ok && resp.json.Parsed? && resp.json.value.Obj?
    requires "message" in resp.json.value.props && resp.json.value.props["message"] == Str(m)
    ensures CreateOutcome(resp) == Thrown(HttpError(m, Some(resp.json.value)))
  {
  }

  /** The backend's 400 answer `{"message":"Invalid title"}` makes create
    * throw "Invalid title". */
  lemma CreateBadRequestExample(resp: Response)
    requires resp == Response(false, Some("application/json; charset=utf-8"), "",
                              Parsed(Obj(map["message" := Str("Invalid title")])))
    ensures CreateOutcome(resp).Thrown? && CreateOutcome(resp).fault.message == "Invalid title"
  {
    assert HtmlContentType[2] == 'x';
    Strings.MissingCharNotContained(resp.contentType.value, HtmlContentType, 'x');
    CreateJsonError(resp, "Invalid title");
  }

  /** The backend's 500 HTML page "Internal Server Error" makes create throw
    * "Internal Server Error". */
  lemma CreateServerErrorExample(resp: Response)
    requires !resp.ok && resp.text == "Internal Server Error"
    requires resp.contentType == Some("text/html; charset=utf-8")
    ensures CreateOutcome(resp).Thrown? && CreateOutcome(resp).fault.message == "Internal Server Error"
  {
    var ct := resp.contentType.value;
    assert ct[0..|HtmlContentType|] == HtmlContentType;
    assert Strings.OccursAt(ct, HtmlContentType, 0);
    Strings.ContainsIffOccurs(ct, HtmlContentType);
    CreateHtmlError(resp);
  }

  /** Whatever the response, create returns exactly the decoded value when it
    * is ok, and a non-ok response that decodes to an object throws an error
    * whose message is that object's `message` and whose `response` is it. */
  lemma CreateSettles(resp: Response)
    ensures CreateBody(resp).Thrown? ==> CreateOutcome(resp) == CreateBody(resp)
    ensures CreateBody(resp).Returned? && resp.ok ==> CreateOutcome(resp) == CreateBody(resp)
    ensures CreateBody(resp).Returned? && !resp.ok && !CreateBody(resp).value.IsNullish() ==>
      var json := CreateBody(resp).value;
      CreateOutcome(resp) == Thrown(HttpError(ErrorMessage(MessageProperty(json)), Some(json)))
    ensures CreateOutcome(resp).Thrown? && CreateOutcome(resp).fault.HttpError? ==>
      !resp.ok && CreateOutcome(resp).fault.response.Some?
  {
  }

  /** For the same non-ok JSON object body, create and update throw the same
    * message and differ only in `error.response`. */
  lemma CreateUpdateDifferOnlyInResponse(resp: Response)
    requires resp.contentType.Some? && !Strings.Contains(resp.contentType.value, HtmlContentType)
    requires !resp.ok && resp.json.Parsed? && !resp.json.value.IsNullish()
    ensures CreateOutcome(resp).Thrown? && UpdateOutcome(resp).Thrown?
    ensures CreateOutcome(resp).fault.message == UpdateOutcome(resp).fault.message
    ensures CreateOutcome(resp).fault.response == Some(resp.json.value)
    ensures UpdateOutcome(resp).fault.response.None?
  {
  }

  // ---------------------------------------------------------------------
  // The calls, on the caller's object

  /** A JavaScript object the caller owns and the API functions mutate. */
  class JsObject {
    var props: map<string, Value>

    constructor(props: map<string, Value>)
      ensures this.props == props
    {
      this.props := props;
    }
  }

  /** `createLogEntry(entry)`: take the key out of `entry` (mutating it),
    * POST the rest, settle on the answer. */
  method CreateLogEntry(entry: JsObject, fetch: Request -> Response) returns (req: Request, outcome: Outcome)
    modifies entry
    ensures entry.props == WithoutApiKey(old(entry.props))
    ensures req == CreateRequest(old(entry.props))
    ensures outcome == CreateOutcome(fetch(req))
  {
    var apiKey := Lookup(entry.props, ApiKeyField);
    entry.props := entry.props - {ApiKeyField};
    req := Request(Post, LogsPath, map[ContentTypeHeader := JsonContentType, ApiKeyHeader := ToText(apiKey)],
                   Some(entry.props));
    var response := fetch(req);
    outcome := CreateOutcome(response);
  }

  /** `updateLogEntry(id, entry)`: as create, with PUT on the entry's path. */
  method UpdateLogEntry(id: string, entry: JsObject, fetch: Request -> Response) returns (req: Request, outcome: Outcome)
    modifies entry
    ensures entry.props == WithoutApiKey(old(entry.props))
    ensures req == UpdateRequest(id, old(entry.props))
    ensures outcome == UpdateOutcome(fetch(req))
  {
    var apiKey := Lookup(entry.props, ApiKeyField);
    entry.props := entry.props - {ApiKeyField};
    req := Request(Put, LogsPath + "/" + id, map[ContentTypeHeader := JsonContentType, ApiKeyHeader := ToText(apiKey)],
                   Some(entry.props));
    var response := fetch(req);
    outcome := UpdateOutcome(response);
  }
}
