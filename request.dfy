/** The `request(url, {method, body, headers})` wrapper of notify.js: how the
    outgoing request is prepared (method, headers, payload, timeout) and how
    a response is turned into a resolved or rejected promise. The socket, the
    choice between `http` and `https` and the timeout timer itself are not
    part of this model; what the network delivers is an input (`Arrival`). */
module Request {
  import opened Wrappers
  import opened Text

  const TimeoutMs := 10000
  const JsonType := "application/json"

  /** The `JSON.stringify` text of an object: never empty (at least `{}`). */
  type JsonText = s: string | s != "" witness "{}"

  /** What a caller passes as `body`: a string, or an object that is sent as
      its `JSON.stringify` text (the serialisation itself is not modelled, so
      the object carries that text). */
  datatype Body = TextBody(text: string) | ObjectBody(json: JsonText)

  /** The request as handed to the transport. */
  datatype Outgoing = Outgoing(verb: string, headers: map<string, string>, payload: Option<string>, timeoutMs: nat)

  /** `body ? (typeof body == "object" ? JSON.stringify(body) : body) : undefined`:
      an absent or empty string body sends nothing. */
  function Payload(body: Option<Body>): Option<string> {
    match body
    case None => None
    case Some(TextBody(t)) => if t == "" then None else Some(t)
    case Some(ObjectBody(j)) => Some(j)
  }

  /** The headers added automatically when there is a payload. */
  function AutoHeaders(payload: Option<string>): map<string, string> {
    match payload
    case None => map[]
    case Some(p) => map["Content-Type" := JsonType, "Content-Length" := NatToString(|p|)]
  }

  /** The options `request` hands to the transport: `method || "GET"`, the
      `timeout: 10000` option (it only arms a `timeout` event that nothing
      handles), and `{...(payload ? {...} : {}), ...headers}`, where
      the object spread puts the caller's headers last so that they win over
      the automatic ones. */
  function Prepare(verb: Option<string>, body: Option<Body>, headers: map<string, string>): (o: Outgoing)
    ensures o.payload.None? <==> body.None? || body == Some(TextBody(""))
    ensures o.payload.Some? ==> o.payload.value == match body.value case TextBody(t) => t case ObjectBody(j) => j
    ensures o.payload.None? ==> o.headers == headers
    ensures o.payload.Some? ==> o.headers.Keys == headers.Keys + {"Content-Type", "Content-Length"}
    ensures forall k :: k in headers ==> k in o.headers && o.headers[k] == headers[k]
    ensures o.payload.Some? && "Content-Type" !in headers ==> o.headers["Content-Type"] == JsonType
    ensures o.payload.Some? && "Content-Length" !in headers ==> o.headers["Content-Length"] == NatToString(|o.payload.value|)
    ensures o.verb == if verb.Some? && verb.value != "" then verb.value else "GET"
    ensures o.timeoutMs == 10000
  {
    var payload := Payload(body);
    Outgoing(if verb.Some? && verb.value != "" then verb.value else "GET", AutoHeaders(payload) + headers, payload, TimeoutMs)
  }

  /** What the network delivered for one request: a transport error (a
      failed DNS lookup, a refused or reset connection), or a response with
      its status line, its `content-type` header (absent or present), the
      body chunks, already decoded to text, in arrival order, and what
      `JSON.parse` makes of the buffered text (`None` when it throws; the
      JSON parser itself is not modelled). */
  datatype Arrival<J> =
    | NetworkError(reason: string)
    | Arrived(statusCode: int, statusMessage: string, contentType: Option<string>, chunks: seq<string>, parsed: Option<J>)

  datatype ResponseBody<J> = Raw(text: string) | Parsed(value: J)

  /** The response object `res` with `res.body` assigned. */
  datatype Response<J> = Response(statusCode: int, statusMessage: string, contentType: Option<string>, body: ResponseBody<J>)

  /** Why the promise rejected: the `error` event, or a response whose status
      is outside 200..399 (the response object itself is the reason). */
  datatype Rejection<J> = TransportFailure(reason: string) | ErrorStatus(response: Response<J>)

  /** How the promise of `request` ends. `Uncaught` is an exception thrown
      inside the response's `end` callback: it escapes the promise, which then
      never settles, and brings the process down. */
  datatype Settlement<J> = Resolved(response: Response<J>) | Rejected(cause: Rejection<J>) | Uncaught

  /** The content-type test of the `end` callback. */
  predicate IsJsonContentType(contentType: string) {
    contentType == JsonType || StartsWith(contentType, JsonType + ";")
  }

  predicate IsSuccessStatus(code: int) {
    200 <= code <= 399
  }

  /** The `end` callback: parse the body when the content type says JSON,
      then resolve on 200..399 and reject otherwise. A missing content-type
      header makes `undefined.startsWith(...)` throw, and so does a body that
      `JSON.parse` refuses. */
  function Finish<J>(code: int, message: string, contentType: Option<string>, data: string, parsed: Option<J>): (s: Settlement<J>)
    ensures s.Uncaught? <==> contentType.None? || (IsJsonContentType(contentType.value) && parsed.None?)
    ensures s.Resolved? <==> !s.Uncaught? && IsSuccessStatus(code)
    ensures s.Resolved? ==> s.response.statusCode == code && s.response.contentType == contentType
    ensures s.Rejected? ==> s.cause.ErrorStatus? && s.cause.response.statusCode == code
  {
    if contentType.None? then Uncaught
    else
      var json := IsJsonContentType(contentType.value);
      if json && parsed.None? then Uncaught
      else
        var body := if json then Parsed(parsed.value) else Raw(data);
        var res := Response(code, message, contentType, body);
        if code != 0 && IsSuccessStatus(code) then Resolved(res) else Rejected(ErrorStatus(res))
  }

  /** How the promise returned by `request` settles for what the network
      delivered. */
  function Settled<J>(a: Arrival<J>): (s: Settlement<J>)
    ensures a.NetworkError? <==> s.Rejected? && s.cause.TransportFailure?
    ensures a.NetworkError? ==> s.cause.reason == a.reason
    ensures a.Arrived? ==> s == Finish(a.statusCode, a.statusMessage, a.contentType, Concat(a.chunks), a.parsed)
  {
    match a
    case NetworkError(reason) => Rejected(TransportFailure(reason))
    case Arrived(code, message, contentType, chunks, parsed) => Finish(code, message, contentType, Concat(chunks), parsed)
  }

  /** The response handler of `request`: `data += chunk` on every `data`
      event, then the `end` callback. */
  method Receive<J>(a: Arrival<J>) returns (s: Settlement<J>)
    ensures s == Settled(a)
  {
    match a
    case NetworkError(reason) =>
      s := Rejected(TransportFailure(reason));
    case Arrived(code, message, contentType, chunks, parsed) =>
      var data := "";
      for i := 0 to |chunks|
        invariant data == Concat(chunks[..i])
      {
        assert chunks[..i + 1][..i] == chunks[..i];
        data := data + chunks[i];
      }
      assert chunks[..|chunks|] == chunks;
      s := Finish(code, message, contentType, data, parsed);
  }

  /** The body of a response that is not JSON is the exact text received, in
      whatever chunks it arrived. */
  lemma RawBodyIsReceivedText<J>(code: int, message: string, contentType: string, chunks: seq<string>, parsed: Option<J>)
    requires !IsJsonContentType(contentType)
    ensures var s := Settled(Arrived(code, message, Some(contentType), chunks, parsed));
            match s
            case Resolved(res) => res.body == Raw(Concat(chunks))
            case Rejected(cause) => cause.ErrorStatus? && cause.response.body == Raw(Concat(chunks))
            case Uncaught => false
  {
  }

  /** A JSON body is replaced by its parse, on both the resolve and the
      reject path. */
  lemma JsonBodyIsParsed<J>(code: int, message: string, contentType: string, chunks: seq<string>, value: J)
    requires IsJsonContentType(contentType)
    ensures var s := Settled(Arrived(code, message, Some(contentType), chunks, Some(value)));
            match s
            case Resolved(res) => res.body == Parsed(value)
            case Rejected(cause) => cause.ErrorStatus? && cause.response.body == Parsed(value)
            case Uncaught => false
  {
  }

  /** The content-type test is exact and case-sensitive: a parameter after
      `;` is allowed, anything else is not JSON. */
  lemma JsonContentTypeExamples()
    ensures IsJsonContentType("application/json")
    ensures IsJsonContentType("application/json; charset=utf-8")
    ensures !IsJsonContentType("application/jsonp")
    ensures !IsJsonContentType("application/json ; charset=utf-8")
    ensures !IsJsonContentType("Application/JSON")
    ensures !IsJsonContentType("text/plain")
  {
    assert ("application/json; charset=utf-8")[..17] == "application/json;";
    assert ("application/jsonp")[16] != (JsonType + ";")[16];
    assert ("application/json ; charset=utf-8")[16] != (JsonType + ";")[16];
  }

  /** A response without a content-type header never settles the promise,
      whatever its status. */
  lemma MissingContentTypeThrows<J>(code: int, message: string, chunks: seq<string>, parsed: Option<J>)
    ensures Settled(Arrived(code, message, None, chunks, parsed)) == Uncaught
  {
  }
}
