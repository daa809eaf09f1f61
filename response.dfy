/**
 * What `_responseHandler` (lib/WorkamajigResource.js:110-162) does with a
 * finished response: accumulate the body, decode it, and hand the callback
 * either an error or the decoded payload.
 */
module Responses {
  import opened JsValues
  import opened Errors

  /** The transport's response object: its status code and its `headers` value. */
  datatype Response = Response(statusCode: int, headers: JsValue)

  /** The result of `JSON.parse(body)`: a value, or the exception it threw. */
  datatype ParseResult = Parsed(value: JsValue) | ParseError(exception: JsValue)

  datatype Outcome =
      /** `callback(err, null)` */
    | Failed(error: ErrorInstance)
      /**
       * `callback(null, payload)`. `payload` holds the payload's enumerable
       * properties: those decoded from the body except `lastResponse`, which
       * `Object.defineProperty` replaces by the response object, attached as
       * the non-enumerable, read-only `lastResponse`.
       */
    | Succeeded(payload: JsValue, lastResponse: Response)
      /** An exception thrown out of the 'end' listener; the callback is not called. */
    | Escaped(exception: JsValue)

  const InvalidJsonMessage: string := "Invalid JSON received from the Workamajig API"

  /** The concatenation of the received chunks. */
  function Concat(chunks: seq<string>): string
    decreases |chunks|
  {
    if |chunks| == 0 then "" else Concat(chunks[..|chunks| - 1]) + chunks[|chunks| - 1]
  }

  /** `response += chunk` for every 'data' event, starting from ''. */
  method AccumulateChunks(chunks: seq<string>) returns (body: string)
    ensures body == Concat(chunks)
    ensures forall i :: 0 <= i < |chunks| ==> |chunks[i]| <= |body|
  {
    body := "";
    var i := 0;
    while i < |chunks|
      invariant 0 <= i <= |chunks|
      invariant body == Concat(chunks[..i])
      invariant forall k :: 0 <= k < i ==> |chunks[k]| <= |body|
    {
      assert chunks[..i + 1][..i] == chunks[..i];
      body := body + chunks[i];
      i := i + 1;
    }
    assert chunks[..i] == chunks;
  }

  /** `headers['request-id']` where `headers` is `res.headers || {}`. */
  function RequestIdOf(res: Response): (id: JsValue)
    ensures res.headers.Obj? && "request-id" in res.headers.fields ==> id == res.headers.fields["request-id"]
    ensures !(res.headers.Obj? && "request-id" in res.headers.fields) ==> id == Undefined
  {
    Prop(OrElse(res.headers, EmptyObject), "request-id")
  }

  /** The APIError reporting a body that could not be handled as JSON. */
  function InvalidJson(response: JsValue, exception: JsValue, requestId: JsValue): (e: ErrorInstance)
    ensures e.WorkamajigError? && e.kind == Api
    ensures e.message == Str(InvalidJsonMessage) && e.requestId == requestId
    ensures Prop(e.raw, "response") == response && Prop(e.raw, "exception") == exception
  {
    Populate(Api, Obj(map[
      "message" := Str(InvalidJsonMessage),
      "response" := response,
      "exception" := exception,
      "requestId" := requestId]))
  }

  /** The body's `error` object after `statusCode` and `requestId` are written onto it. */
  function Annotated(error: map<string, JsValue>, res: Response): (raw: JsValue)
    ensures raw.Obj? && Prop(raw, "statusCode") == Num(res.statusCode)
    ensures Prop(raw, "requestId") == RequestIdOf(res)
    ensures forall k :: k != "statusCode" && k != "requestId" ==> Prop(raw, k) == Prop(Obj(error), k)
  {
    Obj(error["statusCode" := Num(res.statusCode)]["requestId" := RequestIdOf(res)])
  }

  /** The error chosen for an annotated `error` object: the status first, then its tag. */
  function ErrorFor(status: int, raw: JsValue): (e: ErrorInstance)
    requires raw.Obj?
    ensures status == 401 ==> e.WorkamajigError? && e.kind == Authentication && e.raw == raw
    ensures status == 403 ==> e.WorkamajigError? && e.kind == Permission && e.raw == raw
    ensures status == 429 ==> e.WorkamajigError? && e.kind == RateLimit && e.raw == raw
    ensures status !in {401, 403, 429} ==> e == Generate(raw) && (e.WorkamajigError? ==> e.kind !in {Permission, RateLimit})
  {
    if status == 401 then Populate(Authentication, raw)
    else if status == 403 then Populate(Permission, raw)
    else if status == 429 then Populate(RateLimit, raw)
    else Generate(raw)
  }

  /**
   * The 'end' listener. Under strict mode a truthy `error` that is not an
   * object makes the `statusCode` write throw, and a decoded null makes the
   * `error` read throw; both land in the catch, whose APIError then carries
   * the decoded value. A decoded string, number or boolean passes the check
   * and makes `Object.defineProperty`, outside the try, throw.
   */
  function Classify(res: Response, body: string, parse: string -> ParseResult): (o: Outcome)
    // A body that is not JSON: an APIError with the unparsed body and the request id.
    ensures parse(body).ParseError? ==>
      o == Failed(InvalidJson(Str(body), parse(body).exception, RequestIdOf(res)))
    // An `error` object: the status decides first, then the tag.
    ensures parse(body).Parsed? && Truthy(Prop(parse(body).value, "error")) ==> o.Failed?
    ensures parse(body).Parsed? && Prop(parse(body).value, "error").Obj? ==>
      var raw := Annotated(Prop(parse(body).value, "error").fields, res);
      && o.error == ErrorFor(res.statusCode, raw)
      && (res.statusCode == 401 ==> o.error.kind == Authentication)
      && (res.statusCode == 403 ==> o.error.kind == Permission)
      && (res.statusCode == 429 ==> o.error.kind == RateLimit)
      && (res.statusCode in {401, 403, 429} ==>
            o.error.statusCode == Num(res.statusCode) && o.error.requestId == RequestIdOf(res))
      && (res.statusCode !in {401, 403, 429} ==> o.error == Generate(raw))
    // A decoded null, or a truthy `error` that is not an object: the strict-mode
    // TypeError lands in the catch, whose APIError carries the decoded value.
    ensures parse(body).Parsed? &&
            (parse(body).value.Null? ||
             (Truthy(Prop(parse(body).value, "error")) && !Prop(parse(body).value, "error").Obj?)) ==>
      o == Failed(InvalidJson(parse(body).value, EngineTypeError, RequestIdOf(res)))
    // A decoded object without `error`: delivered with its decoded properties,
    // except a decoded `lastResponse`, which gives way to the response.
    ensures parse(body).Parsed? && parse(body).value.Obj? && !Truthy(Prop(parse(body).value, "error")) ==>
      o == Succeeded(Obj(parse(body).value.fields - {"lastResponse"}), res)
    // The only successes are those.
    ensures o.Succeeded? ==>
      parse(body).Parsed? && parse(body).value.Obj? && !Truthy(Prop(parse(body).value, "error"))
      && o.payload == Obj(parse(body).value.fields - {"lastResponse"}) && o.lastResponse == res
    // Nothing escapes except for a decoded string, number or boolean.
    ensures o.Escaped? <==> parse(body).Parsed? && (parse(body).value.Str? || parse(body).value.Num? || parse(body).value.Bool?)
  {
    var requestId := RequestIdOf(res);
    match parse(body)
    case ParseError(e) => Failed(InvalidJson(Str(body), e, requestId))
    case Parsed(v) =>
      if v.Null? || v.Undefined? then Failed(InvalidJson(v, EngineTypeError, requestId))
      else
        var error := Prop(v, "error");
        if Truthy(error) then
          if error.Obj? then Failed(ErrorFor(res.statusCode, Annotated(error.fields, res)))
          else Failed(InvalidJson(v, EngineTypeError, requestId))
        else if v.Obj? then Succeeded(Obj(v.fields - {"lastResponse"}), res)
        else Escaped(EngineTypeError)
  }

  /**
   * Status precedence over the tag: a 429 whose body says
   * 'invalid_request_error' is a RateLimitError, and the tag is kept only as
   * its `rawType`.
   */
  lemma RateLimitBeatsInvalidRequestTag(res: Response, body: string, parse: string -> ParseResult, error: map<string, JsValue>)
    requires res.statusCode == 429
    requires parse(body) == Parsed(Obj(map["error" := Obj(error)]))
    requires "type" in error && error["type"] == Str("invalid_request_error")
    ensures Classify(res, body, parse).Failed?
    ensures Classify(res, body, parse).error.kind == RateLimit
    ensures Classify(res, body, parse).error.rawType == Str("invalid_request_error")
  {
    var raw := Annotated(error, res);
    assert Prop(raw, "type") == Prop(Obj(error), "type");
  }

  /**
   * A body with its own `lastResponse` key: the decoded value is gone, the
   * response object takes its place, and every other decoded property stays.
   */
  lemma DecodedLastResponseIsReplaced(res: Response, body: string, parse: string -> ParseResult,
                                      fields: map<string, JsValue>)
    requires parse(body) == Parsed(Obj(fields))
    requires "lastResponse" in fields && !Truthy(Prop(Obj(fields), "error"))
    ensures Classify(res, body, parse).Succeeded?
    ensures Classify(res, body, parse).lastResponse == res
    ensures "lastResponse" !in Classify(res, body, parse).payload.fields
    ensures forall k :: k in fields && k != "lastResponse" ==>
              k in Classify(res, body, parse).payload.fields &&
              Classify(res, body, parse).payload.fields[k] == fields[k]
  {
  }
}
