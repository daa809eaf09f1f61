/**
 * The error taxonomy of lib/Error.js.
 *
 * A base error carries the `type` and `message` it was built with. The six
 * Workamajig error classes share one `populate`, which copies the fields of a
 * raw payload; they differ only in their own `type` tag. `generate` is the
 * factory that picks a class from the payload's `type` tag.
 */
module Errors {
  import opened JsValues

  /** The six Workamajig error classes (lib/Error.js:64-69). */
  datatype Kind = InvalidRequest | Api | Authentication | Permission | RateLimit | Connection

  /** The `type` field every instance of a Workamajig error class carries. */
  function TypeName(k: Kind): string {
    match k
    case InvalidRequest => "WorkamajigInvalidRequestError"
    case Api => "WorkamajigAPIError"
    case Authentication => "WorkamajigAuthenticationError"
    case Permission => "WorkamajigPermissionError"
    case RateLimit => "WorkamajigRateLimitError"
    case Connection => "WorkamajigConnectionError"
  }

  /**
   * The tag the API writes in a payload's `type` for the classes that
   * `generate` recognises; the other three classes are chosen by the HTTP
   * status or by the transport, never by a tag.
   */
  function WireTag(k: Kind): Option<string> {
    match k
    case Authentication => Some("authentication_error")
    case InvalidRequest => Some("invalid_request_error")
    case Api => Some("api_error")
    case Permission => None
    case RateLimit => None
    case Connection => None
  }

  datatype ErrorInstance =
      /** `new _Error(type, message)`: `tag` is the instance's `type` field. */
    | BaseError(tag: JsValue, message: JsValue)
      /** An instance of one of the Workamajig classes, after `populate(raw)`. */
    | WorkamajigError(kind: Kind, rawType: JsValue, code: JsValue, param: JsValue,
                      message: JsValue, detail: JsValue, raw: JsValue,
                      requestId: JsValue, statusCode: JsValue)

  /** The `type` field of an error instance. */
  function TypeOf(e: ErrorInstance): JsValue {
    match e
    case BaseError(tag, _) => tag
    case WorkamajigError(k, _, _, _, _, _, _, _, _) => Str(TypeName(k))
  }

  /** `new _Error(type, message)`: the base `populate` stores both arguments. */
  function NewError(tag: JsValue, message: JsValue): (e: ErrorInstance)
    ensures TypeOf(e) == tag && e.message == message
  {
    BaseError(tag, message)
  }

  /**
   * `new <Class>(raw)` for a Workamajig class: `populate` copies `raw.type`
   * into `rawType`, the fields `code`, `param`, `message`, `detail`,
   * `requestId` and `statusCode` under their own names, and `raw` itself,
   * while `type` stays the class's own tag.
   */
  function Populate(k: Kind, raw: JsValue): (e: ErrorInstance)
    ensures e.WorkamajigError? && e.kind == k && e.raw == raw
    ensures TypeOf(e) == Str(TypeName(k))
    ensures e.rawType == Prop(raw, "type")
    ensures e.code == Prop(raw, "code") && e.param == Prop(raw, "param")
    ensures e.message == Prop(raw, "message") && e.detail == Prop(raw, "detail")
    ensures e.requestId == Prop(raw, "requestId") && e.statusCode == Prop(raw, "statusCode")
  {
    WorkamajigError(k, Prop(raw, "type"), Prop(raw, "code"), Prop(raw, "param"),
                    Prop(raw, "message"), Prop(raw, "detail"), raw,
                    Prop(raw, "requestId"), Prop(raw, "statusCode"))
  }

  /**
   * `WorkamajigError.generate(raw)`: a strict-equality switch on `raw.type`.
   * A recognised tag builds its class from the tag STRING alone, not from the
   * payload; any other tag gives a base error of type 'Generic' whose message
   * is the tag, or 'Unknown Error' when the tag is falsy. Reading `raw.type`
   * throws for null and undefined, so the caller passes neither.
   */
  function Generate(raw: JsValue): (e: ErrorInstance)
    requires raw != Undefined && raw != Null
    ensures e.WorkamajigError? ==> e.kind in {Authentication, InvalidRequest, Api} && e.raw == Prop(raw, "type")
    ensures e.BaseError? ==> TypeOf(e) == Str("Generic") && Truthy(e.message)
  {
    var tag := Prop(raw, "type");
    if tag == Str("authentication_error") then Populate(Authentication, tag)
    else if tag == Str("invalid_request_error") then Populate(InvalidRequest, tag)
    else if tag == Str("api_error") then Populate(Api, tag)
    else NewError(Str("Generic"), OrElse(tag, Str("Unknown Error")))
  }

  /** No two classes share a `type` tag, and no class shares a wire tag. */
  lemma TagsDistinct(k1: Kind, k2: Kind)
    ensures TypeName(k1) == TypeName(k2) ==> k1 == k2
    ensures WireTag(k1).Some? && WireTag(k1) == WireTag(k2) ==> k1 == k2
  {
  }

  /**
   * `generate` recognises exactly the wire tags: it yields a Workamajig class
   * iff the payload's tag is the wire tag of some class, and then it is that
   * class.
   */
  lemma GenerateRecognisesWireTags(raw: JsValue)
    requires raw != Undefined && raw != Null
    ensures Generate(raw).WorkamajigError? <==>
              exists k :: WireTag(k).Some? && Prop(raw, "type") == Str(WireTag(k).value)
    ensures Generate(raw).WorkamajigError? ==>
              WireTag(Generate(raw).kind).Some? &&
              Prop(raw, "type") == Str(WireTag(Generate(raw).kind).value)
  {
    var tag := Prop(raw, "type");
    if tag == Str("authentication_error") {
      assert WireTag(Authentication).Some?;
    } else if tag == Str("invalid_request_error") {
      assert WireTag(InvalidRequest).Some?;
    } else if tag == Str("api_error") {
      assert WireTag(Api).Some?;
    } else {
      forall k | WireTag(k).Some?
        ensures tag != Str(WireTag(k).value)
      {
        match k
        case Authentication =>
        case InvalidRequest =>
        case Api =>
      }
    }
  }

  /** Round trip: a payload tagged with a class's wire tag generates that class. */
  lemma GenerateWireTagRoundTrip(k: Kind, raw: JsValue)
    requires WireTag(k).Some?
    requires raw.Obj? && Prop(raw, "type") == Str(WireTag(k).value)
    ensures Generate(raw).WorkamajigError? && Generate(raw).kind == k
    ensures TypeOf(Generate(raw)) == Str(TypeName(k))
  {
  }

  /** Any other tag, or none, gives a 'Generic' base error named after the tag. */
  lemma GenerateFallback(raw: JsValue)
    requires raw != Undefined && raw != Null
    requires forall k :: WireTag(k).Some? ==> Prop(raw, "type") != Str(WireTag(k).value)
    ensures Generate(raw) == BaseError(Str("Generic"), OrElse(Prop(raw, "type"), Str("Unknown Error")))
    ensures !Truthy(Prop(raw, "type")) ==> Generate(raw).message == Str("Unknown Error")
  {
    assert WireTag(Authentication).Some? && WireTag(InvalidRequest).Some? && WireTag(Api).Some?;
  }

  /**
   * What `generate` does NOT carry over: since the class is built from the tag
   * string, the result's `requestId`, `statusCode`, `message` and `code` are
   * undefined whatever the payload holds, and its `raw` is the tag itself.
   */
  lemma GenerateDropsPayloadFields(raw: JsValue)
    requires raw != Undefined && raw != Null
    requires Generate(raw).WorkamajigError?
    ensures Generate(raw).requestId == Undefined && Generate(raw).statusCode == Undefined
    ensures Generate(raw).message == Undefined && Generate(raw).code == Undefined
    ensures Generate(raw).raw == Prop(raw, "type")
  {
  }
}
