/**
 * The per-request handlers of lib/WorkamajigResource.js: `_timeoutHandler`
 * marks the request aborted, aborts it and reports a timeout;
 * `_errorHandler` reports a transport error unless the request was aborted;
 * `_responseHandler` reports the classified response (it does not look at
 * the abort flag).
 *
 * `Step` and `Run` give the effect of one event and of a sequence of events
 * on a request's state; `PendingRequest` is the request object whose
 * handlers update that state in place.
 */
module Dispatch {
  import opened JsValues
  import opened Errors
  import opened Responses

  /** What the transport can report for one request. */
  datatype Event =
    | TimedOut
    | TransportFailed(error: JsValue)
    | Responded(res: Response, chunks: seq<string>)

  /**
   * `aborted` is `req._isAborted`, `abortCalls` counts `req.abort()`, and
   * `delivered` lists the callback's invocations in order.
   */
  datatype CallState = CallState(aborted: bool, abortCalls: nat, delivered: seq<Outcome>)

  const Initial: CallState := CallState(false, 0, [])

  /**
   * The detail a timeout carries. `Error` in that file is the client's own
   * base error class, so `new Error('ETIMEDOUT')` has type 'ETIMEDOUT' and no
   * message; its `code` is then set to 'ETIMEDOUT'.
   */
  const TimeoutDetail: JsValue := Obj(map["type" := Str("ETIMEDOUT"), "code" := Str("ETIMEDOUT")])

  function TimeoutError(timeout: JsValue): (e: ErrorInstance)
    ensures e.WorkamajigError? && e.kind == Connection
    ensures e.message == Str("Request aborted due to timeout being reached (" + ToJsString(timeout) + "ms)")
    ensures Prop(e.detail, "code") == Str("ETIMEDOUT") && Prop(e.detail, "type") == Str("ETIMEDOUT")
    ensures Prop(e.detail, "message") == Undefined
  {
    Populate(Connection, Obj(map[
      "message" := Str("Request aborted due to timeout being reached (" + ToJsString(timeout) + "ms)"),
      "detail" := TimeoutDetail]))
  }

  function ConnectionFailure(error: JsValue): (e: ErrorInstance)
    ensures e.WorkamajigError? && e.kind == Connection
    ensures e.message == Str("An error occurred with our connection to Workamajig")
    ensures e.detail == error
  {
    Populate(Connection, Obj(map[
      "message" := Str("An error occurred with our connection to Workamajig"),
      "detail" := error]))
  }

  function Step(s: CallState, e: Event, timeout: JsValue, parse: string -> ParseResult): (r: CallState)
    ensures s.delivered <= r.delivered && |r.delivered| <= |s.delivered| + 1
    ensures r.abortCalls == s.abortCalls + (if e.TimedOut? then 1 else 0)
    ensures r.aborted <==> s.aborted || e.TimedOut?
    ensures s.aborted && e.TransportFailed? ==> r == s
  {
    match e
    case TimedOut =>
      CallState(true, s.abortCalls + 1, s.delivered + [Failed(TimeoutError(timeout))])
    case TransportFailed(error) =>
      if s.aborted then s else s.(delivered := s.delivered + [Failed(ConnectionFailure(error))])
    case Responded(res, chunks) =>
      var o := Classify(res, Concat(chunks), parse);
      if o.Escaped? then s else s.(delivered := s.delivered + [o])
  }

  function Run(s: CallState, events: seq<Event>, timeout: JsValue, parse: string -> ParseResult): (r: CallState)
    ensures |r.delivered| <= |s.delivered| + |events|
    ensures s.aborted ==> r.aborted
    decreases |events|
  {
    if |events| == 0 then s else Run(Step(s, events[0], timeout, parse), events[1..], timeout, parse)
  }

  function CountTimeouts(events: seq<Event>): nat
    decreases |events|
  {
    if |events| == 0 then 0 else (if events[0].TimedOut? then 1 else 0) + CountTimeouts(events[1..])
  }

  predicate OnlyTransportErrors(events: seq<Event>) {
    forall i :: 0 <= i < |events| ==> events[i].TransportFailed?
  }

  /**
   * Outcomes once delivered are never retracted, the abort flag never goes
   * back, `abort` is called once per timeout, and the flag is set exactly
   * when a timeout has fired.
   */
  lemma {:induction false} RunKeepsHistory(s: CallState, events: seq<Event>, timeout: JsValue, parse: string -> ParseResult)
    ensures s.delivered <= Run(s, events, timeout, parse).delivered
    ensures Run(s, events, timeout, parse).abortCalls == s.abortCalls + CountTimeouts(events)
    ensures Run(s, events, timeout, parse).aborted <==> s.aborted || TimedOut in events
    decreases |events|
  {
    if |events| > 0 {
      var e, rest := events[0], events[1..];
      var next := Step(s, e, timeout, parse);
      assert Run(s, events, timeout, parse) == Run(next, rest, timeout, parse);
      assert CountTimeouts(events) == (if e.TimedOut? then 1 else 0) + CountTimeouts(rest);
      assert events == [e] + rest;
      assert TimedOut in events <==> e == TimedOut || TimedOut in rest;
      assert s.delivered <= next.delivered;
      assert next.abortCalls == s.abortCalls + (if e.TimedOut? then 1 else 0);
      assert next.aborted <==> s.aborted || e.TimedOut?;
      RunKeepsHistory(next, rest, timeout, parse);
    }
  }

  /** On an aborted request, transport errors change nothing. */
  lemma {:induction false} AbortedSwallowsErrors(s: CallState, events: seq<Event>, timeout: JsValue, parse: string -> ParseResult)
    requires s.aborted
    requires OnlyTransportErrors(events)
    ensures Run(s, events, timeout, parse) == s
    decreases |events|
  {
    if |events| > 0 {
      assert events[0].TransportFailed?;
      AbortedSwallowsErrors(s, events[1..], timeout, parse);
    }
  }

  /**
   * A timeout settles a request against any later transport errors: one
   * abort, and a single delivered ConnectionError that names the timeout.
   */
  lemma TimeoutSettles(events: seq<Event>, timeout: JsValue, parse: string -> ParseResult)
    requires OnlyTransportErrors(events)
    ensures Run(Initial, [TimedOut] + events, timeout, parse)
              == CallState(true, 1, [Failed(TimeoutError(timeout))])
  {
    var afterTimeout := Step(Initial, TimedOut, timeout, parse);
    assert ([TimedOut] + events)[1..] == events;
    AbortedSwallowsErrors(afterTimeout, events, timeout, parse);
  }

  /** Before any timeout, a transport error is delivered, wrapped in a ConnectionError. */
  lemma ErrorBeforeTimeoutIsDelivered(s: CallState, error: JsValue, timeout: JsValue, parse: string -> ParseResult)
    requires !s.aborted
    ensures Run(s, [TransportFailed(error)], timeout, parse).delivered
              == s.delivered + [Failed(ConnectionFailure(error))]
  {
  }

  /**
   * The response handler does not consult the abort flag: a response that
   * completes after a timeout is delivered as a second outcome.
   */
  lemma ResponseAfterTimeoutIsDelivered(res: Response, chunks: seq<string>, timeout: JsValue, parse: string -> ParseResult)
    requires !Classify(res, Concat(chunks), parse).Escaped?
    ensures |Run(Initial, [TimedOut, Responded(res, chunks)], timeout, parse).delivered| == 2
  {
    var events := [TimedOut, Responded(res, chunks)];
    var s1 := Step(Initial, TimedOut, timeout, parse);
    assert |s1.delivered| == 1;
    var s2 := Step(s1, Responded(res, chunks), timeout, parse);
    assert |s2.delivered| == 2;
    assert events[1..] == [Responded(res, chunks)];
    assert Run(s1, events[1..], timeout, parse) == Run(s2, [], timeout, parse);
  }

  /** The request object `req` seen by the three handlers, with the callback's log. */
  class PendingRequest {
    var isAborted: bool
    var abortCalls: nat
    var delivered: seq<Outcome>
    /** The `timeout` value the handlers were created with. */
    const timeout: JsValue
    /** `JSON.parse` */
    const parse: string -> ParseResult

    function State(): CallState
      reads this
    {
      CallState(isAborted, abortCalls, delivered)
    }

    constructor (timeout: JsValue, parse: string -> ParseResult)
      ensures State() == Initial
      ensures this.timeout == timeout && this.parse == parse
    {
      this.timeout := timeout;
      this.parse := parse;
      isAborted := false;
      abortCalls := 0;
      delivered := [];
    }

    /** `_timeoutHandler(timeout, req, callback)` firing. */
    method OnTimeout()
      modifies this
      ensures State() == Step(old(State()), TimedOut, timeout, parse)
      ensures isAborted && abortCalls == old(abortCalls) + 1
      ensures delivered == old(delivered) + [Failed(TimeoutError(timeout))]
    {
      isAborted := true;
      abortCalls := abortCalls + 1;
      delivered := delivered + [Failed(TimeoutError(timeout))];
    }

    /** `_errorHandler(req, callback)` receiving `error`. */
    method OnError(error: JsValue)
      modifies this
      ensures State() == Step(old(State()), TransportFailed(error), timeout, parse)
      ensures old(isAborted) ==> State() == old(State())
      ensures !old(isAborted) ==> delivered == old(delivered) + [Failed(ConnectionFailure(error))]
    {
      if isAborted {
        return;
      }
      delivered := delivered + [Failed(ConnectionFailure(error))];
    }

    /** `_responseHandler(req, callback)`: the 'data' events, then 'end'. */
    method OnResponse(res: Response, chunks: seq<string>)
      modifies this
      ensures State() == Step(old(State()), Responded(res, chunks), timeout, parse)
      ensures isAborted == old(isAborted) && abortCalls == old(abortCalls)
    {
      var body := AccumulateChunks(chunks);
      var outcome := Classify(res, body, parse);
      if !outcome.Escaped? {
        delivered := delivered + [outcome];
      }
    }
  }
}
