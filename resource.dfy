/**
 * The parts of a resource's request logic (lib/WorkamajigResource.js) that do
 * not need the client object: wiring the basic methods, copying properties
 * with `objectAssign`, and assembling the header map of `_request`.
 */
module ResourceRequest {
  import opened JsValues
  import opened BasicMethods

  /**
   * The methods a resource has after its constructor copied
   * `BASIC_METHODS[name]` onto it for every name of `includeBasic`, in order.
   * A name that is not a basic method copies `undefined`, which leaves the
   * resource without a callable method of that name.
   */
  function WithBasic(methods: map<string, MethodSpec>, names: seq<string>): (r: map<string, MethodSpec>)
    ensures r.Keys <= methods.Keys + Basic().Keys
    decreases |names|
  {
    if |names| == 0 then methods
    else
      var before := WithBasic(methods, names[..|names| - 1]);
      var name := names[|names| - 1];
      if name in Basic() then before[name := Basic()[name]] else before - {name}
  }

  /** The `includeBasic.forEach` loop of the resource constructor. */
  method IncludeBasic(methods: map<string, MethodSpec>, names: seq<string>)
    returns (r: map<string, MethodSpec>)
    ensures r == WithBasic(methods, names)
  {
    r := methods;
    var i := 0;
    while i < |names|
      invariant 0 <= i <= |names|
      invariant r == WithBasic(methods, names[..i])
    {
      assert names[..i + 1][..i] == names[..i];
      var name := names[i];
      if name in Basic() {
        r := r[name := Basic()[name]];
      } else {
        r := r - {name};
      }
      i := i + 1;
    }
    assert names[..i] == names;
  }

  /**
   * What the wiring gives: each listed basic method is the basic table's
   * entry, a listed name that is no basic method is gone, and every other
   * method of the resource is its own.
   */
  lemma {:induction false} WithBasicEntries(methods: map<string, MethodSpec>, names: seq<string>)
    ensures forall n :: n in names && n in Basic() ==>
              n in WithBasic(methods, names) && WithBasic(methods, names)[n] == Basic()[n]
    ensures forall n :: n in names && n !in Basic() ==> n !in WithBasic(methods, names)
    ensures forall n :: n !in names ==>
              (n in WithBasic(methods, names) <==> n in methods) &&
              (n in methods ==> WithBasic(methods, names)[n] == methods[n])
    decreases |names|
  {
    if |names| > 0 {
      var init := names[..|names| - 1];
      WithBasicEntries(methods, init);
      assert names == init + [names[|names| - 1]];
      forall n | n in names
        ensures n in init || n == names[|names| - 1]
      {
      }
    }
  }

  /** Wiring only ever adds basic methods named in `includeBasic`, with the basic table's declaration. */
  lemma {:induction false} WithBasicAddsOnlyBasic(methods: map<string, MethodSpec>, names: seq<string>)
    ensures forall n :: n in WithBasic(methods, names) && n !in methods ==>
              n in names && n in Basic() && WithBasic(methods, names)[n] == Basic()[n]
    ensures WithBasic(methods, names).Keys <= methods.Keys + Basic().Keys
  {
    WithBasicEntries(methods, names);
  }

  /** `objectAssign(target, source)`: every own property of `source` is copied over. */
  method ObjectAssign(target: map<string, JsValue>, source: map<string, JsValue>)
    returns (r: map<string, JsValue>)
    ensures r.Keys == target.Keys + source.Keys
    ensures forall k :: k in source ==> r[k] == source[k]
    ensures forall k :: k in target && k !in source ==> r[k] == target[k]
  {
    r := target;
    var pending := source.Keys;
    while pending != {}
      invariant pending <= source.Keys
      invariant r.Keys == target.Keys + (source.Keys - pending)
      invariant forall k :: k in source && k !in pending ==> r[k] == source[k]
      invariant forall k :: k in target && (k !in source || k in pending) ==> r[k] == target[k]
      decreases pending
    {
      var k :| k in pending;
      r := r[k := source[k]];
      pending := pending - {k};
    }
  }

  const AcceptHeader: JsValue := Str("application/json")
  const FormContentType: JsValue := Str("application/x-www-form-urlencoded")

  function UserAgentHeader(packageVersion: string): JsValue {
    Str("Workamajig/v1 NodeBindings/" + packageVersion)
  }

  /** The header names `_request` sets itself; the version header only for a truthy version. */
  function DefaultHeaderNames(apiVersion: JsValue): set<string> {
    {"Authorization", "Accept", "Content-Type", "Content-Length", "User-Agent",
     "X-Workamajig-Client-User-Agent"}
    + (if Truthy(apiVersion) then {"Workamajig-Version"} else {})
  }

  /**
   * The `headers` object of `_request`: the defaults, the version header when
   * a version is configured, the client user agent, then the call's own
   * headers assigned over them, so that these win on every name they use.
   */
  predicate HeadersFor(headers: map<string, JsValue>, authorization: JsValue, bodyLength: nat,
                       packageVersion: string, apiVersion: JsValue, clientUserAgent: JsValue,
                       overrides: map<string, JsValue>)
  {
    && headers.Keys == DefaultHeaderNames(apiVersion) + overrides.Keys
    && (forall k :: k in overrides ==> headers[k] == overrides[k])
    && ("Authorization" !in overrides ==> headers["Authorization"] == authorization)
    && ("Accept" !in overrides ==> headers["Accept"] == AcceptHeader)
    && ("Content-Type" !in overrides ==> headers["Content-Type"] == FormContentType)
    && ("Content-Length" !in overrides ==> headers["Content-Length"] == Num(bodyLength))
    && ("User-Agent" !in overrides ==> headers["User-Agent"] == UserAgentHeader(packageVersion))
    && ("X-Workamajig-Client-User-Agent" !in overrides ==>
          headers["X-Workamajig-Client-User-Agent"] == clientUserAgent)
    && (("Workamajig-Version" in headers) <==> Truthy(apiVersion) || "Workamajig-Version" in overrides)
    && ("Workamajig-Version" !in overrides && Truthy(apiVersion) ==>
          headers["Workamajig-Version"] == apiVersion)
  }

  /** The headers `_request` sets before the call's own headers are assigned over them. */
  predicate DefaultHeadersAre(defaults: map<string, JsValue>, authorization: JsValue, bodyLength: nat,
                              packageVersion: string, apiVersion: JsValue, clientUserAgent: JsValue)
  {
    && defaults.Keys == DefaultHeaderNames(apiVersion)
    && defaults["Authorization"] == authorization
    && defaults["Accept"] == AcceptHeader
    && defaults["Content-Type"] == FormContentType
    && defaults["Content-Length"] == Num(bodyLength)
    && defaults["User-Agent"] == UserAgentHeader(packageVersion)
    && defaults["X-Workamajig-Client-User-Agent"] == clientUserAgent
    && (Truthy(apiVersion) ==> defaults["Workamajig-Version"] == apiVersion)
  }

  /** Assigning the call's headers over the defaults gives the headers `_request` sends. */
  lemma AssignedOverDefaults(defaults: map<string, JsValue>, overrides: map<string, JsValue>,
                             headers: map<string, JsValue>, authorization: JsValue, bodyLength: nat,
                             packageVersion: string, apiVersion: JsValue, clientUserAgent: JsValue)
    requires DefaultHeadersAre(defaults, authorization, bodyLength, packageVersion, apiVersion, clientUserAgent)
    requires headers.Keys == defaults.Keys + overrides.Keys
    requires forall k :: k in overrides ==> headers[k] == overrides[k]
    requires forall k :: k in defaults && k !in overrides ==> headers[k] == defaults[k]
    ensures HeadersFor(headers, authorization, bodyLength, packageVersion, apiVersion, clientUserAgent, overrides)
  {
  }

  /** Builds the `headers` object of `_request`. */
  method AssembleHeaders(authorization: JsValue, bodyLength: nat, packageVersion: string,
                         apiVersion: JsValue, clientUserAgent: JsValue, overrides: map<string, JsValue>)
    returns (headers: map<string, JsValue>)
    ensures HeadersFor(headers, authorization, bodyLength, packageVersion, apiVersion, clientUserAgent, overrides)
  {
    var defaults := map[
      "Authorization" := authorization,
      "Accept" := AcceptHeader,
      "Content-Type" := FormContentType,
      "Content-Length" := Num(bodyLength),
      "User-Agent" := UserAgentHeader(packageVersion)];
    if Truthy(apiVersion) {
      defaults := defaults["Workamajig-Version" := apiVersion];
    }
    defaults := defaults["X-Workamajig-Client-User-Agent" := clientUserAgent];
    assert DefaultHeadersAre(defaults, authorization, bodyLength, packageVersion, apiVersion, clientUserAgent);
    headers := ObjectAssign(defaults, overrides);
    AssignedOverDefaults(defaults, overrides, headers, authorization, bodyLength, packageVersion,
                         apiVersion, clientUserAgent);
  }
}
