/**
 * The client (lib/workamajig.js) and the resource objects it creates
 * (lib/WorkamajigResource.js). They are one module because each refers to the
 * other: the client registers its resources, and every resource reads the
 * client's field table when it builds a request.
 */
module Workamajig {
  import opened JsValues
  import opened BasicMethods
  import opened ResourceDecls
  import opened Paths
  import opened JsonData
  import opened ResourceRequest

  const DefaultHost: string := "api.workamajig.com"
  const DefaultPort: string := "443"
  const DefaultBasePath: string := "/api/"
  const DefaultApiVersion: string := "beta1"

  /** `config[key]` where `config` is `objectAssign({host: null, version: null, accessToken: null, userToken: null}, opts)`. */
  function ConfigField(opts: map<string, JsValue>, key: string): JsValue {
    if key in opts then opts[key] else Null
  }

  /** `name[0].toLowerCase() + name.substring(1)` */
  function LowerFirst(name: string): (r: string)
    requires |name| > 0
    ensures |r| == |name| && r[1..] == name[1..]
    ensures r[0] == LowerChar(name[0]) && !IsAsciiUpper(r[0])
  {
    ToLower(name[..1]) + name[1..]
  }

  predicate NamedEntries(table: seq<(string, ResourceDecl)>) {
    forall i :: 0 <= i < |table| ==> |table[i].0| > 0
  }

  /** The property name each resource class is registered under, later entries winning. */
  function Registry(table: seq<(string, ResourceDecl)>): map<string, ResourceDecl>
    requires NamedEntries(table)
    decreases |table|
  {
    if |table| == 0 then map[]
    else
      var last := table[|table| - 1];
      Registry(table[..|table| - 1])[LowerFirst(last.0) := last.1]
  }

  /** Registering one more class extends the registry by that one name. */
  lemma RegistryStep(table: seq<(string, ResourceDecl)>, i: nat)
    requires NamedEntries(table) && i < |table|
    ensures NamedEntries(table[..i]) && NamedEntries(table[..i + 1])
    ensures Registry(table[..i + 1]) == Registry(table[..i])[LowerFirst(table[i].0) := table[i].1]
  {
    assert table[..i + 1][..i] == table[..i];
  }

  /**
   * Every class is registered under its name with the first letter
   * lowercased, and every registered resource is one of the declared classes,
   * under that class's lowercased name.
   */
  lemma {:induction false} RegistryNames(table: seq<(string, ResourceDecl)>)
    requires NamedEntries(table)
    ensures forall i :: 0 <= i < |table| ==> LowerFirst(table[i].0) in Registry(table)
    ensures forall k :: k in Registry(table) ==>
              exists i :: 0 <= i < |table| && LowerFirst(table[i].0) == k && Registry(table)[k] == table[i].1
    decreases |table|
  {
    if |table| > 0 {
      var n := |table| - 1;
      var init := table[..n];
      RegistryNames(init);
      assert Registry(table) == Registry(init)[LowerFirst(table[n].0) := table[n].1];
      forall i | 0 <= i < |table|
        ensures LowerFirst(table[i].0) in Registry(table)
      {
        if i < n {
          assert init[i] == table[i];
        }
      }
      forall k | k in Registry(table)
        ensures exists i :: 0 <= i < |table| && LowerFirst(table[i].0) == k && Registry(table)[k] == table[i].1
      {
        if k == LowerFirst(table[n].0) {
          assert Registry(table)[k] == table[n].1;
        } else {
          assert k in Registry(init);
          var i :| 0 <= i < |init| && LowerFirst(init[i].0) == k && Registry(init)[k] == init[i].1;
          assert table[i] == init[i];
        }
      }
    }
  }

  /**
   * Later entries win: a class is registered under its name unless a later
   * class has the same lowercased-first name.
   */
  lemma {:induction false} RegistryLaterWins(table: seq<(string, ResourceDecl)>, i: nat)
    requires NamedEntries(table) && i < |table|
    requires forall j :: i < j < |table| ==> LowerFirst(table[j].0) != LowerFirst(table[i].0)
    ensures LowerFirst(table[i].0) in Registry(table)
    ensures Registry(table)[LowerFirst(table[i].0)] == table[i].1
    decreases |table|
  {
    var n := |table| - 1;
    if i < n {
      var init := table[..n];
      assert init[i] == table[i];
      assert forall j :: i < j < |init| ==> init[j] == table[j];
      RegistryLaterWins(init, i);
    }
  }

  /** Contacts is registered as `contacts`, Projects as `projects`, Timesheets as `timesheets`. */
  lemma ResourceProperties()
    ensures NamedEntries(ResourceTable)
    ensures Registry(ResourceTable) == map["contacts" := Contacts, "projects" := Projects, "timesheets" := Timesheets]
  {
    assert LowerFirst("Contacts") == "contacts" by {
      assert ToLower("C") == ['c'];
    }
    assert LowerFirst("Projects") == "projects" by {
      assert ToLower("P") == ['p'];
    }
    assert LowerFirst("Timesheets") == "timesheets" by {
      assert ToLower("T") == ['t'];
    }
    var t := ResourceTable;
    assert NamedEntries(t);
    var r1 := Registry(t[..1]);
    assert t[..1][..0] == [];
    assert t[..1][0] == ("Contacts", Contacts);
    assert r1 == Registry([])["contacts" := Contacts];
    var r2 := Registry(t[..2]);
    assert t[..2][..1] == t[..1];
    assert r2 == map["contacts" := Contacts, "projects" := Projects];
    assert t[..3] == t;
    assert t[..2] == t[..|t| - 1];
  }

  /**
   * Projects keeps only its own two methods: `list`, a GET that requires a
   * project key, and `create`, a POST that declares a JSON Content-Type header.
   * It includes no basic method.
   */
  lemma ProjectsMethods()
    ensures WithBasic(Projects.custom, Projects.includeBasic) == Projects.custom
    ensures Projects.custom.Keys == {"list", "create"}
    ensures Projects.custom["list"].verb == "GET" && Projects.custom["list"].required == Some(["projectKey"])
    ensures Projects.custom["create"].verb == "POST"
    ensures Projects.custom["create"].headers == Some(map["Content-Type" := Str("application/json")])
  {
  }

  /** Contacts and Timesheets have exactly the basic `list`, and nothing else. */
  lemma ListOnlyMethods()
    ensures WithBasic(Contacts.custom, Contacts.includeBasic) == map["list" := Basic()["list"]]
    ensures WithBasic(Timesheets.custom, Timesheets.includeBasic) == map["list" := Basic()["list"]]
  {
    assert ["list"][..0] == [];
  }

  /**
   * The `_api` table a new client starts from, before its tokens and version
   * are applied: no tokens, the default port and base path, no agent, not in
   * development mode.
   */
  function DefaultApi(host: JsValue, version: JsValue, timeout: JsValue): (api: map<string, JsValue>)
    ensures "protocol" !in api && "auth" !in api
    ensures "host" in api && api["host"] == host
    ensures "version" in api && api["version"] == version
    ensures "timeout" in api && api["timeout"] == timeout
    ensures "port" in api && api["port"] == Str(DefaultPort)
    ensures "basePath" in api && api["basePath"] == Str(DefaultBasePath)
    ensures "accessToken" in api && api["accessToken"] == Null && "userToken" in api && api["userToken"] == Null
    ensures "dev" in api && api["dev"] == Bool(false) && "agent" in api && api["agent"] == Null
  {
    map[
      "accessToken" := Null,
      "userToken" := Null,
      "host" := host,
      "port" := Str(DefaultPort),
      "basePath" := Str(DefaultBasePath),
      "version" := version,
      "timeout" := timeout,
      "agent" := Null,
      "dev" := Bool(false)]
  }

  /**
   * The field table after `if (v) { this._setApiField(key, v); }`: a falsy
   * value leaves an existing field as it was.
   */
  function SetIfTruthy(m: map<string, JsValue>, key: string, v: JsValue): (r: map<string, JsValue>)
    ensures Truthy(v) ==> r == m[key := v]
    ensures !Truthy(v) ==> r == m
    ensures key in m ==> r == m[key := OrElse(v, m[key])]
  {
    if Truthy(v) then m[key := v] else m
  }

  /**
   * On a table whose tokens are null and whose version is already the given
   * one when that is truthy, `setApiKey` then `setApiVersion` just write the
   * tokens.
   */
  lemma TokensThenVersion(m: map<string, JsValue>, access: JsValue, user: JsValue, version: JsValue)
    requires "accessToken" in m && m["accessToken"] == Null && "userToken" in m && m["userToken"] == Null
    requires "version" in m && (Truthy(version) ==> m["version"] == version)
    ensures SetIfTruthy(SetIfTruthy(SetIfTruthy(m, "accessToken", access), "userToken", user), "version", version)
            == m["accessToken" := OrElse(access, Null)]["userToken" := OrElse(user, Null)]
  {
    var keyed := m["accessToken" := OrElse(access, Null)]["userToken" := OrElse(user, Null)];
    assert SetIfTruthy(SetIfTruthy(m, "accessToken", access), "userToken", user) == keyed;
    assert Truthy(version) ==> keyed["version" := version] == keyed;
  }

  /** `Workamajig.USER_AGENT_SERIALIZED`, the process-wide cache shared by every client. */
  class UserAgentCache {
    var serialized: JsValue

    constructor ()
      ensures serialized == Null
    {
      serialized := Null;
    }
  }

  /** A Workamajig client: the `_api` field table and the registered resources. */
  class Client {
    var api: map<string, JsValue>
    var resources: map<string, Resource>
    /** `Workamajig.DEFAULT_TIMEOUT`, node's default server timeout. */
    const defaultTimeout: JsValue
    /** `Workamajig.PACKAGE_VERSION`, from the package manifest. */
    const packageVersion: string
    const userAgentCache: UserAgentCache

    /** `getApiField(key)` */
    function GetApiField(key: string): (v: JsValue)
      reads this
      ensures key in api ==> v == api[key]
      ensures key !in api ==> v == Undefined
    {
      if key in api then api[key] else Undefined
    }

    /**
     * `new Workamajig(opts)`. The `protocol` and `auth` fields are not set, so
     * requests go over https and the default Authorization header is undefined.
     */
    constructor (opts: map<string, JsValue>, defaultTimeout: JsValue, packageVersion: string,
                 userAgentCache: UserAgentCache)
      ensures this.defaultTimeout == defaultTimeout && this.packageVersion == packageVersion
      ensures this.userAgentCache == userAgentCache
      ensures api == DefaultApi(OrElse(ConfigField(opts, "host"), Str(DefaultHost)),
                                OrElse(ConfigField(opts, "version"), Str(DefaultApiVersion)),
                                defaultTimeout)
                       ["accessToken" := OrElse(ConfigField(opts, "accessToken"), Null)]
                       ["userToken" := OrElse(ConfigField(opts, "userToken"), Null)]
      ensures NamedEntries(ResourceTable)
      ensures resources.Keys == Registry(ResourceTable).Keys
      ensures forall k :: k in resources ==>
                fresh(resources[k]) && resources[k].decl == Registry(ResourceTable)[k] &&
                resources[k].Built(this, Str(DefaultBasePath)) && resources[k].urlData.entries == map[]
    {
      this.defaultTimeout := defaultTimeout;
      this.packageVersion := packageVersion;
      this.userAgentCache := userAgentCache;
      api := DefaultApi(OrElse(ConfigField(opts, "host"), Str(DefaultHost)),
                        OrElse(ConfigField(opts, "version"), Str(DefaultApiVersion)),
                        defaultTimeout);
      resources := map[];
      new;
      ghost var initial := api;
      var version := ConfigField(opts, "version");
      assert GetApiField("basePath") == Str(DefaultBasePath);
      PrepResources();
      assert GetApiField("basePath") == Str(DefaultBasePath);
      ghost var prepared := resources;
      assert prepared.Keys == Registry(ResourceTable).Keys;
      assert forall k :: k in prepared ==>
               fresh(prepared[k]) && prepared[k].decl == Registry(ResourceTable)[k] &&
               prepared[k].Built(this, Str(DefaultBasePath)) && prepared[k].urlData.entries == map[];
      assert forall k :: k in prepared ==> prepared[k].urlData as object != this;
      SetApiKey(ConfigField(opts, "accessToken"), ConfigField(opts, "userToken"));
      SetApiVersion(version);
      TokensThenVersion(initial, ConfigField(opts, "accessToken"), ConfigField(opts, "userToken"), version);
      assert resources == prepared;
    }

    /** `_setApiField(key, value)` */
    method SetApiField(key: string, value: JsValue)
      modifies this
      ensures api == old(api)[key := value] && resources == old(resources)
      ensures GetApiField(key) == value
      ensures forall k :: k != key ==> GetApiField(k) == old(GetApiField(k))
    {
      api := api[key := value];
    }

    /** `setProtocol(protocol)`: stored lowercased. */
    method SetProtocol(protocol: string)
      modifies this
      ensures api == old(api)["protocol" := Str(ToLower(protocol))] && resources == old(resources)
    {
      SetApiField("protocol", Str(ToLower(protocol)));
    }

    /** `setPort(port)` */
    method SetPort(port: JsValue)
      modifies this
      ensures api == old(api)["port" := port] && resources == old(resources)
    {
      SetApiField("port", port);
    }

    /**
     * `setHost(host, port, protocol)`: the host always, the port and the
     * protocol only when given (truthy). A truthy protocol has to be a string,
     * since it is lowercased.
     */
    method SetHost(host: JsValue, port: JsValue, protocol: JsValue)
      requires Truthy(protocol) ==> protocol.Str?
      modifies this
      ensures resources == old(resources)
      ensures api == old(api)["host" := host]
                + (if Truthy(port) then map["port" := port] else map[])
                + (if Truthy(protocol) then map["protocol" := Str(ToLower(protocol.s))] else map[])
      ensures GetApiField("host") == host
      ensures Truthy(protocol) ==> GetApiField("protocol") == Str(ToLower(protocol.s))
    {
      SetApiField("host", host);
      if Truthy(port) {
        SetPort(port);
      }
      if Truthy(protocol) {
        SetProtocol(protocol.s);
      }
    }

    /** `setApiVersion(version)`: a falsy version is ignored. */
    method SetApiVersion(version: JsValue)
      modifies this
      ensures resources == old(resources)
      ensures api == SetIfTruthy(old(api), "version", version)
    {
      if Truthy(version) {
        SetApiField("version", version);
      }
    }

    /** `setApiKey(access, user)`: each token only when it is truthy. */
    method SetApiKey(access: JsValue, user: JsValue)
      modifies this
      ensures resources == old(resources)
      ensures api == SetIfTruthy(SetIfTruthy(old(api), "accessToken", access), "userToken", user)
    {
      if Truthy(access) {
        SetApiField("accessToken", access);
      }
      if Truthy(user) {
        SetApiField("userToken", user);
      }
    }

    /** `setTimeout(timeout)`: null (or undefined, by `==`) resets to the default. */
    method SetTimeout(timeout: JsValue)
      modifies this
      ensures resources == old(resources)
      ensures api == old(api)["timeout" := if timeout == Null || timeout == Undefined then defaultTimeout else timeout]
    {
      SetApiField("timeout", if timeout == Null || timeout == Undefined then defaultTimeout else timeout);
    }

    /** `setHttpAgent(agent)` */
    method SetHttpAgent(agent: JsValue)
      modifies this
      ensures api == old(api)["agent" := agent] && resources == old(resources)
    {
      SetApiField("agent", agent);
    }

    /**
     * `getClientUserAgent(cb)`: the cached serialisation when there is one;
     * otherwise `seeded`, the serialisation `getClientUserAgentSeeded` computes,
     * which is stored first and then returned.
     */
    method GetClientUserAgent(seeded: string) returns (cua: JsValue)
      modifies userAgentCache
      ensures Truthy(old(userAgentCache.serialized)) ==>
                cua == old(userAgentCache.serialized) && userAgentCache.serialized == cua
      ensures !Truthy(old(userAgentCache.serialized)) ==>
                cua == Str(seeded) && userAgentCache.serialized == Str(seeded)
    {
      if Truthy(userAgentCache.serialized) {
        return userAgentCache.serialized;
      }
      userAgentCache.serialized := Str(seeded);
      cua := userAgentCache.serialized;
    }

    /** `_prepResources()`: one new resource per class, under its lowercased-first name. */
    method PrepResources()
      modifies this
      ensures api == old(api)
      ensures NamedEntries(ResourceTable)
      ensures resources.Keys == old(resources).Keys + Registry(ResourceTable).Keys
      ensures forall k :: k in Registry(ResourceTable) ==>
                fresh(resources[k]) && resources[k].decl == Registry(ResourceTable)[k] &&
                resources[k].Built(this, GetApiField("basePath")) && resources[k].urlData.entries == map[]
      ensures forall k :: k in old(resources) && k !in Registry(ResourceTable) ==>
                resources[k] == old(resources)[k]
    {
      assert NamedEntries(ResourceTable);
      RegisterAll(ResourceTable);
    }

    /**
     * The loop of `_prepResources`, over any table of named classes. Building
     * a resource reads only the client's `basePath`, so the new resources are
     * collected first and stored in `resources` once the loop is done.
     */
    method RegisterAll(table: seq<(string, ResourceDecl)>)
      requires NamedEntries(table)
      modifies this
      ensures api == old(api)
      ensures resources.Keys == old(resources).Keys + Registry(table).Keys
      ensures forall k :: k in Registry(table) ==>
                fresh(resources[k]) && resources[k].decl == Registry(table)[k] &&
                resources[k].Built(this, GetApiField("basePath")) && resources[k].urlData.entries == map[]
      ensures forall k :: k in old(resources) && k !in Registry(table) ==>
                resources[k] == old(resources)[k]
    {
      ghost var bp := GetApiField("basePath");
      ghost var reg: map<string, ResourceDecl> := map[];
      var made := resources;
      var i := 0;
      while i < |table|
        modifies {}
        invariant 0 <= i <= |table|
        invariant reg == Registry(table[..i])
        invariant made.Keys == resources.Keys + reg.Keys
        invariant forall k :: k in reg ==>
                    fresh(made[k]) && made[k].decl == reg[k] &&
                    made[k].Built(this, bp) && made[k].urlData.entries == map[]
        invariant forall k :: k in resources && k !in reg ==> made[k] == resources[k]
      {
        RegistryStep(table, i);
        var entry := table[i];
        var key := LowerFirst(entry.0);
        var resource := new Resource(this, entry.1, null);
        made := made[key := resource];
        reg := reg[key := entry.1];
        i := i + 1;
      }
      assert i == |table| && table[..i] == table;
      resources := made;
      assert GetApiField("basePath") == bp;
    }
  }

  /** How a resource turns request data into a body: `requestDataProcessor`. */
  datatype Processor = DefaultProcessor | JsonProcessor

  /** A command path: a literal, or a function of the URL data. */
  datatype CommandPath = Literal(s: string) | Template(f: map<string, JsValue> -> string)

  /**
   * The calls into code this model does not contain: `JSON.stringify`,
   * `utils.stringifyRequestData`, base64 encoding, and the interpolation a
   * `utils.makeURLInterpolator(template)` function performs.
   */
  datatype Externals = Externals(
    stringify: JsValue -> string,
    formEncode: JsValue -> string,
    base64: string -> string,
    interpolate: (JsValue, map<string, JsValue>) -> string)

  /** The options `_request` passes to `http(s).request`, and the body it writes. */
  datatype RequestOptions = RequestOptions(
    host: JsValue,
    port: JsValue,
    path: string,
    verb: string,
    agent: JsValue,
    headers: map<string, JsValue>,
    secure: bool,
    timeout: JsValue,
    body: string)

  /** A resource bound to its client. */
  class Resource {
    const client: Client
    const decl: ResourceDecl
    /** The client's `basePath` when the resource was built, kept as its template. */
    const basePathTemplate: JsValue
    const urlData: Dict
    const methods: map<string, MethodSpec>
    const requestDataProcessor: Processor
    const overrideHost: JsValue

    /** `new Resource(workamajig, urlData)`, with the basic methods of `includeBasic` wired in. */
    constructor (client: Client, decl: ResourceDecl, urlData: Dict?)
      ensures this.client == client && this.decl == decl
      ensures basePathTemplate == client.GetApiField("basePath")
      ensures urlData != null ==> this.urlData == urlData
      ensures urlData == null ==> fresh(this.urlData) && this.urlData.entries == map[]
      ensures methods == WithBasic(decl.custom, decl.includeBasic)
      ensures requestDataProcessor == DefaultProcessor && overrideHost == Null
      ensures Built(client, client.GetApiField("basePath"))
    {
      var wired := IncludeBasic(decl.custom, decl.includeBasic);
      this.client := client;
      this.decl := decl;
      basePathTemplate := client.GetApiField("basePath");
      if urlData == null {
        this.urlData := new Dict(map[]);
      } else {
        this.urlData := urlData;
      }
      requestDataProcessor := DefaultProcessor;
      overrideHost := Null;
      methods := wired;
    }

    /**
     * What `new Resource(client)` sets up: bound to the client, the client's
     * base path as template, the basic methods of its class's `includeBasic`
     * wired in, the default data processor and no host override.
     */
    predicate Built(c: Client, basePath: JsValue)
    {
      && client == c && basePathTemplate == basePath
      && methods == WithBasic(decl.custom, decl.includeBasic)
      && requestDataProcessor == DefaultProcessor && overrideHost == Null
    }

    /** `createUrlData()`: a new object with the resource's own URL data, copied property by property. */
    method CreateUrlData() returns (copy: Dict)
      ensures fresh(copy) && copy.entries == urlData.entries
    {
      copy := new Dict(map[]);
      var pending := urlData.entries.Keys;
      while pending != {}
        invariant pending <= urlData.entries.Keys
        invariant copy.entries.Keys == urlData.entries.Keys - pending
        invariant forall k :: k in copy.entries ==> copy.entries[k] == urlData.entries[k]
        decreases pending
      {
        var k :| k in pending;
        copy.entries := copy.entries[k := urlData.entries[k]];
        pending := pending - {k};
      }
    }

    /**
     * `createFullPath(commandPath, urlData)`: the interpolated base path,
     * resource path and command path, joined and normalised.
     */
    function CreateFullPath(ext: Externals, command: CommandPath, data: map<string, JsValue>): (r: string)
      ensures '\\' !in r
    {
      var cmd := match command
        case Literal(s) => s
        case Template(f) => f(data);
      FullPath(ext.interpolate(basePathTemplate, data), ext.interpolate(Str(decl.path), data), cmd)
    }

    /**
     * The body `_request` sends: the resource's data processor applied to the
     * data and the call's headers, or else the form encoding of `data || {}`.
     */
    method RequestBody(verb: string, data: JsValue, optionHeaders: Dict?, ext: Externals)
      returns (body: string)
      requires requestDataProcessor == JsonProcessor ==> optionHeaders != null
      modifies optionHeaders
      ensures requestDataProcessor == JsonProcessor ==>
                body == ext.stringify(data) &&
                optionHeaders.entries == old(optionHeaders.entries)["Content-Type" := Str("application/json")]
      ensures requestDataProcessor == DefaultProcessor ==>
                body == ext.formEncode(OrElse(data, EmptyObject)) &&
                (optionHeaders != null ==> optionHeaders.entries == old(optionHeaders.entries))
    {
      if requestDataProcessor == JsonProcessor {
        body := JsonDataGenerator(verb, data, optionHeaders, ext.stringify);
      } else {
        body := ext.formEncode(OrElse(data, EmptyObject));
      }
    }

    /**
     * `_request(method, path, data, auth, options)` up to the transport call:
     * encode the body, build the headers, and pick host, port and protocol.
     * A JSON processor writes into `options.headers`, which must then exist.
     */
    method Request(verb: string, path: string, data: JsValue, auth: JsValue, optionHeaders: Dict?,
                   ext: Externals, seededUserAgent: string)
      returns (options: RequestOptions)
      requires requestDataProcessor == JsonProcessor ==> optionHeaders != null
      modifies optionHeaders, client.userAgentCache
      ensures HeadersFor(options.headers,
                         if Truthy(auth) then Str("Basic " + ext.base64(ToJsString(auth) + ":"))
                         else client.GetApiField("auth"),
                         Utf16Length(options.body), client.packageVersion, client.GetApiField("version"),
                         client.userAgentCache.serialized,
                         if optionHeaders == null then map[] else optionHeaders.entries)
      ensures requestDataProcessor == JsonProcessor ==>
                options.body == ext.stringify(data) &&
                optionHeaders.entries == old(optionHeaders.entries)["Content-Type" := Str("application/json")] &&
                options.headers["Content-Type"] == Str("application/json")
      ensures requestDataProcessor == DefaultProcessor ==>
                options.body == ext.formEncode(OrElse(data, EmptyObject)) &&
                (optionHeaders != null ==> optionHeaders.entries == old(optionHeaders.entries))
      ensures Truthy(old(client.userAgentCache.serialized)) ==>
                client.userAgentCache.serialized == old(client.userAgentCache.serialized)
      ensures !Truthy(old(client.userAgentCache.serialized)) ==>
                client.userAgentCache.serialized == Str(seededUserAgent)
      ensures options.host == OrElse(overrideHost, client.GetApiField("host"))
      ensures options.port == client.GetApiField("port") && options.agent == client.GetApiField("agent")
      ensures options.timeout == client.GetApiField("timeout")
      ensures options.secure <==> client.GetApiField("protocol") != Str("http")
      ensures options.path == path && options.verb == verb
    {
      var requestData := RequestBody(verb, data, optionHeaders, ext);
      var apiVersion := client.GetApiField("version");
      var authorization :=
        if Truthy(auth) then Str("Basic " + ext.base64(ToJsString(auth) + ":"))
        else client.GetApiField("auth");
      var cua := client.GetClientUserAgent(seededUserAgent);
      var overrides := if optionHeaders == null then map[] else optionHeaders.entries;
      var headers := AssembleHeaders(authorization, Utf16Length(requestData), client.packageVersion,
                                     apiVersion, cua, overrides);
      assert cua == client.userAgentCache.serialized;
      assert requestDataProcessor == JsonProcessor ==> overrides["Content-Type"] == Str("application/json");
      options := RequestOptions(
        OrElse(overrideHost, client.GetApiField("host")),
        client.GetApiField("port"),
        path,
        verb,
        client.GetApiField("agent"),
        headers,
        client.GetApiField("protocol") != Str("http"),
        client.GetApiField("timeout"),
        requestData);
    }
  }
}
