# Workamajig Node client: request building and response handling

This project is a Dafny model of the core of the Workamajig REST client for
Node. It covers:

- **The client object** (`lib/workamajig.js`): its `_api` field table, the
  setters, the cached client user agent, and the registration of one resource
  object per resource class.
- **The resource object** (`lib/WorkamajigResource.js`): wiring of the basic
  methods, copying of URL data, full path construction, the header and body
  assembly of `_request`, and the three per-request handlers. These are the
  timeout handler, the transport error handler and the response handler.
- **The error classes** (`lib/Error.js`) and `WorkamajigError.generate`.
- **The basic method table** (`lib/WorkamajigMethod.basic.js`) and the JSON
  body processor (`lib/JsonDataGenerator.js`).
- **Three resource declarations**: Contacts, Projects and Timesheets.

Files and modules:

| file | module | what it holds |
|---|---|---|
| `js_values.dfy` | `JsValues` | JavaScript values, truthiness, `||`, property reads, ASCII lowercasing, and `Dict`, an object shared by reference |
| `errors.dfy` | `Errors` | the error classes, `populate`, `generate` |
| `paths.dfy` | `Paths` | node's POSIX `path.join`/`normalize` and `createFullPath`, with the separator lemmas |
| `basic_methods.dfy` | `BasicMethods` | the basic method table and its URL placeholders |
| `resources.dfy` | `ResourceDecls` | the Contacts, Projects and Timesheets declarations |
| `resource.dfy` | `ResourceRequest` | basic-method wiring, `objectAssign`, header assembly |
| `json_data.dfy` | `JsonData` | `jsonDataGenerator` |
| `response.dfy` | `Responses` | body accumulation and the classification done by the response handler's `end` listener |
| `dispatch.dfy` | `Dispatch` | the three handlers as a state machine over events, and the `PendingRequest` object they update |
| `workamajig.dfy` | `Workamajig` | the `Client`, `UserAgentCache` and `Resource` classes |

Objects the code updates in place are classes with `modifies` clauses:

- the client's `_api` table;
- the user-agent cache;
- the caller's `options.headers`;
- the request's abort flag and callback log.

Pure decisions are functions with lemmas about them. These are path joining,
error generation and response classification.

Strict-mode JavaScript behaviour is modelled where it changes the outcome:

- **A truthy `error` that is not an object.** The write to its `statusCode`
  throws. The handler's catch then reports an APIError that carries the
  decoded value.
- **A decoded `null`.** Reading `.error` throws, with the same result.
- **A decoded string, number or boolean.** It passes the `error` check. Then
  `Object.defineProperty` throws outside the `try`, and the callback is never
  called (`Outcome.Escaped`).

### Behaviour of the code worth knowing

The model follows the code in each case:

- **Authorization.** Requests carry one `Authorization` header (HTTP Basic
  from the per-call `auth`, otherwise the client's `auth` field). No setter
  ever assigns that field, so the default header is `undefined`. The
  configured `accessToken`/`userToken` are stored, and `_request` never reads them.
- **Status handling.** The response handler looks only at 401, 403 and 429.
  These three take precedence over the error's tag; every other status,
  207 included, is handled by the body alone.
- **Request path.** The full path is the base path, the resource path and the
  command path, joined. The API version is not part of it; it goes out as the
  `Workamajig-Version` header.
- **Empty id.** `retrieve` declares its path as '/{id}', while `update` and
  `del` declare '{id}'. With a non-empty id, joining absorbs the leading '/'
  and the three give the same path (`Paths.LeadingSlashInCommandIsAbsorbed`).
  With an empty id, retrieve's path always ends in '/', while the others'
  is the joined base and resource path alone
  (`Paths.EmptyIdKeepsTrailingSlash`).
- **Content-Length.** The header is the body's `length`, which counts UTF-16
  code units, not bytes. A body with non-ASCII characters is written as UTF-8,
  so the header is then smaller than the number of bytes sent
  (`JsValues.CodeUnitsUndercountBytes`). The model states the header as the
  code-unit count (`JsValues.Utf16Length`).
- **Responses after a timeout.** The response handler does not check the
  abort flag. A response that completes after a timeout therefore reaches the
  callback a second time (`Dispatch.ResponseAfterTimeoutIsDelivered`).
- **`generate` loses payload fields.** `generate` builds the recognised
  classes from the tag string alone, so `requestId`, `statusCode`, `message`
  and `code` of the payload are lost (`Errors.GenerateDropsPayloadFields`).
  The tests in `test/Error.spec.js` lines 26-34 expect `requestId` and
  `statusCode` to be carried over.
- **The timeout's `detail`.** In `lib/WorkamajigResource.js`, `Error` is the
  client's own base class. So a timeout's `detail` has type 'ETIMEDOUT', code
  'ETIMEDOUT' and no message.

### Foreign code

Foreign code enters as parameters:

- **Functions passed in:** `JSON.parse` (`parse`), `JSON.stringify`
  (`stringify`), `utils.stringifyRequestData` (`formEncode`), base64 encoding
  (`base64`), and the interpolation done by `utils.makeURLInterpolator`
  (`interpolate`). These are bundled as `Workamajig.Externals`.
- **Values passed in:** node's default server timeout (`defaultTimeout`), the
  package version (`packageVersion`), and the seeded user-agent serialisation
  (`seededUserAgent`).

## Model

| member | source | states |
|---|---|---|
| JsValues.OrElse | lib/workamajig.js:57-62 | `v \|\| d` is `v` when `v` is truthy and `d` otherwise |
| JsValues.Prop | lib/WorkamajigResource.js:124 | an object's own property, or undefined when it is absent or the value is not an object |
| JsValues.Truthy | lib/WorkamajigResource.js:124 | a value is truthy iff it is not undefined, null, false, 0 or the empty string |
| JsValues.NatToDecimal | lib/WorkamajigResource.js:102 | the decimal text of a natural number: non-empty digits denoting that number, with no leading zero, and "0" for zero |
| JsValues.ToJsString | lib/WorkamajigResource.js:102 | string conversion: a string is itself, a number its decimal text (with '-' when negative), undefined and null their names |
| JsValues.Utf16Length | lib/WorkamajigResource.js:201 | a string's `length` is at least its number of characters, and equal to it when every character is in the Basic Multilingual Plane |
| JsValues.Utf8Length | lib/WorkamajigResource.js:201 | the UTF-8 byte count is at least the number of characters, and equal to it for ASCII text |
| JsValues.Utf16LengthOfAstralChar | lib/WorkamajigResource.js:201 | a character outside the Basic Multilingual Plane has `length` 2 |
| JsValues.CodeUnitsUndercountBytes | lib/WorkamajigResource.js:201 | 'é' has `length` 1 but takes 2 bytes in UTF-8, so the Content-Length undercounts a non-ASCII body |
| JsValues.LowerChar | lib/workamajig.js:85 | an ASCII capital becomes its lowercase letter (code point + 32); every other character is kept |
| JsValues.ToLower | lib/workamajig.js:85 | `toLowerCase` keeps the length, turns each ASCII capital into its lowercase letter in place, and keeps every other character |
| JsValues.ToLowerHttp | lib/workamajig.js:85 | the protocol 'HTTP' is stored as 'http' and 'Https' as 'https' |
| JsValues.ToLowerIdempotent | lib/workamajig.js:85 | lowercasing a stored protocol again changes nothing |
| JsValues.Dict.constructor | lib/WorkamajigResource.js:67 | a new object holds exactly the given properties |
| Errors.NewError | lib/Error.js:10-22 | the base error stores its type and message arguments |
| Errors.Populate | lib/Error.js:30-46 | a Workamajig error copies `type` into `rawType`, copies code, param, message, detail, requestId and statusCode from the payload, keeps the payload as `raw`, and keeps its class's own type name |
| Errors.Generate | lib/Error.js:51-61 | a generated Workamajig error is one of the three tagged classes and keeps the tag as raw; otherwise a 'Generic' base error with a non-empty message |
| Errors.TagsDistinct | lib/Error.js:51-69 | no two classes share a type name, and no two share a wire tag |
| Errors.GenerateRecognisesWireTags | lib/Error.js:51-61 | `generate` yields a Workamajig class iff the payload's tag is one of the three wire tags, and then the class is the one named by that tag |
| Errors.GenerateWireTagRoundTrip | lib/Error.js:51-59 | a payload tagged with a class's wire tag generates that class, whose type is the class name |
| Errors.GenerateFallback | lib/Error.js:60 | any other tag gives a 'Generic' base error whose message is the tag, or 'Unknown Error' when the tag is falsy |
| Errors.GenerateDropsPayloadFields | lib/Error.js:53-58 | a generated Workamajig error has undefined requestId, statusCode, message and code, and its raw is the tag string |
| Paths.Split | lib/WorkamajigResource.js:58-63 | splitting on '/' gives at least one segment and no segment contains '/' or a backslash that the input lacked |
| Paths.NonEmpty | lib/WorkamajigResource.js:58-63 | `path.join` keeps exactly its non-empty arguments: a string is kept iff it is a non-empty argument, no empty string is kept, and all the arguments are kept when none is empty |
| Paths.NonEmptyCounts | lib/WorkamajigResource.js:58-63 | each non-empty argument is kept as many times as it is given, and the empty string never |
| Paths.NonEmptyKeepsOrder | lib/WorkamajigResource.js:58-63 | a non-empty argument sits in the result right after the non-empty arguments before it, so the kept arguments stay in their order |
| Paths.Normalize | lib/WorkamajigResource.js:58-63 | a normalised path is non-empty and keeps a leading and a trailing '/' |
| Paths.PathJoin | lib/WorkamajigResource.js:58-63 | `path.join` gives a non-empty path, '.' when every argument is empty |
| Paths.ReplaceBackslashes | lib/WorkamajigResource.js:63 | replacing backslashes keeps the length, turns each backslash into '/', and keeps every other character |
| Paths.FullPath | lib/WorkamajigResource.js:57-64 | a full path never contains a backslash |
| Paths.JoinSplit | lib/WorkamajigResource.js:58-63 | joining the split segments gives back the path |
| Paths.SplitJoin | lib/WorkamajigResource.js:58-63 | splitting joined separator-free segments gives back the segments |
| Paths.SplitSlashFree | lib/WorkamajigResource.js:58-63 | a path without '/' is a single segment |
| Paths.SplitAppend | lib/WorkamajigResource.js:58-63 | splitting `a/b` gives the segments of `a` followed by those of `b` |
| Paths.NormSegsAppend | lib/WorkamajigResource.js:58-63 | normalising a concatenation of segments is normalising the second part after the first |
| Paths.NormSegsClean | lib/WorkamajigResource.js:58-63 | normalisation of separator-free segments yields only clean segments (non-empty, separator-free) |
| Paths.ConcatNoDouble | lib/WorkamajigResource.js:58-63 | concatenating two strings free of '//' creates no '//' unless the first ends and the second begins with '/' |
| Paths.JoinClean | lib/WorkamajigResource.js:58-63 | clean segments joined with '/' contain no backslash and no '//', and do not start or end with '/' |
| Paths.JoinNoBackslash | lib/WorkamajigResource.js:58-63 | joining backslash-free segments creates no backslash |
| Paths.NonEmptyNoBackslash | lib/WorkamajigResource.js:58-63 | dropping empty arguments keeps every argument backslash-free |
| Paths.NormalizeClean | lib/WorkamajigResource.js:58-63 | normalising a backslash-free path gives one with no '//' and no backslash |
| Paths.FullPathCollapsesSeparators | lib/WorkamajigResource.js:57-64 | for backslash-free parts, the full path never contains '//', however the parts begin and end |
| Paths.NonEmptyAppend | lib/WorkamajigResource.js:58-63 | dropping empty arguments distributes over concatenation |
| Paths.JoinSnoc | lib/WorkamajigResource.js:58-63 | joining with one more segment appends '/' and that segment |
| Paths.JoinNonEmpty | lib/WorkamajigResource.js:58-63 | a non-empty first segment begins the joined string: the join is non-empty and starts with that segment's first character |
| Paths.JoinSomeNonEmpty | lib/WorkamajigResource.js:58-63 | any one non-empty segment makes the join non-empty and at least as long as that segment |
| Paths.NormalizeAbsorbsDoubleSlash | lib/WorkamajigResource.js:58-63 | normalising `x//id` equals normalising `x/id` |
| Paths.JoinedParts | lib/WorkamajigResource.js:58-63 | the joined arguments of base, resource path and command are the joined prefix, '/', and the command |
| Paths.BackslashIsReplacedAfterJoining | lib/WorkamajigResource.js:57-64 | the POSIX join keeps a backslash in a path part, so the later replacement can create '//': base '/api/', empty resource path and command `\x` give `/api//x` |
| Paths.SplitRootedDouble | lib/WorkamajigResource.js:58-63 | '/a//c' splits into '', a, '' and c for separator-free a and c |
| Paths.NormalizeApiBackslash | lib/WorkamajigResource.js:58-63 | normalising `/api//\x` collapses the double separator and keeps the backslash |
| Paths.LeadingSlashInCommandIsAbsorbed | lib/WorkamajigMethod.basic.js:18-28 | a command path '/{id}' (retrieve) and '{id}' (update, del) give the same full path, for a non-empty id |
| Paths.EmptyIdKeepsTrailingSlash | lib/WorkamajigMethod.basic.js:18-28 | with an empty id the two differ: '/{id}' leaves the full path ending in '/', while '{id}' gives the joined base and resource path alone |
| BasicMethods.IndexOf | lib/WorkamajigMethod.basic.js:18-35 | the position of a character at or after an index, or none when it does not occur there |
| BasicMethods.Placeholders | lib/WorkamajigMethod.basic.js:18-35 | each placeholder name contains no '}' and occurs in the path between '{' and '}' |
| BasicMethods.BracedShift | lib/WorkamajigMethod.basic.js:18-35 | a placeholder occurring in a suffix of the path occurs in the path |
| BasicMethods.IdPlaceholder | lib/WorkamajigMethod.basic.js:18-35 | '{id}' and '/{id}' each have the single placeholder 'id' |
| BasicMethods.BasicTable | lib/WorkamajigMethod.basic.js:8-37 | create (POST) and list (GET) have no path and no URL parameters; retrieve (GET '/{id}'), update (POST '{id}') and del (DELETE '{id}') have the URL parameters ['id']; none has required parameters or headers; every entry declares exactly its path's placeholders |
| ResourceRequest.WithBasic | lib/WorkamajigResource.js:31-35 | the methods after `BASIC_METHODS[name]` is copied in for each `includeBasic` name in order: a basic name gets the basic table's method, a name outside the table is removed, and every other method is kept (`WithBasicEntries`); its contract states that the resulting names are only the resource's own and basic ones |
| ResourceRequest.WithBasicAddsOnlyBasic | lib/WorkamajigResource.js:31-35 | every method the wiring adds to a resource is a basic method named in `includeBasic`, with the basic table's declaration |
| ResourceRequest.IncludeBasic | lib/WorkamajigResource.js:31-35 | the `includeBasic` loop gives the methods of `WithBasic` |
| ResourceRequest.WithBasicEntries | lib/WorkamajigResource.js:31-35 | each included basic name holds the basic table's method, an included name outside the table is removed, every other method is kept |
| ResourceRequest.ObjectAssign | lib/WorkamajigResource.js:213-215 | `objectAssign` gives the union of keys, with the source's values winning and the target's kept elsewhere |
| ResourceRequest.AssignedOverDefaults | lib/WorkamajigResource.js:213-215 | assigning the per-call headers over the defaults gives exactly the headers `_request` sends (`HeadersFor`) |
| ResourceRequest.AssembleHeaders | lib/WorkamajigResource.js:194-216 | `HeadersFor`: the names are the defaults, the version header iff the version is truthy, the client user agent and the per-call names; every per-call header wins; otherwise Authorization, Accept (JSON), form Content-Type, Content-Length, User-Agent, client user agent and version hold their defaults |
| JsonData.JsonDataGenerator | lib/JsonDataGenerator.js:3-6 | sets the caller's Content-Type to application/json, changes no other header, and returns the stringified data |
| Responses.AccumulateChunks | lib/WorkamajigResource.js:113-118 | the body is the concatenation of all chunks in order |
| Responses.RequestIdOf | lib/WorkamajigResource.js:120-128 | the response's `request-id` header, or undefined when there is none or no headers object |
| Responses.ErrorFor | lib/WorkamajigResource.js:130-138 | 401, 403 and 429 give the authentication, permission and rate-limit errors over the raw error; any other status gives `generate`, never a permission or rate-limit error |
| Responses.InvalidJson | lib/WorkamajigResource.js:141-152 | an APIError with the invalid-JSON message, the request id, the response and the exception |
| Responses.Annotated | lib/WorkamajigResource.js:127-128 | the error object gains the status code and request id and keeps its other properties |
| Responses.Classify | lib/WorkamajigResource.js:119-160 | unparsable body → APIError; a decoded null, or a truthy `error` that is not an object → APIError carrying the decoded value, the engine's TypeError and the request id; a truthy object `error` → failure, 401/403/429 first with status and request id, else `generate`; an object without `error` → success carrying its decoded properties except `lastResponse`, with the response attached as `lastResponse`, and only then; the callback is skipped iff the body decodes to a string, number or boolean |
| Responses.DecodedLastResponseIsReplaced | lib/WorkamajigResource.js:154-158 | a decoded `lastResponse` property does not reach the caller: the payload drops it, keeps every other decoded property, and `lastResponse` is the response |
| Responses.RateLimitBeatsInvalidRequestTag | lib/WorkamajigResource.js:130-138 | a 429 is a rate-limit error whatever its tag, the tag kept as rawType |
| Dispatch.TimeoutError | lib/WorkamajigResource.js:93-104 | a ConnectionError naming the timeout in ms, whose detail has code and type 'ETIMEDOUT' and no message |
| Dispatch.ConnectionFailure | lib/WorkamajigResource.js:171-178 | a ConnectionError with the connection message and the transport error as detail |
| Dispatch.Step | lib/WorkamajigResource.js:90-180 | one event delivers at most one outcome and retracts none; abort is called once more iff it is a timeout; a transport error after abort changes nothing |
| Dispatch.Run | lib/WorkamajigResource.js:90-180 | a sequence of events delivers at most one outcome per event, and an aborted request stays aborted |
| Dispatch.RunKeepsHistory | lib/WorkamajigResource.js:90-180 | outcomes are never retracted, abort is called once per timeout, and the request is aborted iff a timeout fired |
| Dispatch.AbortedSwallowsErrors | lib/WorkamajigResource.js:164-170 | once aborted, transport errors change nothing |
| Dispatch.TimeoutSettles | lib/WorkamajigResource.js:90-108 | a timeout followed by transport errors yields one abort and exactly one delivered ConnectionError |
| Dispatch.ErrorBeforeTimeoutIsDelivered | lib/WorkamajigResource.js:164-180 | before a timeout, a transport error is delivered as a ConnectionError |
| Dispatch.ResponseAfterTimeoutIsDelivered | lib/WorkamajigResource.js:110-162 | a response completing after a timeout is delivered too, so the callback runs twice |
| Dispatch.PendingRequest.constructor | lib/WorkamajigResource.js:220-238 | a new request is not aborted and has delivered nothing |
| Dispatch.PendingRequest.OnTimeout | lib/WorkamajigResource.js:90-108 | sets the abort flag, aborts once more, delivers the timeout error |
| Dispatch.PendingRequest.OnError | lib/WorkamajigResource.js:164-180 | changes nothing on an aborted request, otherwise delivers a ConnectionError |
| Dispatch.PendingRequest.OnResponse | lib/WorkamajigResource.js:110-162 | delivers the classified response unless it escapes, leaving the abort state alone |
| Workamajig.LowerFirst | lib/workamajig.js:160-162 | a class name with its first letter lowercased and the rest unchanged |
| Workamajig.Registry | lib/workamajig.js:158-164 | the name-to-class map `_prepResources` builds: each class under its name with the first letter lowercased, a later class replacing an earlier one of the same name; stated by `RegistryNames` and `RegistryLaterWins` |
| Workamajig.RegistryLaterWins | lib/workamajig.js:158-164 | a class is registered under its lowercased-first name, holding that class, unless a later class has the same name (later entries win) |
| Workamajig.RegistryNames | lib/workamajig.js:158-164 | every class is registered under its lowercased-first name, and every registered resource is a declared class under that name |
| Workamajig.ResourceProperties | lib/workamajig.js:28-38 | Contacts, Projects and Timesheets are registered as contacts, projects and timesheets |
| Workamajig.ProjectsMethods | lib/resources/Projects.js:15-23 | Projects has just its own `list` (GET, requiring projectKey) and `create` (POST, declaring a JSON Content-Type header), and no basic method |
| Workamajig.ListOnlyMethods | lib/resources/Contacts.js:9-13 | Contacts and Timesheets (lib/resources/Timesheets.js:25-29) have exactly the basic `list` |
| Workamajig.DefaultApi | lib/workamajig.js:55-65 | the starting field table: null tokens and agent, the given host, version and timeout, the default port and base path, dev off, and no protocol or auth field |
| Workamajig.SetIfTruthy | lib/workamajig.js:92-105 | a truthy value is written; a falsy one leaves the field as it was |
| Workamajig.UserAgentCache.constructor | lib/workamajig.js:24 | the serialised user agent starts out null |
| Workamajig.Client.GetApiField | lib/workamajig.js:122-124 | the stored field, or undefined when never set |
| Workamajig.TokensThenVersion | lib/workamajig.js:68-69 | on the starting table (null tokens, version already set from the options), `setApiKey` then `setApiVersion` only write the tokens |
| Workamajig.Client.constructor | lib/workamajig.js:43-70 | the defaults with configured host and version, tokens only when truthy, and one new resource per class, bound to this client with its class's declaration, the base path '/api/' as template, empty URL data, the basic methods of its `includeBasic`, the default data processor and no host override |
| Workamajig.Client.SetApiField | lib/workamajig.js:118-120 | the field becomes the value and no other field changes |
| Workamajig.Client.SetProtocol | lib/workamajig.js:84-86 | stores the protocol lowercased |
| Workamajig.Client.SetPort | lib/workamajig.js:88-90 | stores the port |
| Workamajig.Client.SetHost | lib/workamajig.js:74-82 | stores the host; the port and the lowercased protocol only when given |
| Workamajig.Client.SetApiVersion | lib/workamajig.js:92-96 | stores a truthy version, ignores a falsy one |
| Workamajig.Client.SetApiKey | lib/workamajig.js:98-105 | stores each truthy token, ignores a falsy one |
| Workamajig.Client.SetTimeout | lib/workamajig.js:107-112 | null or undefined resets to the default timeout; anything else is stored |
| Workamajig.Client.SetHttpAgent | lib/workamajig.js:114-116 | stores the agent |
| Workamajig.Client.GetClientUserAgent | lib/workamajig.js:132-140 | a truthy cached serialisation is returned unchanged; otherwise the seeded one is cached and returned |
| Workamajig.Client.PrepResources | lib/workamajig.js:158-164 | one new resource per class under its registered name, bound to the client with its class's declaration, the client's base path as template, empty URL data, the basic methods of its `includeBasic`, the default data processor and no host override; other fields unchanged |
| Workamajig.Client.RegisterAll | lib/workamajig.js:160-163 | the registration loop: after it, the resources are the old ones plus one new resource per registered name, each built as `PrepResources` states |
| Workamajig.Resource.constructor | lib/WorkamajigResource.js:24-38 | binds the client and declaration, takes the client's base path, uses the URL data or a new empty object, wires the basic methods of `includeBasic`, and starts with the default data processor and no host override |
| Workamajig.Resource.CreateUrlData | lib/WorkamajigResource.js:66-75 | a new object with exactly the resource's URL data |
| Workamajig.Resource.CreateFullPath | lib/WorkamajigResource.js:57-64 | the full path never contains a backslash |
| Workamajig.Resource.RequestBody | lib/WorkamajigResource.js:184-190 | the JSON processor's body is the stringified data and it sets the call's Content-Type to JSON; otherwise the body is the form encoding of `data \|\| {}` and the call's headers are untouched |
| Workamajig.Resource.Request | lib/WorkamajigResource.js:182-250 | the headers are `HeadersFor` the Basic or client authorization, the body's length, the package version, the version and the cached client user agent, under the call's headers: JSON or form body; Content-Type JSON end to end for the JSON processor, form-encoded otherwise; per-call headers win; Accept is JSON; User-Agent names the package version; Content-Length is the body's UTF-16 length; Basic auth from the per-call key; the version header, holding the version, iff it is truthy; the client user agent is cached on first use and sent; host, port, agent and timeout from the client with the resource's host override; https unless the protocol is 'http' |

## Left out

- Transport I/O: sockets, `http(s).request`, `req.write`/`req.end`, `setEncoding` and the ciphers option are not modelled. The transport's events are the `Dispatch.Event` values.
- Asynchrony: promises, `wrapTimeout` and the deferred callback calls are not modelled. Outcomes are listed in the order the handlers deliver them.
- A callback that throws inside the response handler's `try` would re-enter the `catch` and be called again. That case is not modelled.
- `getClientUserAgentSeeded` (the `uname` call and the URI-encoding of the seed) is not modelled. Its serialisation is a parameter.
- `getConstant` is not modelled: the package version is a parameter.
- `Workamajig.Resource.constructor` does not model `initialize`, which is empty by default and is overridden by no modelled resource.
- lib/utils.js and lib/WorkamajigMethod.js are not part of this model. URL interpolation, request-data stringification and method dispatch enter as parameters (`Externals`) or are left out.
- Only the Contacts, Projects and Timesheets resource classes are modelled. The other six classes registered by lib/workamajig.js:28-38 are not.
- Numbers are integers: a fractional timeout or status code is not modelled.
- `JsValues.ToJsString` writes every integer with all its decimal digits. JavaScript numbers are doubles: from 1e21 up, `String(n)` uses exponent notation, and integers above 2^53 are not held exactly, so the source's text differs there.
- `Workamajig.Resource.constructor` always gives a resource the default data processor and a null `overrideHost`. In the source both are prototype properties (lib/WorkamajigResource.js:46-55) that a resource declaration may override through `extend({...})`. `ResourceDecl` does not carry them, and none of Contacts, Projects and Timesheets sets them, so no modelled resource reaches the JSON processor or a host override. The contracts of `Workamajig.Resource.Request` and `RequestBody` are nonetheless written for either processor and any host value, the two things such a declaration would set.
- `JsValues.ToLower` lowercases ASCII letters only, not the full Unicode case mapping of `toLowerCase`.
- `JSON.stringify(undefined)` returns `undefined`, not a string. The model takes `stringify` as a function to strings.
- `Workamajig.Resource.Request` stops at the options passed to the transport. The `ciphers` option is omitted.
- `Workamajig.Resource.CreateFullPath` states only the absence of backslashes. The '//'-freedom it also has for backslash-free parts is `Paths.FullPathCollapsesSeparators`.
- `Workamajig.Resource.Request` requires `options.headers` to be an object when the JSON processor is used. With no headers object, the source throws a TypeError at lib/JsonDataGenerator.js:4, called from lib/WorkamajigResource.js:187; that throw is not modelled.
- `Workamajig.Resource.RequestBody` has the same requirement on `options.headers`, for the same reason.
- `Workamajig.Client.SetProtocol` takes a string. A non-string protocol makes `toLowerCase` throw at lib/workamajig.js:85; that throw is not modelled.
- `Workamajig.Client.SetHost` requires a truthy protocol to be a string. With any other truthy protocol the source throws at lib/workamajig.js:85, after host and port have been written (lines 74-78); that partial update is not modelled.
- `Paths.PathJoin` is node's POSIX `path.join`. On Windows, `path.join` is the win32 variant, which treats a backslash as a separator and gives a different result (`Paths.BackslashIsReplacedAfterJoining` shows what the POSIX join gives).
