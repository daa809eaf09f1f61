/**
 * Method specifications: the declarations that `WorkamajigMethod` (a factory
 * that is not part of this model) turns into callable operations. The five
 * basic ones are lib/WorkamajigMethod.basic.js; resources add their own.
 */
module BasicMethods {
  import opened JsValues

  /**
   * One declaration as written in the source: an HTTP verb and, each of them
   * possibly absent, a command path template, the URL parameter names, the
   * required body parameter names and header overrides.
   */
  datatype MethodSpec = MethodSpec(
    verb: string,
    path: Option<string>,
    urlParams: Option<seq<string>>,
    required: Option<seq<string>>,
    headers: Option<map<string, JsValue>>)

  /** `WorkamajigResource.BASIC_METHODS` */
  function Basic(): map<string, MethodSpec> {
    map[
      "create" := MethodSpec("POST", None, None, None, None),
      "list" := MethodSpec("GET", None, None, None, None),
      "retrieve" := MethodSpec("GET", Some("/{id}"), Some(["id"]), None, None),
      "update" := MethodSpec("POST", Some("{id}"), Some(["id"]), None, None),
      "del" := MethodSpec("DELETE", Some("{id}"), Some(["id"]), None, None)
    ]
  }

  /** The first index at or after `from` where `c` occurs in `s`. */
  function IndexOf(s: string, c: char, from: nat): (r: Option<nat>)
    requires from <= |s|
    ensures r.Some? ==> from <= r.value < |s| && s[r.value] == c
    ensures r.Some? ==> forall k :: from <= k < r.value ==> s[k] != c
    ensures r.None? ==> forall k :: from <= k < |s| ==> s[k] != c
    decreases |s| - from
  {
    if from == |s| then None
    else if s[from] == c then Some(from)
    else IndexOf(s, c, from + 1)
  }

  /**
   * The names of the `{name}` placeholders of a path template, in order; an
   * opening brace with no closing brace after it starts no placeholder.
   */
  function Placeholders(s: string): (names: seq<string>)
    ensures forall i :: 0 <= i < |names| ==> '}' !in names[i]
    ensures forall i :: 0 <= i < |names| ==> OccursBraced(s, names[i])
    ensures |names| <= |s|
    decreases |s|
  {
    if |s| == 0 then []
    else if s[0] != '{' then
      var rest := Placeholders(s[1..]);
      BracedShift(s, 1, rest);
      rest
    else
      match IndexOf(s, '}', 1)
      case None => []
      case Some(j) =>
        var rest := Placeholders(s[j + 1..]);
        BracedShift(s, j + 1, rest);
        assert Braced(s, s[1..j], 0) by {
          assert s[0..j + 1] == "{" + s[1..j] + "}";
        }
        [s[1..j]] + rest
  }

  /** `"{" + name + "}"` occurs in `s` at index `k`. */
  predicate Braced(s: string, name: string, k: int) {
    0 <= k && k + |name| + 2 <= |s| && s[k..k + |name| + 2] == "{" + name + "}"
  }

  /** `"{" + name + "}"` occurs somewhere in `s`. */
  predicate OccursBraced(s: string, name: string) {
    exists k :: 0 <= k <= |s| && Braced(s, name, k)
  }

  /** A placeholder found in a suffix of `s` occurs in `s` itself. */
  lemma BracedShift(s: string, d: nat, names: seq<string>)
    requires d <= |s|
    requires forall i :: 0 <= i < |names| ==> OccursBraced(s[d..], names[i])
    ensures forall i :: 0 <= i < |names| ==> OccursBraced(s, names[i])
  {
    forall i | 0 <= i < |names|
      ensures OccursBraced(s, names[i])
    {
      assert OccursBraced(s[d..], names[i]);
      var k :| 0 <= k <= |s[d..]| && Braced(s[d..], names[i], k);
      assert s[d..][k..k + |names[i]| + 2] == s[k + d..k + d + |names[i]| + 2];
      assert Braced(s, names[i], k + d);
    }
  }

  function PathPlaceholders(m: MethodSpec): seq<string> {
    if m.path.Some? then Placeholders(m.path.value) else []
  }

  function DeclaredUrlParams(m: MethodSpec): seq<string> {
    if m.urlParams.Some? then m.urlParams.value else []
  }

  /** Every placeholder of the path is a declared URL parameter, and conversely. */
  predicate DeclaresItsPlaceholders(m: MethodSpec) {
    && (forall p :: p in PathPlaceholders(m) ==> p in DeclaredUrlParams(m))
    && (forall u :: u in DeclaredUrlParams(m) ==> u in PathPlaceholders(m))
  }

  lemma IdPlaceholder()
    ensures Placeholders("{id}") == ["id"]
    ensures Placeholders("/{id}") == ["id"]
  {
    assert IndexOf("{id}", '}', 1) == Some(3);
    assert "{id}"[1..3] == "id";
    assert "{id}"[4..] == "";
    assert "/{id}"[1..] == "{id}";
  }

  /**
   * The basic table: `create` is POST and `list` is GET, neither with a path
   * or URL parameters; `retrieve` is GET on '/{id}', `update` is POST and
   * `del` is DELETE on '{id}', all three with the single URL parameter 'id';
   * and every entry declares exactly the placeholders of its path.
   */
  lemma BasicTable()
    ensures Basic().Keys == {"create", "list", "retrieve", "update", "del"}
    ensures Basic()["create"].verb == "POST" && Basic()["list"].verb == "GET"
    ensures Basic()["retrieve"].verb == "GET" && Basic()["update"].verb == "POST"
    ensures Basic()["del"].verb == "DELETE"
    ensures Basic()["create"].path == None && Basic()["create"].urlParams == None
    ensures Basic()["list"].path == None && Basic()["list"].urlParams == None
    ensures PathPlaceholders(Basic()["create"]) == [] && DeclaredUrlParams(Basic()["create"]) == []
    ensures PathPlaceholders(Basic()["list"]) == [] && DeclaredUrlParams(Basic()["list"]) == []
    ensures Basic()["retrieve"].path == Some("/{id}") && Basic()["retrieve"].urlParams == Some(["id"])
    ensures Basic()["update"].path == Some("{id}") && Basic()["update"].urlParams == Some(["id"])
    ensures Basic()["del"].path == Some("{id}") && Basic()["del"].urlParams == Some(["id"])
    ensures forall name :: name in Basic() ==>
              Basic()[name].required == None && Basic()[name].headers == None
    ensures forall name :: name in Basic() ==> DeclaresItsPlaceholders(Basic()[name])
  {
    IdPlaceholder();
    forall name | name in Basic()
      ensures DeclaresItsPlaceholders(Basic()[name])
    {
      if name == "retrieve" || name == "update" || name == "del" {
        assert PathPlaceholders(Basic()[name]) == ["id"];
        assert DeclaredUrlParams(Basic()[name]) == ["id"];
      }
    }
  }
}
