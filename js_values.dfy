/**
 * The JavaScript values the client reads and writes: configuration fields,
 * decoded response bodies, raw error payloads and header values.
 *
 * Numbers are integers (no floating point), and an object is the map of its
 * own enumerable properties; prototypes, getters and property order are not
 * modelled. Arrays are objects keyed by their indices.
 */
module JsValues {

  datatype Option<T> = None | Some(value: T)

  datatype JsValue =
    | Undefined
    | Null
    | Bool(b: bool)
    | Num(n: int)
    | Str(s: string)
    | Obj(fields: map<string, JsValue>)

  /** JavaScript truthiness: what `if (v)` and `v || d` test. */
  predicate Truthy(v: JsValue)
    ensures Truthy(v) <==> v !in {Undefined, Null, Bool(false), Num(0), Str("")}
  {
    match v
    case Undefined => false
    case Null => false
    case Bool(b) => b
    case Num(n) => n != 0
    case Str(s) => s != ""
    case Obj(_) => true
  }

  /** `v || d` */
  function OrElse(v: JsValue, d: JsValue): (r: JsValue)
    ensures Truthy(v) ==> r == v
    ensures !Truthy(v) ==> r == d
  {
    if Truthy(v) then v else d
  }

  /**
   * Reading property `key` of `v`: an own property of an object, otherwise
   * undefined. The properties read by the client (`type`, `code`, `message`,
   * `error`, `request-id`, ...) are never inherited, and strings, numbers and
   * booleans have none of them. Reading a property of null or undefined
   * throws in JavaScript; callers that can reach that case handle it first.
   */
  function Prop(v: JsValue, key: string): (r: JsValue)
    ensures v.Obj? && key in v.fields ==> r == v.fields[key]
    ensures !(v.Obj? && key in v.fields) ==> r == Undefined
  {
    match v
    case Obj(m) => if key in m then m[key] else Undefined
    case _ => Undefined
  }

  /** The JavaScript object literal with no properties, `{}`. */
  const EmptyObject: JsValue := Obj(map[])

  /**
   * The TypeError that the engine throws in strict mode (a property write on
   * a primitive, a property read on null, `Object.defineProperty` on a
   * primitive). Its message text is the engine's and is not modelled.
   */
  const EngineTypeError: JsValue := Obj(map["name" := Str("TypeError")])

  function DigitChar(d: nat): char
    requires d < 10
  {
    "0123456789"[d]
  }

  predicate AllDigits(s: string) {
    forall i :: 0 <= i < |s| ==> '0' <= s[i] <= '9'
  }

  /** The number a string of decimal digits denotes. */
  function DecimalValue(s: string): nat
    requires AllDigits(s)
    decreases |s|
  {
    if |s| == 0 then 0
    else DecimalValue(s[..|s| - 1]) * 10 + (s[|s| - 1] as int - '0' as int)
  }

  /** Decimal digits of a natural number, most significant first. */
  function NatToDecimal(n: nat): (r: string)
    ensures |r| > 0 && AllDigits(r)
    ensures DecimalValue(r) == n
    ensures n > 0 ==> r[0] != '0'
    ensures n == 0 ==> r == "0"
    decreases n
  {
    if n < 10 then [DigitChar(n)]
    else
      var r := NatToDecimal(n / 10) + [DigitChar(n % 10)];
      assert r[..|r| - 1] == NatToDecimal(n / 10);
      r
  }

  /** String conversion as done by `'...' + v` for the values above. */
  function ToJsString(v: JsValue): (r: string)
    ensures v.Str? ==> r == v.s
    ensures v.Num? && v.n >= 0 ==> AllDigits(r) && DecimalValue(r) == v.n
    ensures v.Num? && v.n < 0 ==> |r| > 1 && r[0] == '-' && AllDigits(r[1..]) && DecimalValue(r[1..]) == -v.n
    ensures v == Undefined ==> r == "undefined"
    ensures v == Null ==> r == "null"
  {
    match v
    case Undefined => "undefined"
    case Null => "null"
    case Bool(b) => if b then "true" else "false"
    case Num(n) =>
      if n < 0 then
        var r := "-" + NatToDecimal(-n);
        assert r[1..] == NatToDecimal(-n);
        r
      else NatToDecimal(n)
    case Str(s) => s
    case Obj(_) => "[object Object]"
  }

  /**
   * `s.length`: JavaScript strings count UTF-16 code units, so a character
   * outside the Basic Multilingual Plane counts twice.
   */
  function Utf16Length(s: string): (n: nat)
    ensures n >= |s|
    ensures (forall i :: 0 <= i < |s| ==> s[i] as int < 0x1_0000) ==> n == |s|
    decreases |s|
  {
    if |s| == 0 then 0
    else (if s[0] as int < 0x1_0000 then 1 else 2) + Utf16Length(s[1..])
  }

  /** The number of bytes of `s` in UTF-8, the encoding node writes a string body in by default. */
  function Utf8Length(s: string): (n: nat)
    ensures n >= |s|
    ensures (forall i :: 0 <= i < |s| ==> s[i] as int < 0x80) ==> n == |s|
    decreases |s|
  {
    if |s| == 0 then 0
    else
      var c := s[0] as int;
      (if c < 0x80 then 1 else if c < 0x800 then 2 else if c < 0x1_0000 then 3 else 4) + Utf8Length(s[1..])
  }

  /** A character outside the Basic Multilingual Plane has length 2 in JavaScript. */
  lemma Utf16LengthOfAstralChar()
    ensures Utf16Length("\U{1F600}") == 2
    ensures |"\U{1F600}"| == 1
  {
  }

  /** `'é'.length` is 1 while its UTF-8 encoding takes 2 bytes. */
  lemma CodeUnitsUndercountBytes()
    ensures Utf16Length("\U{E9}") == 1 && Utf8Length("\U{E9}") == 2
  {
  }

  predicate IsAsciiUpper(c: char) {
    'A' <= c <= 'Z'
  }

  function LowerChar(c: char): (r: char)
    ensures !IsAsciiUpper(r)
    ensures !IsAsciiUpper(c) ==> r == c
    ensures IsAsciiUpper(c) ==> 'a' <= r <= 'z' && r as int == c as int + 32
  {
    if IsAsciiUpper(c) then (c as int + 32) as char else c
  }

  /** `s.toLowerCase()`, restricted to the ASCII letters. */
  function ToLower(s: string): (r: string)
    ensures |r| == |s|
    ensures forall i :: 0 <= i < |r| ==> !IsAsciiUpper(r[i])
    ensures forall i :: 0 <= i < |s| && !IsAsciiUpper(s[i]) ==> r[i] == s[i]
    ensures forall i :: 0 <= i < |s| && IsAsciiUpper(s[i]) ==> r[i] as int == s[i] as int + 32
  {
    seq(|s|, i requires 0 <= i < |s| => LowerChar(s[i]))
  }

  lemma ToLowerIdempotent(s: string)
    ensures ToLower(ToLower(s)) == ToLower(s)
  {
  }

  /** A protocol given as 'HTTP' is stored as 'http', which selects the insecure transport. */
  lemma ToLowerHttp()
    ensures ToLower("HTTP") == "http"
    ensures ToLower("Https") == "https"
  {
  }

  /**
   * A JavaScript object that is shared by reference and updated in place:
   * the per-resource URL data and the per-call header override object.
   */
  class Dict {
    var entries: map<string, JsValue>

    constructor (entries: map<string, JsValue>)
      ensures this.entries == entries
    {
      this.entries := entries;
    }
  }
}
