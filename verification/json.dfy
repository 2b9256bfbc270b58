/**
 * The dynamically-typed values the orchestrator reads a decoded plan
 * through, with JavaScript's truthiness, `||`, `?.` and `.` semantics.
 * `JSON.parse` itself is not modelled: callers receive it as an abstract
 * partial decoder `string -> Option<Json>`.
 */
module JsonValue {
  import opened Wrappers
  import opened Errors

  /** A JSON value, plus `JUndefined` for a property read that finds nothing. */
  datatype Json =
    | JUndefined
    | JNull
    | JBool(b: bool)
    | JNum(n: real)
    | JStr(s: string)
    | JArr(items: seq<Json>)
    | JObj(fields: map<string, Json>)

  predicate Nullish(v: Json) {
    v.JUndefined? || v.JNull?
  }

  /** JavaScript truthiness; a decoded value is never NaN, so only 0 is a falsy number. */
  predicate Truthy(v: Json) {
    match v
    case JUndefined => false
    case JNull => false
    case JBool(b) => b
    case JNum(n) => n != 0.0
    case JStr(s) => s != ""
    case JArr(_) => true
    case JObj(_) => true
  }

  /** `v || d`: the left operand when it is truthy, otherwise the right one. */
  function Or(v: Json, d: Json): Json {
    if Truthy(v) then v else d
  }

  /**
   * A string's JavaScript `length`: its UTF-16 code units, so a character
   * outside the Basic Multilingual Plane counts twice.
   */
  function Utf16Length(s: string): (n: nat)
    decreases |s|
  {
    if |s| == 0 then 0
    else Utf16Length(s[..|s| - 1]) + (if s[|s| - 1] as int < 0x1_0000 then 1 else 2)
  }

  /** The code units lie between one and two per character, and are exactly one per character in the Basic Multilingual Plane. */
  lemma {:induction false} Utf16LengthBounds(s: string)
    ensures |s| <= Utf16Length(s) <= 2 * |s|
    ensures (forall i :: 0 <= i < |s| ==> s[i] as int < 0x1_0000) ==> Utf16Length(s) == |s|
    decreases |s|
  {
    if |s| > 0 {
      Utf16LengthBounds(s[..|s| - 1]);
    }
  }

  /** A one-character emoji has `length` 2. */
  lemma AstralLength()
    ensures Member(JStr("\U{1F3E2}"), "length") == JNum(2.0)
  {
    assert "\U{1F3E2}"[..0] == "";
  }

  /**
   * `v?.key`: undefined on a nullish receiver; otherwise the own field of
   * an object, or `length` of an array or string. Other receivers have no
   * fields a decoded plan can name.
   */
  function Member(v: Json, key: string): Json {
    match v
    case JObj(m) => if key in m then m[key] else JUndefined
    case JArr(a) => if key == "length" then JNum(|a| as real) else JUndefined
    case JStr(s) => if key == "length" then JNum(Utf16Length(s) as real) else JUndefined
    case _ => JUndefined
  }

  /**
   * `v.key`: a TypeError exactly on a null or undefined receiver, which is
   * exactly where `v?.key` yields undefined instead; elsewhere the two
   * reads agree.
   */
  function Access(v: Json, key: string): (r: Result<Json, Error>)
    ensures r.Err? <==> Nullish(v)
    ensures r.Err? ==> r.error == TypeError && Member(v, key) == JUndefined
    ensures r.Ok? ==> r.value == Member(v, key)
  {
    if Nullish(v) then Err(TypeError) else Ok(Member(v, key))
  }

  /** `v?.[i]` on an array; every other receiver yields undefined. */
  function Element(v: Json, i: nat): Json {
    if v.JArr? && i < |v.items| then v.items[i] else JUndefined
  }

  /**
   * Whether converting a decoded value to a string throws a TypeError, as
   * a template literal `${v}` does, or `+` with a number. An object
   * converts through its `toString`, then its `valueOf`: an own
   * `toString` key shadows the method with a value that cannot be called,
   * and `valueOf` gives back the object itself, so the conversion fails.
   * An array converts by joining its elements, so it fails when one of
   * them does. Primitives always convert.
   */
  predicate ToStringThrows(v: Json) {
    match v
    case JObj(m) => "toString" in m
    case JArr(a) => exists i :: 0 <= i < |a| && ToStringThrows(a[i])
    case _ => false
  }

  /**
   * Only an own `toString` key, reached directly or through array
   * elements, makes a conversion fail: a nested object's key does not,
   * and `|| d` with a convertible default fails exactly when its left
   * operand does (a falsy operand is a primitive).
   */
  lemma ToStringThrowsCases(v: Json, d: Json)
    ensures ToStringThrows(JObj(map["toString" := JNum(0.0)]))
    ensures ToStringThrows(JArr([JStr("a"), JArr([JObj(map["toString" := JNull])])]))
    ensures !ToStringThrows(JObj(map["name" := JObj(map["toString" := JNum(0.0)])]))
    ensures !ToStringThrows(JArr([JNull, JUndefined, JObj(map["valueOf" := JNum(1.0)])]))
    ensures !(v.JObj? || v.JArr?) ==> !ToStringThrows(v)
    ensures !ToStringThrows(d) ==> (ToStringThrows(Or(v, d)) <==> ToStringThrows(v))
  {
    var inner := JObj(map["toString" := JNull]);
    assert JArr([inner]).items[0] == inner;
    assert JArr([JStr("a"), JArr([inner])]).items[1] == JArr([inner]);
  }

  /**
   * `||` picks one of its operands: the left one when truthy, else the
   * default. The result is truthy exactly when either operand is, a second
   * `|| d` changes nothing, and chains of `||` group either way.
   */
  lemma OrDefaults(v: Json, d: Json, e: Json)
    ensures Truthy(v) ==> Or(v, d) == v
    ensures !Truthy(v) ==> Or(v, d) == d
    ensures Truthy(Or(v, d)) <==> Truthy(v) || Truthy(d)
    ensures Or(Or(v, d), d) == Or(v, d)
    ensures Or(Or(v, d), e) == Or(v, Or(d, e))
  {
  }
}
