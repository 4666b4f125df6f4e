/**
 * Raw JSON values as the SDK receives them from the Delivery API, together with the
 * parts of JavaScript semantics the mapping layer relies on: truthiness, property
 * access on a value, and conversion to a string inside a template literal.
 * JavaScript numbers are modelled as integers.
 */
module JsonValues {
  import opened Wrappers

  datatype Json =
    | JUndefined
    | JNull
    | JBool(b: bool)
    | JNumber(n: int)
    | JString(s: string)
    | JArray(elems: seq<Json>)
    | JObject(members: map<string, Json>)

  /** JavaScript truthiness: `undefined`, `null`, `false`, `0` and `""` are falsy. */
  predicate Truthy(v: Json) {
    match v
    case JUndefined => false
    case JNull => false
    case JBool(b) => b
    case JNumber(n) => n != 0
    case JString(s) => s != ""
    case JArray(_) => true
    case JObject(_) => true
  }

  /** Values whose properties cannot be read: `x.p` throws a TypeError for these. */
  predicate Nullish(v: Json) {
    v.JUndefined? || v.JNull?
  }

  /** The error raised by reading a property of `undefined` or `null`. */
  datatype PropertyError = CannotReadProperty(property: string)

  /**
   * `v[key]` for a value that is not nullish: an own member of an object, or
   * `undefined`. Arrays, strings, numbers and booleans have no property under the
   * attribute names the SDK reads.
   */
  function Member(v: Json, key: string): (r: Json)
    requires !Nullish(v)
    ensures v.JObject? && key in v.members ==> r == v.members[key]
    ensures !(v.JObject? && key in v.members) ==> r == JUndefined
  {
    if v.JObject? && key in v.members then v.members[key] else JUndefined
  }

  /** `v.key` as JavaScript evaluates it, including the TypeError on a nullish value. */
  function ReadProperty(v: Json, key: string): (r: Result<Json, PropertyError>)
    ensures r.Failure? <==> Nullish(v)
    ensures r.Failure? ==> r.error == CannotReadProperty(key)
    ensures r.Success? ==> r.value == Member(v, key)
  {
    if Nullish(v) then Failure(CannotReadProperty(key)) else Success(Member(v, key))
  }

  /** Decimal digits of a natural number, most significant first. */
  function Digits(n: nat): (s: string)
    ensures |s| >= 1
    ensures forall i :: 0 <= i < |s| ==> '0' <= s[i] <= '9'
    decreases n
  {
    var d := ['0' + (n % 10) as char];
    if n < 10 then d else Digits(n / 10) + d
  }

  /** `String(n)` for an integer. */
  function NumberToString(n: int): string {
    if n < 0 then "-" + Digits(-n) else Digits(n)
  }

  /**
   * The text `${v}` produces in a template literal. An array is joined with ","
   * and its `undefined`/`null` elements become empty strings.
   */
  function Stringify(v: Json): (s: string)
    ensures v.JString? ==> s == v.s
    decreases v, 1
  {
    match v
    case JUndefined => "undefined"
    case JNull => "null"
    case JBool(b) => if b then "true" else "false"
    case JNumber(n) => NumberToString(n)
    case JString(str) => str
    case JArray(elems) => JoinElements(v, elems)
    case JObject(_) => "[object Object]"
  }

  function JoinElements(ghost whole: Json, elems: seq<Json>): string
    requires whole.JArray? && elems <= whole.elems
    decreases whole, 0, |elems|
  {
    if elems == [] then ""
    else
      var last := elems[|elems| - 1];
      var text := if Nullish(last) then "" else Stringify(last);
      if |elems| == 1 then text else JoinElements(whole, elems[..|elems| - 1]) + "," + text
  }
}
