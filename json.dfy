/**
 * JavaScript values as the normalization engine sees them: the JSON values
 * plus `undefined`, with the handful of dynamic operations the code relies on
 * (truthiness, property access, object spread, array spread and the string a
 * value turns into when it is used as a property key).
 */
module JsonValues {

  datatype Json =
    | JUndefined
    | JNull
    | JBool(b: bool)
    | JNum(n: int)
    | JStr(s: string)
    | JArr(elems: seq<Json>)
    | JObj(fields: map<string, Json>)

  const EmptyObject: Json := JObj(map[])

  /** JavaScript truthiness, `!!v`. */
  predicate Truthy(v: Json)
  {
    match v
    case JUndefined => false
    case JNull => false
    case JBool(b) => b
    case JNum(n) => n != 0
    case JStr(s) => s != ""
    case JArr(_) => true
    case JObj(_) => true
  }

  /** `null` or `undefined`: the values whose property access throws. */
  predicate Nullish(v: Json)
  {
    v.JUndefined? || v.JNull?
  }

  /** `k in v` for an object `v`. */
  predicate Has(v: Json, k: string)
  {
    v.JObj? && k in v.fields
  }

  /** `v[k]`; every value other than an object is read as having no properties. */
  function Prop(v: Json, k: string): Json
  {
    if Has(v, k) then v.fields[k] else JUndefined
  }

  /** `a || b`. */
  function Or(a: Json, b: Json): Json
  {
    if Truthy(a) then a else b
  }

  /** The own properties `{...v}` contributes to an object literal. */
  function Spread(v: Json): map<string, Json>
  {
    if v.JObj? then v.fields else map[]
  }

  /** The elements `[...v]` contributes to an array literal. */
  function Elements(v: Json): seq<Json>
  {
    if v.JArr? then v.elems else []
  }

  /** Strings as JSON string values. */
  function Strs(xs: seq<string>): (r: seq<Json>)
    ensures |r| == |xs|
    ensures forall i :: 0 <= i < |xs| ==> r[i] == JStr(xs[i])
  {
    if xs == [] then [] else Strs(xs[..|xs| - 1]) + [JStr(xs[|xs| - 1])]
  }

  function Digit(d: nat): char
    requires d < 10
  {
    "0123456789"[d]
  }

  function NatToDecimal(n: nat): string
  {
    if n < 10 then [Digit(n)] else NatToDecimal(n / 10) + [Digit(n % 10)]
  }

  /** `String(v)` for the values that are used as property keys. */
  function PropertyKey(v: Json): string
  {
    match v
    case JUndefined => "undefined"
    case JNull => "null"
    case JBool(b) => if b then "true" else "false"
    case JNum(n) => if n < 0 then "-" + NatToDecimal(-n) else NatToDecimal(n)
    case JStr(s) => s
    case JArr(xs) => JoinKeys(xs)
    case JObj(_) => "[object Object]"
  }

  /** `Array.prototype.join(",")`: null and undefined elements become "". */
  function JoinKeys(xs: seq<Json>): string
  {
    if xs == [] then ""
    else
      var last := if Nullish(xs[|xs| - 1]) then "" else PropertyKey(xs[|xs| - 1]);
      if |xs| == 1 then last else JoinKeys(xs[..|xs| - 1]) + "," + last
  }
}
