/**
 * JSON-shaped values as the bridge receives them from the device, and the
 * handful of Python operations the bridge applies to them: `dict.get` with a
 * default, truthiness, numeric coercion and `int(float(...))` truncation.
 */
module Payload {

  import opened Text

  datatype Option<T> = None | Some(value: T)

  /** A decoded JSON document. Numbers are exact reals: the device's integers
      and floats share one kind, so structural equality agrees with Python's
      `1 == 1.0`. Objects are maps: Python dict equality ignores key order. */
  datatype Json =
    | JNull
    | JBool(b: bool)
    | JNum(n: real)
    | JStr(s: string)
    | JArr(items: seq<Json>)
    | JObj(fields: map<string, Json>)

  const EmptyObj: Json := JObj(map[])

  /** `j.get(key, default)`. A node that is not an object has no keys, so the
      default comes back (where Python would raise on the `.get` call). */
  function Get(j: Json, key: string, default: Json): Json
  {
    if j.JObj? && key in j.fields then j.fields[key] else default
  }

  /** `key in j` for an object node. */
  predicate Has(j: Json, key: string)
  {
    j.JObj? && key in j.fields
  }

  /** Python truthiness of a decoded JSON value. */
  predicate Truthy(j: Json)
  {
    match j
    case JNull => false
    case JBool(b) => b
    case JNum(n) => n != 0.0
    case JStr(s) => s != ""
    case JArr(items) => items != []
    case JObj(fields) => fields != map[]
  }

  /** The numeric value Python arithmetic and comparison see: a bool is 0 or 1;
      any other non-number is read as 0. */
  function Num(j: Json): real
  {
    match j
    case JNum(n) => n
    case JBool(b) => if b then 1.0 else 0.0
    case _ => 0.0
  }

  /** `int(r)` for a float: truncation toward zero. */
  function Trunc(r: real): (i: int)
    ensures r >= 0.0 ==> i as real <= r < i as real + 1.0
    ensures r < 0.0 ==> i as real - 1.0 < r <= i as real
  {
    if r >= 0.0 then r.Floor else -((-r).Floor)
  }

  /** `int(float(j))` as the bridge uses it on temperatures and targets. */
  function IntOf(j: Json): int
  {
    Trunc(Num(j))
  }

  /** `str(j)` as the bridge applies it to `p_mode`. A number is rendered as
      the decimal of its integer part, which is what Python prints for the
      integers a JSON decoder yields. */
  function PyStr(j: Json): (r: string)
    ensures j.JStr? ==> r == j.s
    ensures j.JNum? ==>
      r != [] && (IsDigit(r[0]) || r[0] == '-')
      && (forall k :: 1 <= k < |r| ==> IsDigit(r[k])) && DecimalValue(r) == Trunc(j.n)
  {
    match j
    case JStr(s) => s
    case JBool(b) => if b then "True" else "False"
    case JNull => "None"
    case JNum(n) =>
      DecimalRoundTrip(Trunc(n));
      IntToDecimal(Trunc(n))
    case _ => "--"
  }
}
