/**
 * The values the client reads out of parsed response bodies, and the two pieces of
 * JavaScript semantics the client relies on when it looks at them: truthiness
 * (`a || b`, `if (x)`) and conversion to a string (template literals, `new Error(x)`).
 * JSON numbers are restricted to integers.
 */
module JsValues {
  import opened Wrappers

  /** A value produced by parsing a JSON document. */
  datatype Json =
    | JNull
    | JBool(b: bool)
    | JNum(n: int)
    | JStr(s: string)
    | JArray(items: seq<Json>)
    | JObject(fields: map<string, Json>)

  /** What a property read yields: `undefined` or a JSON value. */
  datatype Slot = Absent | Present(value: Json)

  /**
   * The property read `v.key` on a parsed body. Reading a property of `null` throws a
   * TypeError, modelled as None; on any other non-object value the client's keys
   * (`message`, `projectId`, `completed`, `error`, `output`) are `undefined`.
   */
  function Property(v: Json, key: string): (r: Option<Slot>)
    ensures r.None? <==> v.JNull?
    ensures r == Some(Absent) <==> !v.JNull? && !(v.JObject? && key in v.fields)
    ensures v.JObject? && key in v.fields ==> r == Some(Present(v.fields[key]))
  {
    match v
    case JNull => None
    case JObject(fields) => if key in fields then Some(Present(fields[key])) else Some(Absent)
    case _ => Some(Absent)
  }

  /** JavaScript truthiness of a property value. */
  predicate Truthy(x: Slot) {
    match x
    case Absent => false
    case Present(v) =>
      match v
      case JNull => false
      case JBool(b) => b
      case JNum(n) => n != 0
      case JStr(s) => s != ""
      case JArray(_) => true
      case JObject(_) => true
  }

  /** The character of a decimal digit. */
  function DigitChar(d: nat): (c: char)
    requires d < 10
    ensures '0' <= c <= '9'
  {
    "0123456789"[d]
  }

  /** The decimal numeral of a natural number, as `String(n)` writes it. */
  function Digits(n: nat): (s: string)
    ensures |s| > 0
    ensures forall i | 0 <= i < |s| :: '0' <= s[i] <= '9'
  {
    if n < 10 then [DigitChar(n)] else Digits(n / 10) + [DigitChar(n % 10)]
  }

  /** `String(v)` for a JSON value. */
  function Text(v: Json): string
    decreases v, 1, 0
  {
    match v
    case JNull => "null"
    case JBool(b) => if b then "true" else "false"
    case JNum(n) => if n < 0 then "-" + Digits(-n) else Digits(n)
    case JStr(s) => s
    case JArray(items) => JoinedItems(v, 0)
    case JObject(_) => "[object Object]"
  }

  /**
   * `Array.prototype.join(",")` over the items of `v` from index `i` on: items are
   * converted with `String`, except that `null` contributes the empty string.
   */
  function JoinedItems(v: Json, i: nat): string
    requires v.JArray? && i <= |v.items|
    decreases v, 0, |v.items| - i
  {
    if i == |v.items| then ""
    else
      var item := if v.items[i].JNull? then "" else Text(v.items[i]);
      if i + 1 == |v.items| then item else item + "," + JoinedItems(v, i + 1)
  }

  /** `String(x)` for a property value; `undefined` reads as "undefined". */
  function SlotText(x: Slot): string {
    match x
    case Absent => "undefined"
    case Present(v) => Text(v)
  }
}
