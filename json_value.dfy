/**
 * JSON values as the JavaScript code sees them after `JSON.parse`, with the
 * coercions the handlers apply to them: truthiness, `String(v)`,
 * `String(v || "")` and property access (`undefined` is `None`).
 */
module JsonValue {
  import opened Optional
  import opened JsText

  /** Numbers are integers here: fractional JSON numbers are not modelled. */
  datatype Json =
    | JNull
    | JBool(b: bool)
    | JNum(n: int)
    | JStr(s: string)
    | JArr(items: seq<Json>)
    | JObj(fields: map<string, Json>)

  /** JavaScript truthiness of a value that may be `undefined` (`None`). */
  predicate Truthy(v: Option<Json>) {
    match v
    case None => false
    case Some(j) =>
      match j
      case JNull => false
      case JBool(b) => b
      case JNum(n) => n != 0
      case JStr(s) => s != ""
      case JArr(_) => true
      case JObj(_) => true
  }

  /** `String(v)`; an array is joined with "," and its null elements print as "". */
  function ToStr(v: Json): string
    decreases v
  {
    match v
    case JNull => "null"
    case JBool(b) => if b then "true" else "false"
    case JNum(n) => IntStr(n)
    case JStr(s) => s
    case JArr(items) =>
      Join(seq(|items|, i requires 0 <= i < |items| =>
        if items[i] == JNull then "" else ToStr(items[i])))
    case JObj(_) => "[object Object]"
  }

  function Join(parts: seq<string>): string {
    if parts == [] then ""
    else if |parts| == 1 then parts[0]
    else parts[0] + "," + Join(parts[1..])
  }

  /** `String(v || "")`: the text of a property, "" when it is missing or falsy. */
  function Text(v: Option<Json>): (r: string)
    ensures !Truthy(v) ==> r == ""
    ensures v.Some? && v.value.JStr? ==> r == v.value.s
  {
    if Truthy(v) then ToStr(v.value) else ""
  }

  /** `String(v)` throws a TypeError. JSON cannot make a property callable, so an
      object carrying its own `toString` has no usable `toString`, and its inherited
      `valueOf` answers the object itself; every other object prints as
      "[object Object]". An array throws when one of its elements does, since `join`
      converts every element but `null`. `Number(v)` tries the same two methods, in the
      other order, and throws in the same cases. */
  predicate StrThrows(v: Json)
    decreases v
  {
    match v
    case JObj(m) => "toString" in m
    case JArr(items) => exists i :: 0 <= i < |items| && StrThrows(items[i])
    case _ => false
  }

  /** `String(v || "")`, or `String(v)` of a `v` that is not `undefined`, throws:
      a value that throws is an object or an array, so `|| ""` never replaces it. */
  predicate TextThrows(v: Option<Json>) {
    v.Some? && StrThrows(v.value)
  }

  /** `v.name` on a value that is not `null` (reading a property of `null` throws). */
  function Field(v: Json, name: string): (r: Option<Json>)
    requires !v.JNull?
    ensures r.Some? <==> v.JObj? && name in v.fields
  {
    match v
    case JObj(m) => if name in m then Some(m[name]) else None
    case _ => None
  }

  /** `a || b` where `b` is a string. */
  function OrStr(a: Option<Json>, b: string): Json {
    if Truthy(a) then a.value else JStr(b)
  }

  /** A string, or `null` when there is none. */
  function StrOrNull(s: Option<string>): Json {
    match s
    case Some(t) => JStr(t)
    case None => JNull
  }
}
