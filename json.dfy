/**
 * JSON values as the front end and the mock API see them after `JSON.parse`,
 * JavaScript truthiness, the optional-chaining lookups the client performs,
 * and `JSON.parse`/`JSON.stringify` as an abstract codec.
 */
module Json {
  import opened Wrappers

  /** A JSON value. Numbers are reals (the model does not follow IEEE 754 rounding). */
  datatype Json =
    | JNull
    | JBool(b: bool)
    | JNum(n: real)
    | JStr(s: string)
    | JArr(items: seq<Json>)
    | JObj(fields: map<string, Json>)

  /** JavaScript truthiness of a parsed value. */
  predicate Truthy(j: Json) {
    match j
    case JNull => false
    case JBool(b) => b
    case JNum(n) => n != 0.0
    case JStr(s) => s != ""
    case JArr(_) => true
    case JObj(_) => true
  }

  /** `j?.key`: the property of an object, `undefined` (`None`) for anything else or a missing key. */
  function Prop(j: Json, key: string): Option<Json> {
    if j.JObj? && key in j.fields then Some(j.fields[key]) else None
  }

  /** `x?.key` where `x` may itself be `undefined`. */
  function PropOf(x: Option<Json>, key: string): Option<Json> {
    if x.None? then None else Prop(x.value, key)
  }

  /** `x?.[0]`: the first element of an array, the first character of a string, or an object's "0" property. */
  function First(x: Option<Json>): Option<Json> {
    match x
    case Some(JArr(items)) => if items != [] then Some(items[0]) else None
    case Some(JStr(s)) => if s != [] then Some(JStr([s[0]])) else None
    case Some(JObj(m)) => if "0" in m then Some(m["0"]) else None
    case _ => None
  }

  /** `parsed.choices?.[0]?.<field>?.content`, for `field` "delta" (streamed chunks) or "message" (whole replies). */
  function ChoiceContent(parsed: Json, field: string): Option<Json> {
    PropOf(PropOf(First(Prop(parsed, "choices")), field), "content")
  }

  /**
   * `JSON.stringify` and `JSON.parse`. A parse that throws is `None`. The
   * model treats both as opaque functions constrained by `Lawful`.
   */
  datatype Codec = Codec(stringify: Json -> string, parse: string -> Option<Json>)

  /**
   * What the model relies on of the built-in codec: parsing what was
   * stringified gives the value back; `JSON.stringify` without indentation
   * writes no raw line break (control characters inside strings are
   * escaped); and an object is written between braces.
   */
  ghost predicate Lawful(c: Codec) {
    && (forall j :: c.parse(c.stringify(j)) == Some(j))
    && (forall j :: '\n' !in c.stringify(j))
    && (forall m :: IsBraced(c.stringify(JObj(m))))
  }

  /** Text that starts with '{' and ends with '}'. */
  predicate IsBraced(t: string) {
    |t| >= 2 && t[0] == '{' && t[|t| - 1] == '}'
  }
}
