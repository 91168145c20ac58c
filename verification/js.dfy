/** JavaScript value semantics that the site's code leans on: optional
    fields, truthiness (`!x`, `x || y`), destructuring defaults, and the
    shape of a parsed JSON document. */
module Js {

  /** A field that may be missing: `undefined` and `null` are both `None`. */
  datatype Option<+T> = None | Some(value: T)

  /** A field whose destructuring default (`{ x = d } = data`) matters:
      the default replaces `undefined` only, never `null`. */
  datatype Field<+T> = Undefined | Null | Defined(value: T)

  /** `!!s` for a `string | null | undefined`: present and non-empty. */
  predicate Filled(s: Option<string>) {
    s.Some? && |s.value| > 0
  }

  /** `if (b)` for a `boolean | null | undefined` flag. */
  predicate Flag(b: Option<bool>) {
    b == Some(true)
  }

  /** `s && <…>{s}</…>`: the text that is shown, if any. */
  function Shown(s: Option<string>): Option<string> {
    if Filled(s) then s else None
  }

  /** `a || b` on optional strings. */
  function Or(a: Option<string>, b: Option<string>): Option<string> {
    if Filled(a) then a else b
  }

  /** `a || d` where `d` is a literal default. */
  function OrDefault(a: Option<string>, d: string): string {
    if Filled(a) then a.value else d
  }

  /** A parsed JSON document. Numbers are integers in this model. */
  datatype Json =
    | JNull
    | JBool(b: bool)
    | JNum(n: int)
    | JStr(s: string)
    | JArr(items: seq<Json>)
    | JObj(fields: map<string, Json>)

  /** JavaScript truthiness of a JSON value. */
  predicate Truthy(j: Json) {
    match j
    case JNull => false
    case JBool(b) => b
    case JNum(n) => n != 0
    case JStr(s) => |s| > 0
    case JArr(_) => true
    case JObj(_) => true
  }

  /** `j.key` (or `j?.key`): `None` stands for `undefined`. Only objects
      carry named properties. */
  function Prop(j: Json, key: string): Option<Json> {
    if j.JObj? && key in j.fields then Some(j.fields[key]) else None
  }

  /** `a || b` where `a` may be `undefined`. */
  function JsOr(a: Option<Json>, b: Json): Json {
    if a.Some? && Truthy(a.value) then a.value else b
  }
}
