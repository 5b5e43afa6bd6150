/**
  The JavaScript values the client handles: what `JSON.parse` yields, plus
  `undefined`, and the three operations the client applies to them:
  truthiness (`if (data.error)`), property access (`data.type`) and the
  string conversion that `+=` onto a string and a template literal perform.
 */
module Js {
  import opened Text

  /** JSON numbers are modelled by their integer value only. */
  datatype JsValue =
    | Undefined
    | Null
    | Boolean(b: bool)
    | Number(n: int)
    | Str(s: string)
    | Array(items: seq<JsValue>)
    | Object(fields: map<string, JsValue>)

  /** JavaScript truthiness: `undefined`, `null`, `false`, `0` and `""` are falsy. */
  predicate Truthy(v: JsValue) {
    match v
    case Undefined => false
    case Null => false
    case Boolean(b) => b
    case Number(n) => n != 0
    case Str(s) => s != ""
    case Array(_) => true
    case Object(_) => true
  }

  /** Whether reading a property of `v` throws a TypeError. */
  predicate Nullish(v: JsValue) {
    v.Undefined? || v.Null?
  }

  /**
    `v.key` for a value that is not `null` or `undefined` and a key that no
    built-in prototype defines (`error`, `type`, `content`, `usage`): the
    object's own property, otherwise `undefined`.
   */
  function Field(v: JsValue, key: string): (r: JsValue)
    requires !Nullish(v)
    ensures r != Undefined ==> v.Object? && key in v.fields && r == v.fields[key]
    ensures v.Object? && key in v.fields ==> r == v.fields[key]
  {
    if v.Object? && key in v.fields then v.fields[key] else Undefined
  }

  /** `String(n)` for an integer. */
  function IntToString(n: int): (s: string)
    ensures |s| >= 1
  {
    if n < 0 then "-" + NatToString(-n) else NatToString(n)
  }

  /**
    `String(v)`: what `s += v` appends and what `${v}` inserts. An array is
    its elements joined by commas, `null` and `undefined` elements as empty
    strings; a plain object is `[object Object]`.
   */
  function ToString(v: JsValue): string
    decreases v
  {
    match v
    case Undefined => "undefined"
    case Null => "null"
    case Boolean(b) => if b then "true" else "false"
    case Number(n) => IntToString(n)
    case Str(s) => s
    case Array(items) =>
      if |items| == 0 then ""
      else Join(seq(|items|, i requires 0 <= i < |items| =>
                      if Nullish(items[i]) then "" else ToString(items[i])), ',')
    case Object(_) => "[object Object]"
  }
}
