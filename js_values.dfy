/** The dynamically typed JavaScript values that reach the client: the caller's
    arguments and the payloads and errors the transport hands back. */
module JsValues {

  datatype Option<+T> = None | Some(value: T)

  /** A JavaScript value, as far as the client can observe it.
      Num holds a finite number; NaN and the two infinities are kept apart
      because truthiness and Number.isInteger treat them differently.
      Object stands for any object (plain object or array) and lists its own
      enumerable properties. */
  datatype JsValue =
    | Undefined
    | Null
    | Bool(b: bool)
    | Num(x: real)
    | NaN
    | Infinity(negative: bool)
    | Str(s: string)
    | Object(fields: map<string, JsValue>)

  predicate IsIntegral(x: real) {
    x.Floor as real == x
  }

  /** The values for which `!v` is false. */
  predicate Truthy(v: JsValue) {
    match v
    case Undefined => false
    case Null => false
    case Bool(b) => b
    case Num(x) => x != 0.0
    case NaN => false
    case Infinity(_) => true
    case Str(s) => s != ""
    case Object(_) => true
  }

  /** Number.isInteger(v): a finite number with no fractional part. */
  predicate IsInteger(v: JsValue) {
    v.Num? && IsIntegral(v.x)
  }

  /** The property read `v.key` (and `v?.key`): an own field of an object,
      undefined for every other value and for a missing field. */
  function Get(v: JsValue, key: string): JsValue {
    if v.Object? && key in v.fields then v.fields[key] else Undefined
  }
}
