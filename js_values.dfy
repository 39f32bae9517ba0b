/** The JavaScript runtime values that the wrap-transaction builder inspects with
    `typeof` and with truthiness tests. Objects carry a payload of type `O`,
    whatever the caller passed (a fuse option set, an expiry object, ...). */
module JsValues {

  /** One constructor per result of `typeof`, plus `null`, which JavaScript
      reports as an "object". Numbers are modelled by their integral values. */
  datatype JsValue<O> =
    | Undefined
    | Null
    | Boolean(b: bool)
    | Number(num: int)
    | BigInt(big: int)
    | String(str: string)
    | Symbol(description: string)
    | Function
    | Object(payload: O)

  /** The string the `typeof` operator yields for `v`. */
  function TypeOf<O>(v: JsValue<O>): (t: string)
    ensures t in {"undefined", "object", "boolean", "number", "bigint", "string", "symbol", "function"}
  {
    match v
    case Undefined => "undefined"
    case Null => "object"
    case Boolean(_) => "boolean"
    case Number(_) => "number"
    case BigInt(_) => "bigint"
    case String(_) => "string"
    case Symbol(_) => "symbol"
    case Function => "function"
    case Object(_) => "object"
  }

  /** JavaScript's ToBoolean: what `if (v)` tests. */
  predicate Truthy<O>(v: JsValue<O>)
    ensures TypeOf(v) == "object" ==> (Truthy(v) <==> v.Object?)
    ensures TypeOf(v) in {"symbol", "function"} ==> Truthy(v)
    ensures TypeOf(v) == "undefined" ==> !Truthy(v)
  {
    match v
    case Undefined => false
    case Null => false
    case Boolean(b) => b
    case Number(n) => n != 0
    case BigInt(i) => i != 0
    case String(s) => s != ""
    case Symbol(_) => true
    case Function => true
    case Object(_) => true
  }

  /** The falsy values are exactly undefined, null, false, 0, 0n and the empty
      string; every other value, every object included, is truthy. */
  lemma FalsyValues<O>(v: JsValue<O>)
    ensures !Truthy(v) <==>
      v == Undefined || v == Null || v == Boolean(false) || v == Number(0) || v == BigInt(0) || v == String("")
  {
  }

  /** `typeof` separates the shapes: two values of different kinds never share
      a type name, except null and objects, which both say "object". */
  lemma TypeOfObject<O>(v: JsValue<O>)
    ensures TypeOf(v) == "object" <==> v.Null? || v.Object?
    ensures TypeOf(v) == "number" <==> v.Number?
    ensures TypeOf(v) == "string" <==> v.String?
    ensures TypeOf(v) == "undefined" <==> v.Undefined?
  {
  }
}
