/** The untyped JavaScript values that pass through the store: server error
    bodies and the text a rejected request leaves in `message`. */
module JsValues {

  /** An object or array reference; its contents never matter here. */
  type ObjectRef

  /** A JavaScript value. Numbers are integers: NaN and fractions are not modelled. */
  datatype JsValue =
    | Undefined
    | Null
    | Bool(b: bool)
    | Number(n: int)
    | Str(s: string)
    | Object(ref: ObjectRef)

  /** JavaScript truthiness, the test that `||` applies to its left operand. */
  predicate Truthy(v: JsValue)
  {
    match v
    case Undefined => false
    case Null => false
    case Bool(b) => b
    case Number(n) => n != 0
    case Str(s) => s != ""
    case Object(_) => true
  }
}
