/**
 * JavaScript values as far as the navigation core looks at them.
 */
module Js {

  datatype Option<+T> = None | Some(value: T)

  /**
   * A JavaScript value. Primitives compare by value and objects by
   * reference (`Obj(id)` names one object), so `===` is datatype equality.
   * NaN and floating point are not modelled.
   */
  datatype Value =
    | Undefined
    | Null
    | Bool(b: bool)
    | Num(n: int)
    | Str(s: string)
    | Obj(id: nat)

  /** JavaScript truthiness. */
  predicate Truthy(v: Value)
  {
    match v
    case Undefined => false
    case Null => false
    case Bool(b) => b
    case Num(n) => n != 0
    case Str(s) => s != ""
    case Obj(_) => true
  }
}
