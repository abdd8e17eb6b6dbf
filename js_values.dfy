/** The dynamically typed values that reach the sanitisers and validators
  * through `any` parameters, with JavaScript's notion of truthiness.
  * Numbers are modelled as integers. */
module JsValues {
  datatype Value =
    | Undefined
    | Null
    | Bool(flag: bool)
    | Num(number: int)
    | Str(text: string)
    | Obj

  /** `!!v`: `undefined`, `null`, `false`, `0` and `''` are falsy; every
    * object is truthy. */
  predicate Truthy(v: Value)
  {
    match v
    case Undefined => false
    case Null => false
    case Bool(b) => b
    case Num(n) => n != 0
    case Str(s) => s != ""
    case Obj => true
  }
}
