/** JSON values as they arrive from the identity provider's token claims or
    from a document store record, and JavaScript's truthiness test on them.
    `undefined` (an absent property) is `Option.None` at the use site. */
module JsValue {

  /** Numbers are integers here (no NaN, no fractions); arrays and objects are
      one case because every one of them is truthy. */
  datatype Json =
    | Null
    | Bool(b: bool)
    | Num(n: int)
    | Str(s: string)
    | Compound

  /** The value a JavaScript `if (v)` or `v ? a : b` treats as true. */
  predicate Truthy(v: Json) {
    match v
    case Null => false
    case Bool(b) => b
    case Num(n) => n != 0
    case Str(s) => s != ""
    case Compound => true
  }
}
