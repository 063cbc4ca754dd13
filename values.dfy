/** The dynamically typed values that the scanner stores in tokens, the parser
    stores in literal nodes and the evaluator computes. */
module Values {

  datatype Option<+T> = None | Some(value: T)

  /** A JavaScript value, restricted to the kinds this front end can produce:
      null, undefined, booleans, numbers and strings. Numbers are modelled as
      exact reals (see README, "Left out"). */
  datatype Value = Null | Undefined | Bool(b: bool) | Num(n: real) | Str(s: string)

  /** JavaScript's `Boolean(v)`: null, undefined, false, 0 and the empty
      string are falsy, everything else is truthy. */
  predicate Truthy(v: Value) {
    match v
    case Null => false
    case Undefined => false
    case Bool(b) => b
    case Num(n) => n != 0.0
    case Str(s) => s != ""
  }
}
