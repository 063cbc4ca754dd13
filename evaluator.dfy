/** `execute` and `evaluate` of src/evaluator.js. `execute` is a recursive
    case split on the node's class that returns a value; its only effect is
    the `console.log` of a `Print` statement, which here appends the
    printed value to an output trace. A JavaScript exception is an outcome
    of its own, and so is every case whose result depends on JavaScript
    number semantics this model does not describe. */
module Evaluation {
  import opened Values
  import opened Tokens
  import opened Ast
  import opened ScannerSpec

  /** How evaluating an expression ends: with a value, with a thrown
      exception, or in a case the model leaves open (NaN, infinities,
      number formatting, inherited object members). */
  datatype Outcome = Ok(value: Value) | Throws(message: string) | Unmodelled(reason: string)

  /** The printed values, in order, and how the run ended. */
  datatype Execution = Execution(output: seq<Value>, outcome: Outcome)

  /** A JavaScript `TypeError`, by the start of its message. */
  const TypeErrorPrefix: string := "TypeError: "

  predicate IsTypeError(message: string) {
    |TypeErrorPrefix| <= |message| && message[..|TypeErrorPrefix|] == TypeErrorPrefix
  }

  function TypeError(detail: string): (m: string)
    ensures IsTypeError(m)
  {
    assert (TypeErrorPrefix + detail)[..|TypeErrorPrefix|] == TypeErrorPrefix;
    TypeErrorPrefix + detail
  }

  /** What calling a table entry that is not a function throws. */
  const NotAFunction: string := TypeError("operatorMap[ast.operator.type] is not a function")

  /** What `__defineGetter__` and `__defineSetter__` throw when their
      second argument is not a function. */
  function ExpectingFunction(kind: string): (m: string)
    ensures IsTypeError(m)
  {
    TypeError("Object.prototype." + kind + ": Expecting function")
  }

  /** The members every object literal inherits from `Object.prototype`
      that are functions returning normally when called with primitive
      arguments. The other inherited keys, `__proto__` (an object, not a
      function), `__defineGetter__` and `__defineSetter__` (which demand a
      function as second argument), throw like a key with no entry. */
  const AnsweringKeys: seq<string> := [
    "constructor", "hasOwnProperty", "isPrototypeOf", "propertyIsEnumerable",
    "toLocaleString", "toString", "valueOf", "__lookupGetter__", "__lookupSetter__"
  ]

  /** The own keys of the two operator tables. */
  const UnaryOps: seq<string> := ["MINUS", "BANG"]
  const BinaryOps: seq<string> := ["PLUS", "MINUS", "STAR", "SLASH", "AND", "OR"]

  predicate AllDigits(t: string) {
    forall k :: 0 <= k < |t| ==> IsDigit(t[k])
  }

  /** JavaScript's conversion to a number where it gives a real number:
      null is 0, booleans 1 and 0, a string of decimal digits (the empty
      one included) its value. Undefined gives NaN and other strings need
      the full grammar of numeric strings; both are left open. */
  function ToNumber(v: Value): (r: Option<real>)
    ensures v.Num? ==> r == Some(v.n)
    ensures v.Null? ==> r == Some(0.0)
    ensures v.Bool? ==> r == Some(if v.b then 1.0 else 0.0)
    ensures v.Str? && AllDigits(v.s) ==> r == Some(DecimalValue(v.s) as real)
    ensures r.None? <==> v.Undefined? || (v.Str? && !AllDigits(v.s))
  {
    match v
    case Null => Some(0.0)
    case Undefined => None
    case Bool(b) => Some(if b then 1.0 else 0.0)
    case Num(n) => Some(n)
    case Str(s) => if AllDigits(s) then Some(DecimalValue(s) as real) else None
  }

  /** JavaScript's conversion to a string, except for numbers, whose
      formatting is left open. */
  function ToText(v: Value): (r: Option<string>)
    ensures v.Str? ==> r == Some(v.s)
    ensures r.None? <==> v.Num?
  {
    match v
    case Null => Some("null")
    case Undefined => Some("undefined")
    case Bool(b) => Some(if b then "true" else "false")
    case Num(_) => None
    case Str(s) => Some(s)
  }

  /** `operatorMap[kind](a, ...)` for a key that is not one of the table's
      own keys `own`, called as a method of the table with first argument
      `a`. An inherited member answers: `toString` and `toLocaleString`
      with the text of a plain object, `hasOwnProperty` and
      `propertyIsEnumerable` with whether `a` names an own key,
      `isPrototypeOf` with false (a primitive has no prototype chain to
      search), `__lookupGetter__` and `__lookupSetter__` with undefined
      (no key but `__proto__` has an accessor); `constructor` and `valueOf`
      give objects, which are left open. Every other key throws. */
  function Missing(kind: string, own: seq<string>, a: Value): (r: Outcome)
    ensures r.Throws? <==> kind !in AnsweringKeys
    ensures r.Throws? ==> IsTypeError(r.message)
    ensures kind == "__proto__" ==> r == Throws(NotAFunction)
    ensures r.Ok? ==> r.value.Bool? || r.value.Str? || r.value.Undefined?
  {
    if kind == "toString" || kind == "toLocaleString" then Ok(Str("[object Object]"))
    else if kind == "hasOwnProperty" || kind == "propertyIsEnumerable" then Ok(Bool(a.Str? && a.s in own))
    else if kind == "isPrototypeOf" then Ok(Bool(false))
    else if kind == "__lookupGetter__" || kind == "__lookupSetter__" then
      if a == Str("__proto__") then Unmodelled("the accessor of __proto__") else Ok(Undefined)
    else if kind == "constructor" || kind == "valueOf" then Unmodelled("an object")
    else if kind == "__defineGetter__" || kind == "__defineSetter__" then Throws(ExpectingFunction(kind))
    else Throws(NotAFunction)
  }

  /** The unary table: `MINUS` is `a => -1 * a`, `BANG` is `a => !Boolean(a)`. */
  function ApplyUnary(kind: string, a: Value): (r: Outcome)
    ensures kind == "BANG" ==> r == Ok(Bool(!Truthy(a)))
    ensures kind == "MINUS" && ToNumber(a).Some? ==> r == Ok(Num(-ToNumber(a).value))
    ensures r.Throws? <==> kind !in UnaryOps && kind !in AnsweringKeys
    ensures r.Throws? ==> IsTypeError(r.message)
  {
    if kind == "MINUS" then
      match ToNumber(a)
      case Some(n) => Ok(Num(-1.0 * n))
      case None => Unmodelled("NaN")
    else if kind == "BANG" then Ok(Bool(!Truthy(a)))
    else Missing(kind, UnaryOps, a)
  }

  /** `a + b`: concatenation when either side is a string, addition
      otherwise. */
  function Add(a: Value, b: Value): (r: Outcome)
    ensures a.Str? && b.Str? ==> r == Ok(Str(a.s + b.s))
    ensures a.Num? && b.Num? ==> r == Ok(Num(a.n + b.n))
    ensures !r.Throws?
  {
    if a.Str? || b.Str? then
      match (ToText(a), ToText(b))
      case (Some(x), Some(y)) => Ok(Str(x + y))
      case _ => Unmodelled("number formatting")
    else
      match (ToNumber(a), ToNumber(b))
      case (Some(x), Some(y)) => Ok(Num(x + y))
      case _ => Unmodelled("NaN")
  }

  /** `x - y`, `x * y` and `x / y` on two real numbers; a zero divisor
      gives an infinity or NaN, which is left open. */
  function Operate(kind: string, x: real, y: real): (r: Outcome)
    requires kind in ["MINUS", "STAR", "SLASH"]
    ensures kind == "MINUS" ==> r == Ok(Num(x - y))
    ensures kind == "STAR" ==> r == Ok(Num(x * y))
    ensures kind == "SLASH" ==> r == if y == 0.0 then Unmodelled("division by zero") else Ok(Num(x / y))
  {
    if kind == "MINUS" then Ok(Num(x - y))
    else if kind == "STAR" then Ok(Num(x * y))
    else if y == 0.0 then Unmodelled("division by zero")
    else Ok(Num(x / y))
  }

  /** `a - b`, `a * b` and `a / b`: both sides are converted to numbers
      first, and an operand with no real number is left open. */
  function Arithmetic(kind: string, a: Value, b: Value): (r: Outcome)
    requires kind in ["MINUS", "STAR", "SLASH"]
    ensures !r.Throws?
    ensures r.Ok? ==> r.value.Num?
    ensures ToNumber(a).Some? && ToNumber(b).Some? ==> r == Operate(kind, ToNumber(a).value, ToNumber(b).value)
    ensures ToNumber(a).None? || ToNumber(b).None? ==> r.Unmodelled?
  {
    match (ToNumber(a), ToNumber(b))
    case (Some(x), Some(y)) => Operate(kind, x, y)
    case _ => Unmodelled("NaN")
  }

  /** The binary table. `AND` and `OR` combine the truth of two values that
      were both computed already. */
  function ApplyBinary(kind: string, a: Value, b: Value): (r: Outcome)
    ensures kind == "AND" ==> r == Ok(Bool(Truthy(a) && Truthy(b)))
    ensures kind == "OR" ==> r == Ok(Bool(Truthy(a) || Truthy(b)))
    ensures r.Throws? <==> kind !in BinaryOps && kind !in AnsweringKeys
    ensures r.Throws? ==> IsTypeError(r.message)
  {
    if kind == "PLUS" then Add(a, b)
    else if kind in ["MINUS", "STAR", "SLASH"] then Arithmetic(kind, a, b)
    else if kind == "AND" then Ok(Bool(Truthy(a) && Truthy(b)))
    else if kind == "OR" then Ok(Bool(Truthy(a) || Truthy(b)))
    else Missing(kind, BinaryOps, a)
  }

  /** `execute` on an expression. A `Literal` is its value; a `Unary`
      evaluates its operand and then applies its entry; a `Binary`
      evaluates the left operand, then the right, then applies its entry;
      a `Grouping` matches no branch and, like undefined, gives undefined
      without looking at what it holds. */
  function Eval(e: Expr): (r: Outcome)
    ensures r.Throws? ==> IsTypeError(r.message)
  {
    match e
    case Literal(v) => Ok(v)
    case Unary(op, r) =>
      (match Eval(r)
       case Ok(a) => ApplyUnary(op.kind, a)
       case failed => failed)
    case Binary(l, op, r) =>
      (match Eval(l)
       case Ok(a) =>
         (match Eval(r)
          case Ok(b) => ApplyBinary(op.kind, a, b)
          case failed => failed)
       case failed => failed)
    case Grouping(_) => Ok(Undefined)
    case Absent => Ok(Undefined)
  }

  /** `execute` on anything `evaluate` may be handed: `Print` logs the
      value and gives null, `Expression` discards it and gives null, an
      expression gives its value, and a `VarDecl` matches no branch. */
  function Execute(n: Node): Execution {
    match n
    case StmtNode(Print(e)) =>
      (match Eval(e)
       case Ok(v) => Execution([v], Ok(Null))
       case failed => Execution([], failed))
    case StmtNode(Expression(e)) =>
      (match Eval(e)
       case Ok(_) => Execution([], Ok(Null))
       case failed => Execution([], failed))
    case ExprNode(e) => Execution([], Eval(e))
    case DeclNode(_) => Execution([], Ok(Undefined))
  }

  /** `evaluate`: `forEach(execute)`, which runs the nodes in order, stops
      at the first exception, and returns undefined. */
  function Evaluate(nodes: seq<Node>): Execution {
    if nodes == [] then Execution([], Ok(Undefined))
    else
      var first := Execute(nodes[0]);
      if first.outcome.Ok? then
        var rest := Evaluate(nodes[1..]);
        Execution(first.output + rest.output, rest.outcome)
      else first
  }
}
