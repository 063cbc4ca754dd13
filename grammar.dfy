/** The expression grammar of src/parser.js as pure functions of the token
    list and the cursor position. The four binary levels (`equality`,
    `comparison`, `addition`, `multiplication`) have the same shape and
    differ only in their operator list, so they are one function indexed
    by level; the imperative parser in `Parsing` keeps them apart, as the
    source does, and proves each equal to its level here. */
module Grammar {
  import opened Values
  import opened Tokens
  import opened Ast

  /** How a parsing function ends: with an expression and the new cursor,
      with a thrown `Error`, or never (`Hangs` stands for the loop in
      `consume` that runs forever). */
  datatype PResult = Parsed(expr: Expr, next: nat) | Thrown(message: string) | Hangs

  /** The argument of `match`: an array of type names, or a single string.
      `includes` on an array is membership; on a string it is a substring
      test, which is what `match("LEFT_PAREN")` performs. */
  datatype TypeList = List(types: seq<string>) | Text(text: string)

  /** `String.prototype.includes`: `k` occurs in `t` at some offset. */
  predicate IsInfix(k: string, t: string)
    decreases |t|
  {
    |k| <= |t| && (t[..|k|] == k || (0 < |t| && IsInfix(k, t[1..])))
  }

  predicate Includes(list: TypeList, kind: string) {
    match list
    case List(types) => kind in types
    case Text(text) => IsInfix(kind, text)
  }

  /** The test `match` makes: there is a token under the cursor and its
      type is in the list. */
  predicate MatchesAt(ts: seq<Token>, pos: nat, list: TypeList) {
    pos < |ts| && Includes(list, ts[pos].kind)
  }

  /** The operator lists of the binary levels: 1 `equality`, 2
      `comparison`, 3 `addition`, 4 `multiplication`. The first two name
      types that the scanner never emits. */
  function Ops(level: nat): seq<string>
    requires 1 <= level <= 4
  {
    if level == 1 then ["!=", "=="]
    else if level == 2 then [">", ">=", "<", "<="]
    else if level == 3 then ["MINUS", "PLUS"]
    else ["SLASH", "STAR"]
  }

  const ConsumeMessage: string := "Expect ')' after expression."

  /** `expression`. */
  function ParseExpression(ts: seq<Token>, pos: nat): (r: PResult)
    requires pos <= |ts|
    ensures r.Parsed? ==> pos <= r.next <= |ts|
    decreases |ts| - pos, 11
  {
    ParseLevel(ts, pos, 1)
  }

  /** A binary level: parse one operand of the next level, then loop. */
  function ParseLevel(ts: seq<Token>, pos: nat, level: nat): (r: PResult)
    requires pos <= |ts| && 1 <= level <= 4
    ensures r.Parsed? ==> pos <= r.next <= |ts|
    decreases |ts| - pos, 2 * (6 - level)
  {
    match ParseOperand(ts, pos, level)
    case Parsed(e, p) => ParseRest(ts, level, e, p)
    case other => other
  }

  /** The operands of a binary level: the next level, or `unary` below
      `multiplication`. */
  function ParseOperand(ts: seq<Token>, pos: nat, level: nat): (r: PResult)
    requires pos <= |ts| && 1 <= level <= 4
    ensures r.Parsed? ==> pos <= r.next <= |ts|
    decreases |ts| - pos, 2 * (6 - level) - 1
  {
    if level == 4 then ParseUnary(ts, pos) else ParseLevel(ts, pos, level + 1)
  }

  /** The `while (match(...))` loop of a binary level, with `left` the
      expression built so far: each turn takes the operator token, parses a
      right operand and nests what was built so far as its left operand. */
  function ParseRest(ts: seq<Token>, level: nat, left: Expr, pos: nat): (r: PResult)
    requires pos <= |ts| && 1 <= level <= 4
    ensures r.Parsed? ==> pos <= r.next <= |ts|
    decreases |ts| - pos, 2 * (6 - level) - 1
  {
    if MatchesAt(ts, pos, List(Ops(level))) then
      var op := ts[pos];
      match ParseOperand(ts, pos + 1, level)
      case Parsed(e, p) => ParseRest(ts, level, Binary(left, op, e), p)
      case other => other
    else Parsed(left, pos)
  }

  /** `unary`: a `BANG` or `MINUS` prefix wraps a recursively parsed
      unary; otherwise a primary. */
  function ParseUnary(ts: seq<Token>, pos: nat): (r: PResult)
    requires pos <= |ts|
    ensures r.Parsed? ==> pos <= r.next <= |ts|
    decreases |ts| - pos, 2
  {
    if MatchesAt(ts, pos, List(["BANG", "MINUS"])) then
      var op := ts[pos];
      match ParseUnary(ts, pos + 1)
      case Parsed(e, p) => Parsed(Expr.Unary(op, e), p)
      case other => other
    else ParsePrimary(ts, pos)
  }

  /** `primary`. The keyword tests name upper-case types the scanner never
      emits; a number or string gives its token's `lexeme` as value; a
      parenthesis parses an expression and then calls `consume`, which
      never returns, so the `Grouping` after it is unreachable; anything
      else yields undefined and consumes nothing. */
  function ParsePrimary(ts: seq<Token>, pos: nat): (r: PResult)
    requires pos <= |ts|
    ensures r.Parsed? ==> pos <= r.next <= |ts|
    decreases |ts| - pos, 1
  {
    if MatchesAt(ts, pos, List(["FALSE"])) then Parsed(Literal(Bool(false)), pos + 1)
    else if MatchesAt(ts, pos, List(["TRUE"])) then Parsed(Literal(Bool(true)), pos + 1)
    else if MatchesAt(ts, pos, List(["NIL"])) then Parsed(Literal(Null), pos + 1)
    else if MatchesAt(ts, pos, List(["NUMBER", "STRING"])) then Parsed(Literal(ts[pos].lexeme), pos + 1)
    else if MatchesAt(ts, pos, Text("LEFT_PAREN")) then
      match ParseExpression(ts, pos + 1)
      case Parsed(_, p) => Consume(ts, p, ConsumeMessage)
      case other => other
    else Parsed(Absent, pos)
  }

  /** `consume`: its loop compares a token object with a type name, which
      is never equal, so it only stops by throwing once the cursor reaches
      the end; started at the end, the cursor passes it and never stops. */
  function Consume(ts: seq<Token>, pos: nat, message: string): (r: PResult)
    requires pos <= |ts|
    ensures !r.Parsed?
    ensures r.Thrown? <==> pos < |ts|
    ensures r.Thrown? ==> r.message == message
  {
    if pos < |ts| then Thrown(message) else Hangs
  }

  /** `parse`: one expression from the first token; whatever follows it is
      ignored. */
  function Parse(ts: seq<Token>): (r: PResult)
    ensures r.Parsed? ==> r.next <= |ts|
  {
    ParseExpression(ts, 0)
  }
}
