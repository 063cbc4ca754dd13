/** What the grammar of src/parser.js guarantees: every tree it builds
    respects the precedence ladder and nests to the left, its operators are
    tokens of the input, and a printed tree parses back to itself. */
module GrammarProps {
  import opened Values
  import opened Tokens
  import opened Ast
  import opened Grammar
  import opened Printing

  // ---------------------------------------------------------------------
  // A reference description of the trees the parser builds
  // ---------------------------------------------------------------------

  /** The binary level whose list contains `kind`, 0 for none. */
  function OpLevel(kind: string): (l: nat)
    ensures l <= 4
    ensures 1 <= l ==> kind in Ops(l)
  {
    if kind in Ops(1) then 1
    else if kind in Ops(2) then 2
    else if kind in Ops(3) then 3
    else if kind in Ops(4) then 4
    else 0
  }

  /** The operator lists are disjoint: a type in a level's list has that
      level. */
  lemma OpLevelOfOps(kind: string, level: nat)
    requires 1 <= level <= 4 && kind in Ops(level)
    ensures OpLevel(kind) == level
  {
  }

  /** How tightly a tree binds: its operator's level for a binary node,
      5 (tighter than every binary operator) for anything else. */
  function Bind(e: Expr): nat {
    if e.Binary? then OpLevel(e.operator.kind) else 5
  }

  /** Precedence and left-nesting: a binary node's left operand binds at
      least as tightly as its operator and its right operand strictly more
      tightly; a prefix operator is `BANG` or `MINUS` over a non-binary
      operand; no `Grouping` appears. */
  predicate WellNested(e: Expr) {
    match e
    case Binary(l, op, r) =>
      1 <= OpLevel(op.kind) && OpLevel(op.kind) <= Bind(l) && OpLevel(op.kind) < Bind(r)
      && WellNested(l) && WellNested(r)
    case Unary(op, r) => op.kind in ["BANG", "MINUS"] && !r.Binary? && WellNested(r)
    case Grouping(_) => false
    case Literal(_) => true
    case Absent => true
  }

  /** Every operator token of the tree is one of the tokens `ts`. */
  predicate OpsIn(e: Expr, ts: seq<Token>) {
    match e
    case Binary(l, op, r) => op in ts && OpsIn(l, ts) && OpsIn(r, ts)
    case Unary(op, r) => op in ts && OpsIn(r, ts)
    case Grouping(inner) => OpsIn(inner, ts)
    case Literal(_) => true
    case Absent => true
  }

  // ---------------------------------------------------------------------
  // Everything parsed is well nested and built from the input's tokens
  // ---------------------------------------------------------------------

  lemma {:induction false} LevelShape(ts: seq<Token>, pos: nat, level: nat)
    requires pos <= |ts| && 1 <= level <= 4
    ensures var r := ParseLevel(ts, pos, level);
      r.Parsed? ==> WellNested(r.expr) && level <= Bind(r.expr) && OpsIn(r.expr, ts)
    decreases |ts| - pos, 2 * (6 - level)
  {
    OperandShape(ts, pos, level);
    var first := ParseOperand(ts, pos, level);
    if first.Parsed? {
      RestShape(ts, level, first.expr, first.next);
    }
  }

  lemma {:induction false} OperandShape(ts: seq<Token>, pos: nat, level: nat)
    requires pos <= |ts| && 1 <= level <= 4
    ensures var r := ParseOperand(ts, pos, level);
      r.Parsed? ==> WellNested(r.expr) && level < Bind(r.expr) && OpsIn(r.expr, ts)
    decreases |ts| - pos, 2 * (6 - level) - 1
  {
    if level == 4 { UnaryShape(ts, pos); } else { LevelShape(ts, pos, level + 1); }
  }

  lemma {:induction false} RestShape(ts: seq<Token>, level: nat, left: Expr, pos: nat)
    requires pos <= |ts| && 1 <= level <= 4
    ensures var r := ParseRest(ts, level, left, pos);
      r.Parsed? && WellNested(left) && level <= Bind(left) && OpsIn(left, ts) ==>
        WellNested(r.expr) && level <= Bind(r.expr) && OpsIn(r.expr, ts)
    decreases |ts| - pos, 2 * (6 - level) - 1
  {
    if MatchesAt(ts, pos, List(Ops(level))) {
      var op := ts[pos];
      OperandShape(ts, pos + 1, level);
      var right := ParseOperand(ts, pos + 1, level);
      if right.Parsed? {
        OpLevelOfOps(op.kind, level);
        RestShape(ts, level, Binary(left, op, right.expr), right.next);
      }
    }
  }

  lemma {:induction false} UnaryShape(ts: seq<Token>, pos: nat)
    requires pos <= |ts|
    ensures var r := ParseUnary(ts, pos);
      r.Parsed? ==> WellNested(r.expr) && !r.expr.Binary? && OpsIn(r.expr, ts)
    decreases |ts| - pos, 2
  {
    if MatchesAt(ts, pos, List(["BANG", "MINUS"])) {
      UnaryShape(ts, pos + 1);
    } else {
      PrimaryShape(ts, pos);
    }
  }

  lemma {:induction false} PrimaryShape(ts: seq<Token>, pos: nat)
    requires pos <= |ts|
    ensures var r := ParsePrimary(ts, pos);
      r.Parsed? ==> (r.expr.Literal? || r.expr.Absent?)
    decreases |ts| - pos, 1
  {
  }

  /** `parse` never builds a `Grouping`, and whatever it builds obeys the
      precedence ladder and nests to the left. */
  lemma ParsedIsWellNested(ts: seq<Token>)
    ensures Parse(ts).Parsed? ==> WellNested(Parse(ts).expr) && OpsIn(Parse(ts).expr, ts)
  {
    LevelShape(ts, 0, 1);
  }

  // ---------------------------------------------------------------------
  // Printing and parsing back
  // ---------------------------------------------------------------------

  /** The token at `q`, if any, is no operator of a level tighter than
      `level`. */
  predicate StopsAt(ts: seq<Token>, q: nat, level: nat) {
    q < |ts| ==> OpLevel(ts[q].kind) <= level
  }

  lemma StopsAtLooser(ts: seq<Token>, q: nat, level: nat)
    requires StopsAt(ts, q, level)
    ensures StopsAt(ts, q, level + 1)
  {
  }

  /** A token of a looser level is no operator of `level`. */
  lemma NotAnOperator(ts: seq<Token>, q: nat, level: nat)
    requires 1 <= level <= 4 && StopsAt(ts, q, level - 1)
    ensures !MatchesAt(ts, q, List(Ops(level)))
  {
    if MatchesAt(ts, q, List(Ops(level))) {
      OpLevelOfOps(ts[q].kind, level);
    }
  }

  /** The binary loop stops at a token that is not one of its operators. */
  lemma RestStops(ts: seq<Token>, level: nat, left: Expr, q: nat)
    requires q <= |ts| && 1 <= level <= 4 && !MatchesAt(ts, q, List(Ops(level)))
    ensures ParseRest(ts, level, left, q) == Parsed(left, q)
  {
  }

  /** One turn of the binary loop that finds its operator and an operand. */
  lemma RestTakesOperand(ts: seq<Token>, level: nat, left: Expr, pos: nat)
    requires pos <= |ts| && 1 <= level <= 4
    requires MatchesAt(ts, pos, List(Ops(level))) && ParseOperand(ts, pos + 1, level).Parsed?
    ensures var right := ParseOperand(ts, pos + 1, level);
      ParseRest(ts, level, left, pos) == ParseRest(ts, level, Binary(left, ts[pos], right.expr), right.next)
  {
  }

  /** `e` is complete and well nested, and `ts` holds its tokens from
      `pos` on: the three hypotheses of the round trip, told node by node. */
  predicate Laid(e: Expr, ts: seq<Token>, pos: nat) {
    match e
    case Binary(l, op, r) =>
      1 <= OpLevel(op.kind) <= Bind(l) && OpLevel(op.kind) < Bind(r)
      && Laid(l, ts, pos) && pos + Width(l) < |ts| && ts[pos + Width(l)] == op
      && Laid(r, ts, pos + Width(l) + 1)
    case Unary(op, r) =>
      op.kind in ["BANG", "MINUS"] && !r.Binary? && pos < |ts| && ts[pos] == op && Laid(r, ts, pos + 1)
    case Literal(v) => pos < |ts| && ts[pos].kind == "NUMBER" && ts[pos].lexeme == v
    case _ => false
  }

  lemma {:induction false} LaidFits(e: Expr, ts: seq<Token>, pos: nat)
    requires Laid(e, ts, pos)
    ensures pos + Width(e) <= |ts|
  {
    match e
    case Binary(l, op, r) => LaidFits(r, ts, pos + Width(l) + 1);
    case Unary(op, r) => LaidFits(r, ts, pos + 1);
    case Literal(_) =>
  }

  /** The tokens of a complete, well nested tree are laid out wherever they
      stand in a list. */
  lemma {:induction false} FlattenIsLaid(e: Expr, ts: seq<Token>, pos: nat)
    requires WellNested(e) && Complete(e) && Holds(ts, pos, Flatten(e))
    ensures Width(e) == |Flatten(e)|
    ensures Laid(e, ts, pos)
    decreases e, 1
  {
    match e
    case Binary(l, op, r) => BinaryIsLaid(l, op, r, ts, pos);
    case Unary(op, r) =>
      assert Flatten(e) == [] + [op] + Flatten(r);
      HoldsParts(ts, pos, [], op, Flatten(r), 0);
      FlattenIsLaid(r, ts, pos + 1);
    case Literal(_) =>
      assert ts[pos + 0] == Flatten(e)[0];
  }

  /** The binary case of `FlattenIsLaid`. */
  lemma {:induction false} BinaryIsLaid(l: Expr, op: Token, r: Expr, ts: seq<Token>, pos: nat)
    requires WellNested(Binary(l, op, r)) && Complete(Binary(l, op, r))
    requires Holds(ts, pos, Flatten(Binary(l, op, r)))
    ensures Width(Binary(l, op, r)) == |Flatten(Binary(l, op, r))|
    ensures Laid(Binary(l, op, r), ts, pos)
    decreases Binary(l, op, r), 0
  {
    var fl, fr := Flatten(l), Flatten(r);
    assert Flatten(Binary(l, op, r)) == fl + [op] + fr;
    HoldsParts(ts, pos, fl, op, fr, |fl|);
    FlattenIsLaid(l, ts, pos);
    FlattenIsLaid(r, ts, pos + |fl| + 1);
  }

  /** A laid out tree that is no binary node parses back at the unary
      level, ending at `end`. */
  lemma {:induction false} UnaryRoundTrip(e: Expr, ts: seq<Token>, pos: nat, end: nat)
    requires Laid(e, ts, pos) && !e.Binary? && end == pos + Width(e)
    ensures ParseUnary(ts, pos) == Parsed(e, end)
    decreases e, 0
  {
    match e
    case Literal(v) =>
    case Unary(op, r) =>
      UnaryRoundTrip(r, ts, pos + 1, end);
  }

  /** A laid out tree binding at least as tightly as `level` is parsed
      whole by that level, which then goes on looking for its operators
      after it, provided the next token is no operator of a tighter level. */
  lemma {:induction false} LevelRoundTrip(e: Expr, ts: seq<Token>, pos: nat, level: nat, end: nat)
    requires 1 <= level <= 4 && Laid(e, ts, pos) && level <= Bind(e)
    requires end == pos + Width(e) && end <= |ts| && StopsAt(ts, end, level)
    ensures ParseLevel(ts, pos, level) == ParseRest(ts, level, e, end)
    decreases e, 2 * (5 - level) + 1
  {
    if level < Bind(e) {
      OperandRoundTrip(e, ts, pos, level, end);
    } else {
      BinaryRoundTrip(e.left, e.operator, e.right, ts, pos, level, end);
    }
  }

  /** The case of `LevelRoundTrip` where the tree is a binary node of the
      level itself: its left operand is parsed by the same level, its
      operator matched, and its right operand is the next operand. */
  lemma {:induction false} BinaryRoundTrip(l: Expr, op: Token, r: Expr, ts: seq<Token>, pos: nat, level: nat, end: nat)
    requires 1 <= level <= 4 && Laid(Binary(l, op, r), ts, pos) && OpLevel(op.kind) == level
    requires end == pos + Width(l) + 1 + Width(r) && end <= |ts| && StopsAt(ts, end, level)
    ensures ParseLevel(ts, pos, level) == ParseRest(ts, level, Binary(l, op, r), end)
    decreases Binary(l, op, r), 2 * (5 - level)
  {
    var ql := pos + Width(l);
    LevelRoundTrip(l, ts, pos, level, ql);
    OperandRoundTrip(r, ts, ql + 1, level, end);
    assert MatchesAt(ts, ql, List(Ops(level)));
    RestTakesOperand(ts, level, l, ql);
  }

  /** A laid out tree binding more tightly than `level` is one operand of
      that level, when the token after it is no tighter operator. */
  lemma {:induction false} OperandRoundTrip(e: Expr, ts: seq<Token>, pos: nat, level: nat, end: nat)
    requires 1 <= level <= 4 && Laid(e, ts, pos) && level < Bind(e)
    requires end == pos + Width(e) && end <= |ts| && StopsAt(ts, end, level)
    ensures ParseOperand(ts, pos, level) == Parsed(e, end)
    decreases e, 2 * (5 - level)
  {
    if level == 4 {
      UnaryRoundTrip(e, ts, pos, end);
    } else {
      StopsAtLooser(ts, end, level);
      LevelRoundTrip(e, ts, pos, level + 1, end);
      NotAnOperator(ts, end, level + 1);
      RestStops(ts, level + 1, e, end);
    }
  }

  /** Printing a complete, well nested tree and parsing the tokens gives
      the tree back, whatever follows it as long as that does not start
      with a binary operator: the trailing tokens are left unread. */
  lemma RoundTrip(e: Expr, rest: seq<Token>)
    requires WellNested(e) && Complete(e)
    requires rest == [] || OpLevel(rest[0].kind) == 0
    ensures Parse(Flatten(e) + rest) == Parsed(e, |Flatten(e)|)
  {
    var ts := Flatten(e) + rest;
    assert Holds(ts, 0, Flatten(e));
    FlattenIsLaid(e, ts, 0);
    var end := Width(e);
    LevelRoundTrip(e, ts, 0, 1, end);
    NotAnOperator(ts, end, 1);
    RestStops(ts, 1, e, end);
  }

  // ---------------------------------------------------------------------
  // Examples
  // ---------------------------------------------------------------------

  function Num1(v: Value): Token { Token("NUMBER", v, Null, 0) }

  /** `1 + 2 * 3`: the product is the right operand of the sum. */
  lemma ProductBindsTighter(plus: Token, star: Token)
    requires plus.kind == "PLUS" && star.kind == "STAR"
    ensures Parse([Num1(Num(1.0)), plus, Num1(Num(2.0)), star, Num1(Num(3.0))])
         == Parsed(Binary(Literal(Num(1.0)), plus, Binary(Literal(Num(2.0)), star, Literal(Num(3.0)))), 5)
  {
    var e := Binary(Literal(Num(1.0)), plus, Binary(Literal(Num(2.0)), star, Literal(Num(3.0))));
    RoundTrip(e, []);
    assert Flatten(Binary(Literal(Num(2.0)), star, Literal(Num(3.0)))) == [Num1(Num(2.0)), star, Num1(Num(3.0))];
    assert Flatten(e) + [] == [Num1(Num(1.0)), plus, Num1(Num(2.0)), star, Num1(Num(3.0))];
  }

  /** `a - b - c` nests to the left. */
  lemma MinusNestsLeft(minus1: Token, minus2: Token, a: Value, b: Value, c: Value)
    requires minus1.kind == "MINUS" && minus2.kind == "MINUS"
    ensures Parse([Num1(a), minus1, Num1(b), minus2, Num1(c)])
         == Parsed(Binary(Binary(Literal(a), minus1, Literal(b)), minus2, Literal(c)), 5)
  {
    var e := Binary(Binary(Literal(a), minus1, Literal(b)), minus2, Literal(c));
    RoundTrip(e, []);
    assert Flatten(Binary(Literal(a), minus1, Literal(b))) == [Num1(a), minus1, Num1(b)];
    assert Flatten(e) + [] == [Num1(a), minus1, Num1(b), minus2, Num1(c)];
  }

  /** An opening parenthesis always ends in the error of `consume` (or in
      its endless loop, when the tokens run out inside the parentheses). */
  lemma ParenthesisNeverCloses(ts: seq<Token>, pos: nat)
    requires pos < |ts| && ts[pos].kind == "LEFT_PAREN"
    ensures !ParsePrimary(ts, pos).Parsed?
  {
    assert IsInfix("LEFT_PAREN", "LEFT_PAREN");
  }
}
