/** Printing a syntax tree back to the tokens it was parsed from. */
module Printing {
  import opened Values
  import opened Tokens
  import opened Ast

  const LeftParen: Token := Token("LEFT_PAREN", Str("("), Null, 0)
  const RightParen: Token := Token("RIGHT_PAREN", Str(")"), Null, 0)

  /** The tokens of a tree, in order; a literal is printed as a NUMBER
      token carrying its value. */
  function Flatten(e: Expr): seq<Token> {
    match e
    case Binary(l, op, r) => Flatten(l) + [op] + Flatten(r)
    case Unary(op, r) => [op] + Flatten(r)
    case Grouping(inner) => [LeftParen] + Flatten(inner) + [RightParen]
    case Literal(v) => [Token("NUMBER", v, Null, 0)]
    case Absent => []
  }

  /** No operand is missing. */
  predicate Complete(e: Expr) {
    match e
    case Binary(l, _, r) => Complete(l) && Complete(r)
    case Unary(_, r) => Complete(r)
    case Grouping(inner) => Complete(inner)
    case Literal(_) => true
    case Absent => false
  }

  /** The number of tokens of a tree, counted without building them. */
  function Width(e: Expr): nat {
    match e
    case Binary(l, _, r) => Width(l) + 1 + Width(r)
    case Unary(_, r) => 1 + Width(r)
    case Grouping(inner) => Width(inner) + 2
    case Literal(_) => 1
    case Absent => 0
  }

  /** `ts` holds `xs` from `pos` on. */
  predicate Holds(ts: seq<Token>, pos: nat, xs: seq<Token>) {
    pos + |xs| <= |ts| && forall i :: 0 <= i < |xs| ==> ts[pos + i] == xs[i]
  }

  /** Holding `x + [y] + z` is holding each part in turn; `k` is the
      length of `x`. */
  lemma HoldsParts(ts: seq<Token>, pos: nat, x: seq<Token>, y: Token, z: seq<Token>, k: nat)
    requires Holds(ts, pos, x + [y] + z) && k == |x|
    ensures Holds(ts, pos, x)
    ensures ts[pos + k] == y
    ensures Holds(ts, pos + k + 1, z)
  {
    var w := x + [y] + z;
    forall i | 0 <= i < |x| ensures ts[pos + i] == x[i] {
      assert w[i] == x[i];
    }
    assert w[k + 0] == y;
    forall i | 0 <= i < |z| ensures ts[pos + k + 1 + i] == z[i] {
      assert ts[pos + (k + 1 + i)] == w[k + 1 + i];
    }
  }
}
