/** `parse` as the source writes it: a set of closures sharing the mutable
    cursor `current` over a fixed token list. Here the cursor is the one
    mutable field of a `Parser` object and each closure is a method; every
    method is proved to return what the matching `Grammar` function returns
    from the cursor it started at, leaving the cursor after what it parsed. */
module Parsing {
  import opened Values
  import opened Tokens
  import opened Ast
  import opened Grammar

  class Parser {
    const tokens: seq<Token>
    var current: nat

    constructor (tokens: seq<Token>)
      ensures this.tokens == tokens && current == 0
    {
      this.tokens := tokens;
      current := 0;
    }

    /** `match`: step over the token under the cursor when its type is in
        `types`; otherwise change nothing. */
    method Match(types: TypeList) returns (matched: bool)
      modifies this`current
      ensures matched == MatchesAt(tokens, old(current), types)
      ensures current == if matched then old(current) + 1 else old(current)
    {
      if current < |tokens| && Includes(types, tokens[current].kind) {
        current := current + 1;
        return true;
      }
      return false;
    }

    /** `expression`. */
    method Expression() returns (r: PResult)
      requires current <= |tokens|
      modifies this`current
      ensures r == ParseExpression(tokens, old(current))
      ensures r.Parsed? ==> current == r.next
      decreases |tokens| - current, 11
    {
      r := Equality();
    }

    /** `equality`. */
    method Equality() returns (r: PResult)
      requires current <= |tokens|
      modifies this`current
      ensures r == ParseLevel(tokens, old(current), 1)
      ensures r.Parsed? ==> current == r.next
      decreases |tokens| - current, 10
    {
      var first := Comparison();
      if !first.Parsed? {
        return first;
      }
      var expr := first.expr;
      var matched := Match(List(["!=", "=="]));
      while matched
        invariant old(current) <= current <= |tokens|
        invariant matched ==> old(current) < current && MatchesAt(tokens, current - 1, List(Ops(1)))
        invariant !matched ==> !MatchesAt(tokens, current, List(Ops(1)))
        invariant ParseRest(tokens, 1, expr, if matched then current - 1 else current)
               == ParseLevel(tokens, old(current), 1)
        decreases |tokens| - current, matched
      {
        var op := tokens[current - 1];
        var right := Comparison();
        if !right.Parsed? {
          return right;
        }
        expr := Binary(expr, op, right.expr);
        matched := Match(List(["!=", "=="]));
      }
      return Parsed(expr, current);
    }

    /** `comparison`. */
    method Comparison() returns (r: PResult)
      requires current <= |tokens|
      modifies this`current
      ensures r == ParseLevel(tokens, old(current), 2)
      ensures r.Parsed? ==> current == r.next
      decreases |tokens| - current, 8
    {
      var first := Addition();
      if !first.Parsed? {
        return first;
      }
      var expr := first.expr;
      var matched := Match(List([">", ">=", "<", "<="]));
      while matched
        invariant old(current) <= current <= |tokens|
        invariant matched ==> old(current) < current && MatchesAt(tokens, current - 1, List(Ops(2)))
        invariant !matched ==> !MatchesAt(tokens, current, List(Ops(2)))
        invariant ParseRest(tokens, 2, expr, if matched then current - 1 else current)
               == ParseLevel(tokens, old(current), 2)
        decreases |tokens| - current, matched
      {
        var op := tokens[current - 1];
        var right := Addition();
        if !right.Parsed? {
          return right;
        }
        expr := Binary(expr, op, right.expr);
        matched := Match(List([">", ">=", "<", "<="]));
      }
      return Parsed(expr, current);
    }

    /** `addition`. */
    method Addition() returns (r: PResult)
      requires current <= |tokens|
      modifies this`current
      ensures r == ParseLevel(tokens, old(current), 3)
      ensures r.Parsed? ==> current == r.next
      decreases |tokens| - current, 6
    {
      var first := Multiplication();
      if !first.Parsed? {
        return first;
      }
      var expr := first.expr;
      var matched := Match(List(["MINUS", "PLUS"]));
      while matched
        invariant old(current) <= current <= |tokens|
        invariant matched ==> old(current) < current && MatchesAt(tokens, current - 1, List(Ops(3)))
        invariant !matched ==> !MatchesAt(tokens, current, List(Ops(3)))
        invariant ParseRest(tokens, 3, expr, if matched then current - 1 else current)
               == ParseLevel(tokens, old(current), 3)
        decreases |tokens| - current, matched
      {
        var op := tokens[current - 1];
        var right := Multiplication();
        if !right.Parsed? {
          return right;
        }
        expr := Binary(expr, op, right.expr);
        matched := Match(List(["MINUS", "PLUS"]));
      }
      return Parsed(expr, current);
    }

    /** `multiplication`. */
    method Multiplication() returns (r: PResult)
      requires current <= |tokens|
      modifies this`current
      ensures r == ParseLevel(tokens, old(current), 4)
      ensures r.Parsed? ==> current == r.next
      decreases |tokens| - current, 4
    {
      var first := Unary();
      if !first.Parsed? {
        return first;
      }
      var expr := first.expr;
      var matched := Match(List(["SLASH", "STAR"]));
      while matched
        invariant old(current) <= current <= |tokens|
        invariant matched ==> old(current) < current && MatchesAt(tokens, current - 1, List(Ops(4)))
        invariant !matched ==> !MatchesAt(tokens, current, List(Ops(4)))
        invariant ParseRest(tokens, 4, expr, if matched then current - 1 else current)
               == ParseLevel(tokens, old(current), 4)
        decreases |tokens| - current, matched
      {
        var op := tokens[current - 1];
        var right := Unary();
        if !right.Parsed? {
          return right;
        }
        expr := Binary(expr, op, right.expr);
        matched := Match(List(["SLASH", "STAR"]));
      }
      return Parsed(expr, current);
    }

    /** `unary`. Its `while` returns during its first turn, so it is an
        `if` here. */
    method Unary() returns (r: PResult)
      requires current <= |tokens|
      modifies this`current
      ensures r == ParseUnary(tokens, old(current))
      ensures r.Parsed? ==> current == r.next
      decreases |tokens| - current, 2
    {
      var matched := Match(List(["BANG", "MINUS"]));
      if matched {
        var op := tokens[current - 1];
        var operand := Unary();
        if operand.Parsed? {
          return Parsed(Expr.Unary(op, operand.expr), current);
        }
        return operand;
      }
      r := Primary();
    }

    /** `primary`. */
    method Primary() returns (r: PResult)
      requires current <= |tokens|
      modifies this`current
      ensures r == ParsePrimary(tokens, old(current))
      ensures r.Parsed? ==> current == r.next
      decreases |tokens| - current, 1
    {
      var m := Match(List(["FALSE"]));
      if m {
        return Parsed(Literal(Bool(false)), current);
      }
      m := Match(List(["TRUE"]));
      if m {
        return Parsed(Literal(Bool(true)), current);
      }
      m := Match(List(["NIL"]));
      if m {
        return Parsed(Literal(Null), current);
      }
      m := Match(List(["NUMBER", "STRING"]));
      if m {
        return Parsed(Literal(tokens[current - 1].lexeme), current);
      }
      m := Match(Text("LEFT_PAREN"));
      if m {
        var inner := Expression();
        if !inner.Parsed? {
          return inner;
        }
        r := Consume("RIGHT_PAREN", ConsumeMessage);
        return r;
      }
      return Parsed(Absent, current);
    }

    /** `consume`. The source loops while the token under the cursor is not
        `tokenType`; a token is never equal to a type name, so that test
        always holds and is not written. Started at the end, the cursor
        moves past it and the loop never ends, which is reported as `Hangs`
        without running it. */
    method Consume(tokenType: string, message: string) returns (r: PResult)
      requires current <= |tokens|
      modifies this`current
      ensures r == Grammar.Consume(tokens, old(current), message)
      ensures r.Thrown? ==> current == |tokens|
    {
      if current == |tokens| {
        return Hangs;
      }
      while true
        invariant current < |tokens|
        decreases |tokens| - current
      {
        current := current + 1;
        if current == |tokens| {
          return Thrown(message);
        }
      }
    }
  }

  /** `parse`: a fresh cursor at 0 and one `expression`. */
  method Parse(tokens: seq<Token>) returns (r: PResult)
    ensures r == Grammar.Parse(tokens)
  {
    var parser := new Parser(tokens);
    r := parser.Expression();
  }
}
