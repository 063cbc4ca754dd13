/** What `execute` and `evaluate` guarantee: statements run in order and
    the first failure stops the run, a declaration does nothing, both
    operands of every binary operator are evaluated, and an exception is
    only ever the call of an operator missing from its table. */
module EvaluationProps {
  import opened Values
  import opened Tokens
  import opened Ast
  import opened Evaluation

  // ---------------------------------------------------------------------
  // Statement lists
  // ---------------------------------------------------------------------

  /** Running `x` and then, if it ended normally, `y`. */
  function Then(x: Execution, y: Execution): Execution {
    if x.outcome.Ok? then Execution(x.output + y.output, y.outcome) else x
  }

  /** Evaluating two lists one after the other is evaluating the first and,
      unless it failed, the second. */
  lemma {:induction false} EvaluateAppend(a: seq<Node>, b: seq<Node>)
    ensures Evaluate(a + b) == Then(Evaluate(a), Evaluate(b))
  {
    if a == [] {
      assert a + b == b;
    } else {
      assert (a + b)[0] == a[0];
      assert (a + b)[1..] == a[1..] + b;
      EvaluateAppend(a[1..], b);
      var first := Execute(a[0]);
      if first.outcome.Ok? {
        var ra, rb := Evaluate(a[1..]), Evaluate(b);
        if ra.outcome.Ok? {
          assert first.output + (ra.output + rb.output) == (first.output + ra.output) + rb.output;
        }
      }
    }
  }

  /** A run ends normally exactly when every node does, and then with
      `forEach`'s undefined. */
  lemma {:induction false} EvaluateSucceeds(nodes: seq<Node>)
    ensures Evaluate(nodes).outcome.Ok? <==> forall i :: 0 <= i < |nodes| ==> Execute(nodes[i]).outcome.Ok?
    ensures Evaluate(nodes).outcome.Ok? ==> Evaluate(nodes).outcome == Ok(Undefined)
  {
    if nodes != [] {
      EvaluateSucceeds(nodes[1..]);
      assert forall i :: 1 <= i < |nodes| ==> nodes[i] == nodes[1..][i - 1];
    }
  }

  /** The first node that fails ends the run with its failure, after the
      output of the nodes before it. */
  lemma {:induction false} StopsAtFirstFailure(nodes: seq<Node>, i: nat)
    requires i < |nodes| && !Execute(nodes[i]).outcome.Ok?
    requires forall j :: 0 <= j < i ==> Execute(nodes[j]).outcome.Ok?
    ensures Evaluate(nodes).outcome == Execute(nodes[i]).outcome
    ensures Evaluate(nodes).output == Evaluate(nodes[..i]).output
  {
    SplitEvaluate(nodes, i);
    PrefixSucceeds(nodes, i);
    FailureAt(nodes, i);
    ThenFailure(Evaluate(nodes[..i]), Evaluate(nodes[i..]));
  }

  /** A run is the run up to `i` followed by the run from `i`. */
  lemma {:induction false} SplitEvaluate(nodes: seq<Node>, i: nat)
    requires i <= |nodes|
    ensures Evaluate(nodes) == Then(Evaluate(nodes[..i]), Evaluate(nodes[i..]))
  {
    SplitAt(nodes, i);
    EvaluateAppend(nodes[..i], nodes[i..]);
  }

  /** The run from a failing node is that node's failure. */
  lemma {:induction false} FailureAt(nodes: seq<Node>, i: nat)
    requires i < |nodes| && !Execute(nodes[i]).outcome.Ok?
    ensures Evaluate(nodes[i..]) == Execute(nodes[i]) && Execute(nodes[i]).output == []
  {
    assert nodes[i..][0] == nodes[i];
    FailureFirst(nodes[i..]);
  }

  lemma SplitAt<T>(xs: seq<T>, i: nat)
    requires i <= |xs|
    ensures xs[..i] + xs[i..] == xs
  {
  }

  /** A normal run followed by a failure that printed nothing. */
  lemma ThenFailure(x: Execution, y: Execution)
    requires x.outcome.Ok? && !y.outcome.Ok? && y.output == []
    ensures Then(x, y) == Execution(x.output, y.outcome)
  {
    assert x.output + [] == x.output;
  }

  lemma {:induction false} PrefixSucceeds(nodes: seq<Node>, i: nat)
    requires i <= |nodes|
    requires forall j :: 0 <= j < i ==> Execute(nodes[j]).outcome.Ok?
    ensures Evaluate(nodes[..i]).outcome.Ok?
  {
    var before := nodes[..i];
    forall j | 0 <= j < |before| ensures Execute(before[j]).outcome.Ok? {
      assert before[j] == nodes[j];
    }
    EvaluateSucceeds(before);
  }

  /** A list whose first node fails ends with that node's failure and logs
      nothing. */
  lemma FailureFirst(nodes: seq<Node>)
    requires nodes != [] && !Execute(nodes[0]).outcome.Ok?
    ensures Evaluate(nodes) == Execute(nodes[0]) && Evaluate(nodes).output == []
  {
    FailureLogsNothing(nodes[0]);
  }

  /** A node that fails logs nothing: `Print` logs only a value it has. */
  lemma FailureLogsNothing(n: Node)
    ensures !Execute(n).outcome.Ok? ==> Execute(n).output == []
  {
  }

  /** The number of `Print` statements in a list. */
  function Prints(nodes: seq<Node>): nat {
    if nodes == [] then 0
    else (if nodes[0].StmtNode? && nodes[0].stmt.Print? then 1 else 0) + Prints(nodes[1..])
  }

  /** Each `Print` that runs logs one value and nothing else logs: a run
      that ends normally logs once per `Print`, a failed one at most that
      often. */
  lemma {:induction false} OutputCount(nodes: seq<Node>)
    ensures |Evaluate(nodes).output| <= Prints(nodes)
    ensures Evaluate(nodes).outcome.Ok? ==> |Evaluate(nodes).output| == Prints(nodes)
  {
    if nodes != [] {
      OutputCount(nodes[1..]);
    }
  }

  /** `execute` has no branch for a `VarDecl`: removing one from a list
      changes neither the output nor the outcome. */
  lemma DeclarationIsNoOp(xs: seq<Node>, d: Declaration, ys: seq<Node>)
    ensures Evaluate(xs + [DeclNode(d)] + ys) == Evaluate(xs + ys)
  {
    var tail := [DeclNode(d)] + ys;
    assert xs + [DeclNode(d)] + ys == xs + tail;
    EvaluateAppend(xs, tail);
    EvaluateAppend(xs, ys);
    DeclarationFirst(d, ys);
  }

  lemma DeclarationFirst(d: Declaration, ys: seq<Node>)
    ensures Evaluate([DeclNode(d)] + ys) == Evaluate(ys)
  {
    assert ([DeclNode(d)] + ys)[1..] == ys;
  }

  // ---------------------------------------------------------------------
  // Expressions
  // ---------------------------------------------------------------------

  /** `print` of a `Grouping` logs undefined and ends normally, even when
      what the grouping holds would throw: its contents are never
      evaluated. */
  lemma PrintedGroupingIsUndefined(inner: Expr, rest: seq<Node>)
    ensures Evaluate([StmtNode(Print(Grouping(inner)))] + rest)
         == Execution([Undefined] + Evaluate(rest).output, Evaluate(rest).outcome)
  {
    assert ([StmtNode(Print(Grouping(inner)))] + rest)[1..] == rest;
  }

  /** `!!e` is the truth of `e`, as a boolean. */
  lemma DoubleBangIsTruth(b1: Token, b2: Token, e: Expr)
    requires b1.kind == "BANG" && b2.kind == "BANG" && Eval(e).Ok?
    ensures Eval(Unary(b1, Unary(b2, e))) == Ok(Bool(Truthy(Eval(e).value)))
  {
  }

  /** One step from an expression to the one enclosing it: as the left
      operand, as the right operand beside an already given left one, or as
      the operand of a prefix operator. */
  datatype Frame = LeftOf(op: Token, right: Expr) | RightOf(left: Expr, op: Token) | Under(op: Token)

  function Wrap(f: Frame, e: Expr): Expr {
    match f
    case LeftOf(op, r) => Binary(e, op, r)
    case RightOf(l, op) => Binary(l, op, e)
    case Under(op) => Unary(op, e)
  }

  /** `e` placed in the frames `ctx`, innermost first. */
  function Plug(ctx: seq<Frame>, e: Expr): Expr
    decreases |ctx|
  {
    if ctx == [] then e else Plug(ctx[1..], Wrap(ctx[0], e))
  }

  /** Every left operand beside the path ends normally: nothing evaluated
      before the hole fails. */
  predicate LeftSiblingsOk(ctx: seq<Frame>) {
    forall i :: 0 <= i < |ctx| && ctx[i].RightOf? ==> Eval(ctx[i].left).Ok?
  }

  /** A failing subexpression makes every enclosing operator fail, whatever
      the operators are: no table entry is ever called on it. When nothing
      evaluated before it fails, the whole expression ends with exactly its
      failure (the same exception, or the same open case). */
  lemma {:induction false} FailurePropagates(ctx: seq<Frame>, e: Expr)
    requires !Eval(e).Ok?
    ensures !Eval(Plug(ctx, e)).Ok?
    ensures LeftSiblingsOk(ctx) ==> Eval(Plug(ctx, e)) == Eval(e)
    decreases |ctx|
  {
    if ctx != [] {
      var w := Wrap(ctx[0], e);
      assert !Eval(w).Ok?;
      assert LeftSiblingsOk(ctx) ==> Eval(w) == Eval(e);
      assert LeftSiblingsOk(ctx) ==> LeftSiblingsOk(ctx[1..]) by {
        if LeftSiblingsOk(ctx) {
          forall i | 0 <= i < |ctx[1..]| && ctx[1..][i].RightOf?
            ensures Eval(ctx[1..][i].left).Ok?
          {
            assert ctx[1..][i] == ctx[i + 1];
          }
        }
      }
      FailurePropagates(ctx[1..], w);
    }
  }

  /** `AND` and `OR` do not short-circuit: they end normally exactly when
      both operands do, and then give a boolean. */
  lemma LogicEvaluatesBoth(l: Expr, op: Token, r: Expr)
    requires op.kind == "AND" || op.kind == "OR"
    ensures Eval(Binary(l, op, r)).Ok? <==> Eval(l).Ok? && Eval(r).Ok?
    ensures Eval(Binary(l, op, r)).Ok? ==> Eval(Binary(l, op, r)).value.Bool?
  {
  }

  /** `false AND <an expression that throws>` throws. */
  lemma FalseAndThrows(and: Token, bad: Token)
    requires and.kind == "AND" && bad.kind == "EQUAL"
    ensures Eval(Binary(Literal(Bool(false)), and, Unary(bad, Literal(Null)))).Throws?
  {
    assert Eval(Unary(bad, Literal(Null))) == Throws(NotAFunction);
  }

  /** An operator under evaluation whose call throws: its type is neither
      in its table nor an inherited member that answers. A `Grouping` hides
      its contents, which are never evaluated. */
  predicate HasMissingOp(e: Expr) {
    match e
    case Binary(l, op, r) =>
      (op.kind !in BinaryOps && op.kind !in AnsweringKeys) || HasMissingOp(l) || HasMissingOp(r)
    case Unary(op, r) =>
      (op.kind !in UnaryOps && op.kind !in AnsweringKeys) || HasMissingOp(r)
    case Grouping(_) => false
    case Literal(_) => false
    case Absent => false
  }

  /** The only exception `execute` throws is the call of an operator
      whose entry is missing and whose key is no answering inherited
      member. */
  lemma {:induction false} ThrowsOnlyOnMissingOp(e: Expr)
    ensures Eval(e).Throws? ==> HasMissingOp(e)
  {
    match e
    case Binary(l, op, r) =>
      ThrowsOnlyOnMissingOp(l);
      ThrowsOnlyOnMissingOp(r);
    case Unary(op, r) =>
      ThrowsOnlyOnMissingOp(r);
    case _ =>
  }

  /** An operator whose call throws is always reached or preceded by
      another failure: such an expression never gives a value (it throws,
      or an earlier operand is a case left open). */
  lemma {:induction false} MissingOpFails(e: Expr)
    requires HasMissingOp(e)
    ensures !Eval(e).Ok?
  {
    match e
    case Binary(l, op, r) =>
      if HasMissingOp(l) {
        MissingOpFails(l);
      } else if HasMissingOp(r) {
        MissingOpFails(r);
      }
    case Unary(op, r) =>
      if HasMissingOp(r) {
        MissingOpFails(r);
      }
  }
}
