/** The three stages together: the tokens either copy of `lex` produces,
    `parse` over them, and `execute` on the tree. The repository never
    calls them in a row (its `run` is empty), so these lemmas say what the
    stages would do if composed: whatever text goes in, the tree carries
    only operators the evaluator's tables know, so evaluating it never
    throws; and `1 + 2` shows the two copies of `lex` parting ways. */
module Pipeline {
  import opened Values
  import opened Tokens
  import opened Ast
  import opened ScannerSpec
  import opened ScannerProps
  import opened Grammar
  import opened GrammarProps
  import opened Evaluation
  import opened EvaluationProps

  /** Every token of the list has a name for its type. */
  predicate AllTypeNames(ts: seq<Token>) {
    forall t | t in ts :: IsTypeName(t.kind)
  }

  /** Both copies of `lex` give every token a name for its type. */
  lemma LexedKindsAreTypeNames(edition: Edition, s: string)
    ensures AllTypeNames(LexTokens(edition, s))
  {
    var ts := LexTokens(edition, s);
    ScannedKindsAreTypeNames(s);
    forall t | t in ts ensures IsTypeName(t.kind) {
      var i :| 0 <= i < |ts| && ts[i] == t;
      TokenAt(s, i);
    }
  }

  /** The operators of `equality` and `comparison` are no names, so no
      scanned token is one of them. */
  lemma NamesAreNoLooseOperators(kind: string)
    requires IsTypeName(kind)
    ensures kind !in Ops(1) && kind !in Ops(2)
  {
    assert IsAlphaNumeric(kind[0]);
  }

  /** A well nested tree whose operators come from tokens with names for
      types has only `addition` and `multiplication` operators and the two
      prefix operators, all of them in the evaluator's tables. */
  lemma {:induction false} NamedOperatorsAreKnown(e: Expr, ts: seq<Token>)
    requires WellNested(e) && OpsIn(e, ts) && AllTypeNames(ts)
    ensures !HasMissingOp(e)
  {
    match e
    case Binary(l, op, r) =>
      NamesAreNoLooseOperators(op.kind);
      assert op.kind in Ops(OpLevel(op.kind));
      assert op.kind in BinaryOps;
      NamedOperatorsAreKnown(l, ts);
      NamedOperatorsAreKnown(r, ts);
    case Unary(op, r) =>
      assert op.kind in UnaryOps;
      NamedOperatorsAreKnown(r, ts);
    case _ =>
  }

  /** Whatever the source text and whichever copy of `lex`, evaluating what
      `parse` builds from its tokens never throws: the parser's `!=`, `==`,
      `>`, `>=`, `<`, `<=` levels never fire on scanned tokens, and every
      operator that does fire has an entry in the evaluator's tables. */
  lemma LexedProgramsNeverThrow(edition: Edition, s: string)
    ensures var r := Parse(LexTokens(edition, s)); r.Parsed? ==> !Eval(r.expr).Throws?
  {
    var ts := LexTokens(edition, s);
    var r := Parse(ts);
    if r.Parsed? {
      ParsedIsWellNested(ts);
      LexedKindsAreTypeNames(edition, s);
      NamedOperatorsAreKnown(r.expr, ts);
      ThrowsOnlyOnMissingOp(r.expr);
    }
  }

  // ---------------------------------------------------------------------
  // `1 + 2`
  // ---------------------------------------------------------------------

  /** After the first operand of `d op d`, with blanks around a
      one-character operator: the operator, then the second number. */
  lemma InfixTail(s: string, op: string)
    requires |s| == 5 && s[1] == ' ' && s[3] == ' ' && IsDigit(s[4]) && Classify(s[2]) == Single(op)
    ensures ScanFrom(s, 1, 0) == [Scan(op, 2, 2, 0), Scan("NUMBER", 4, 4, 0)]
  {
    assert ScanFrom(s, 5, 0) == [];
    NumberRule(s, 4, 4, 0);
    SkipRule(s, 3, 0);
    SingleCharRule(s, 2, 0);
    SkipRule(s, 1, 0);
  }

  /** A digit, a blank, a one-character operator, a blank and a digit
      (`1 + 2`, `3 - 1`) scan as NUMBER, the operator, NUMBER; the blanks
      give nothing. */
  lemma InfixScans(s: string, op: string)
    requires |s| == 5 && IsDigit(s[0]) && s[1] == ' ' && s[3] == ' ' && IsDigit(s[4]) && Classify(s[2]) == Single(op)
    ensures Scans(s) == [Scan("NUMBER", 0, 0, 0), Scan(op, 2, 2, 0), Scan("NUMBER", 4, 4, 0)]
  {
    NumberRule(s, 0, 0, 0);
    InfixTail(s, op);
  }

  /** Three tokens NUMBER, PLUS or MINUS, NUMBER parse as one node of
      `addition` over the two lexemes, with the cursor after all three. */
  lemma AdditionParses(ts: seq<Token>)
    requires |ts| == 3 && ts[0].kind == "NUMBER" && ts[1].kind in ["PLUS", "MINUS"] && ts[2].kind == "NUMBER"
    ensures Parse(ts) == Parsed(Binary(Literal(ts[0].lexeme), ts[1], Literal(ts[2].lexeme)), 3)
  {
    var e := Binary(Literal(ts[0].lexeme), ts[1], Literal(ts[2].lexeme));
    assert OpLevel(ts[1].kind) == 3;
    assert Laid(e, ts, 0);
    LevelRoundTrip(e, ts, 0, 1, 3);
    RestStops(ts, 1, e, 3);
  }

  /** The tokens of `1 + 2` from either copy of `lex`. */
  lemma SumTokens(s: string)
    requires s == "1 + 2"
    ensures var ts := LexTokens(LexerJs, s);
      |ts| == 3 && ts[0].kind == "NUMBER" && ts[1].kind == "PLUS" && ts[2].kind == "NUMBER"
      && ts[0].lexeme == Str("1") && ts[2].lexeme == Str("2")
    ensures var ts := LexTokens(InterpreterJs, s);
      |ts| == 3 && ts[0].kind == "NUMBER" && ts[1].kind == "PLUS" && ts[2].kind == "NUMBER"
      && ts[0].lexeme == Num(1.0) && ts[2].lexeme == Num(2.0)
  {
    InfixScans(s, "PLUS");
    TokenAt(s, 0);
    TokenAt(s, 1);
    TokenAt(s, 2);
    assert s[0..1] == "1" && s[4..5] == "2";
    assert DecimalValue("1") == 1 && DecimalValue("2") == 2;
  }

  /** src/lexer.js stores the raw text as the lexeme, and the parser makes
      the lexeme the literal's value: `1 + 2` joins two strings. */
  lemma LexerJsSumConcatenates(s: string)
    requires s == "1 + 2"
    ensures var r := Parse(LexTokens(LexerJs, s));
      r.Parsed? && Eval(r.expr) == Ok(Str("12"))
  {
    SumTokens(s);
    AdditionParses(LexTokens(LexerJs, s));
    assert "1" + "2" == "12";
  }

  /** interpreter.js stores the number as the lexeme: `1 + 2` adds. */
  lemma InterpreterJsSumAdds(s: string)
    requires s == "1 + 2"
    ensures var r := Parse(LexTokens(InterpreterJs, s));
      r.Parsed? && Eval(r.expr) == Ok(Num(3.0))
  {
    SumTokens(s);
    AdditionParses(LexTokens(InterpreterJs, s));
  }

  // ---------------------------------------------------------------------
  // `1 == 2`
  // ---------------------------------------------------------------------

  lemma EqualityTail(s: string)
    requires s == "1 == 2"
    ensures ScanFrom(s, 1, 0) == [Scan("EQUAL_EQUAL", 2, 3, 0), Scan("NUMBER", 5, 5, 0)]
  {
    assert ScanFrom(s, 6, 0) == [];
    NumberRule(s, 5, 5, 0);
    SkipRule(s, 4, 0);
    OperatorRule(s, 2, 0);
    SkipRule(s, 1, 0);
  }

  /** The first two tokens of `1 == 2` from interpreter.js. */
  lemma EqualityTokens(s: string)
    requires s == "1 == 2"
    ensures var ts := LexTokens(InterpreterJs, s);
      2 <= |ts| && ts[0].kind == "NUMBER" && ts[0].lexeme == Num(1.0) && ts[1].kind == "EQUAL_EQUAL"
  {
    NumberRule(s, 0, 0, 0);
    EqualityTail(s);
    TokenAt(s, 0);
    TokenAt(s, 1);
    assert s[0..1] == "1" && DecimalValue("1") == 1;
  }

  /** A NUMBER followed by a token of no binary level parses as that
      number alone. */
  lemma NumberThenStranger(ts: seq<Token>)
    requires 2 <= |ts| && ts[0].kind == "NUMBER" && OpLevel(ts[1].kind) == 0
    ensures Parse(ts) == Parsed(Literal(ts[0].lexeme), 1)
  {
    var e := Literal(ts[0].lexeme);
    LevelRoundTrip(e, ts, 0, 1, 1);
    NotAnOperator(ts, 1, 1);
    RestStops(ts, 1, e, 1);
  }

  /** The scanner emits EQUAL_EQUAL, but `equality` looks for a type
      literally named `==`: `1 == 2` parses as the number 1 alone, and the
      two tokens after it are never read. */
  lemma EqualityIsNotParsed(s: string)
    requires s == "1 == 2"
    ensures Parse(LexTokens(InterpreterJs, s)) == Parsed(Literal(Num(1.0)), 1)
  {
    EqualityTokens(s);
    assert OpLevel("EQUAL_EQUAL") == 0;
    NumberThenStranger(LexTokens(InterpreterJs, s));
  }

  // ---------------------------------------------------------------------
  // Digit strings are numbers to `-`
  // ---------------------------------------------------------------------

  /** The tokens of `3 - 1` from src/lexer.js. */
  lemma DifferenceTokens(s: string)
    requires s == "3 - 1"
    ensures var ts := LexTokens(LexerJs, s);
      |ts| == 3 && ts[0].kind == "NUMBER" && ts[1].kind == "MINUS" && ts[2].kind == "NUMBER"
      && ts[0].lexeme == Str("3") && ts[2].lexeme == Str("1")
  {
    InfixScans(s, "MINUS");
    TokenAt(s, 0);
    TokenAt(s, 1);
    TokenAt(s, 2);
    assert s[0..1] == "3" && s[4..5] == "1";
  }

  /** With src/lexer.js the operands of `3 - 1` are the strings "3" and
      "1", but `-` converts digit strings to their numbers: the result is
      the number 2, where `+` would have joined the texts. */
  lemma LexerJsDifferenceSubtracts(s: string)
    requires s == "3 - 1"
    ensures var r := Parse(LexTokens(LexerJs, s));
      r.Parsed? && Eval(r.expr) == Ok(Num(2.0))
  {
    DifferenceTokens(s);
    AdditionParses(LexTokens(LexerJs, s));
    assert AllDigits("3") && DecimalValue("3") == 3;
    assert AllDigits("1") && DecimalValue("1") == 1;
  }

  /** A MINUS and a NUMBER parse as the negation of the lexeme. */
  lemma NegationParses(ts: seq<Token>)
    requires |ts| == 2 && ts[0].kind == "MINUS" && ts[1].kind == "NUMBER"
    ensures Parse(ts) == Parsed(Unary(ts[0], Literal(ts[1].lexeme)), 2)
  {
    var e := Unary(ts[0], Literal(ts[1].lexeme));
    assert Laid(e, ts, 0);
    LevelRoundTrip(e, ts, 0, 1, 2);
    RestStops(ts, 1, e, 2);
  }

  /** The tokens of `-1` from src/lexer.js: MINUS, NUMBER. */
  lemma NegationTokens(s: string)
    requires s == "-1"
    ensures var ts := LexTokens(LexerJs, s);
      |ts| == 2 && ts[0].kind == "MINUS" && ts[1].kind == "NUMBER" && ts[1].lexeme == Str("1")
  {
    assert ScanFrom(s, 2, 0) == [];
    NumberRule(s, 1, 1, 0);
    SingleCharRule(s, 0, 0);
    TokenAt(s, 0);
    TokenAt(s, 1);
    assert s[1..2] == "1";
  }

  /** With src/lexer.js, `-1` negates the string "1", which `-1 * a`
      converts: the result is the number -1. */
  lemma LexerJsNegationIsNumeric(s: string)
    requires s == "-1"
    ensures var r := Parse(LexTokens(LexerJs, s));
      r.Parsed? && Eval(r.expr) == Ok(Num(-1.0))
  {
    NegationTokens(s);
    assert AllDigits("1") && DecimalValue("1") == 1;
    NegationParses(LexTokens(LexerJs, s));
  }

  // ---------------------------------------------------------------------
  // `true`, `false` and `nil`
  // ---------------------------------------------------------------------

  /** Neither copy of `lex` gives a token the type `FALSE`, `TRUE` or
      `NIL`. */
  lemma LexedKindsAreNoKeywordTypes(edition: Edition, s: string)
    ensures forall t | t in LexTokens(edition, s) :: t.kind !in KeywordTypes
  {
    var ts := LexTokens(edition, s);
    ScannedKindsAreNoKeywordTypes(s);
    forall t | t in ts ensures t.kind !in KeywordTypes {
      var i :| 0 <= i < |ts| && ts[i] == t;
      TokenAt(s, i);
    }
  }

  /** So on scanned tokens the keyword tests of `primary` never fire: a
      literal it builds is the lexeme of a NUMBER or STRING token, never
      `false`, `true` or `null` of its own. */
  lemma PrimaryLiteralIsLexeme(edition: Edition, s: string, pos: nat)
    requires pos <= |LexTokens(edition, s)|
    ensures var ts := LexTokens(edition, s); var r := ParsePrimary(ts, pos);
      r.Parsed? && r.expr.Literal? ==>
        pos < |ts| && ts[pos].kind in ["NUMBER", "STRING"] && r.expr.value == ts[pos].lexeme
  {
    var ts := LexTokens(edition, s);
    LexedKindsAreNoKeywordTypes(edition, s);
    if pos < |ts| {
      assert ts[pos] in ts;
    }
  }

  /** A word whose first letter does not occur in a text is no part of
      it. */
  lemma {:induction false} NotInfixWithoutFirst(k: string, t: string)
    requires 1 <= |k| && forall i :: 0 <= i < |t| ==> t[i] != k[0]
    ensures !IsInfix(k, t)
    decreases |t|
  {
    if |k| <= |t| {
      assert t[..|k|][0] == t[0];
      if 0 < |t| {
        NotInfixWithoutFirst(k, t[1..]);
      }
    }
  }

  /** No lower-case keyword occurs in the text `match("LEFT_PAREN")`
      searches. */
  lemma NotInParen(k: string)
    requires k in ["true", "false", "nil"]
    ensures !IsInfix(k, "LEFT_PAREN")
  {
    NotInfixWithoutFirst(k, "LEFT_PAREN");
  }

  /** At a token of no binary level that `unary` reads as undefined,
      every binary level gives undefined too and reads nothing. */
  lemma {:induction false} LevelsOfAbsent(ts: seq<Token>, level: nat)
    requires 1 <= level <= 4 && 1 <= |ts| && OpLevel(ts[0].kind) == 0
    requires ParseUnary(ts, 0) == Parsed(Absent, 0)
    ensures ParseLevel(ts, 0, level) == Parsed(Absent, 0)
    decreases 4 - level
  {
    if level < 4 {
      LevelsOfAbsent(ts, level + 1);
    }
    assert ParseOperand(ts, 0, level) == Parsed(Absent, 0);
    NotAnOperator(ts, 0, level);
    RestStops(ts, level, Absent, 0);
  }

  /** A type beginning with a lower-case letter. */
  predicate LowerFirst(k: string) {
    1 <= |k| && 'a' <= k[0] <= 'z'
  }

  /** `primary` reads a token with a lower-case type that
      `match("LEFT_PAREN")` does not accept as undefined: every type it
      tests for is upper-case. */
  lemma PrimaryOfStranger(ts: seq<Token>)
    requires 1 <= |ts| && LowerFirst(ts[0].kind) && !IsInfix(ts[0].kind, "LEFT_PAREN")
    ensures ParsePrimary(ts, 0) == Parsed(Absent, 0)
  {
    var k := ts[0].kind;
    assert !MatchesAt(ts, 0, List(["FALSE"])) && !MatchesAt(ts, 0, List(["TRUE"])) by {
      assert "FALSE"[0] == 'F' && "TRUE"[0] == 'T';
    }
    assert !MatchesAt(ts, 0, List(["NIL"])) by { assert "NIL"[0] == 'N'; }
    assert !MatchesAt(ts, 0, List(["NUMBER", "STRING"])) by { assert "NUMBER"[0] == 'N' && "STRING"[0] == 'S'; }
    assert !MatchesAt(ts, 0, Text("LEFT_PAREN"));
  }

  /** So does `unary`, whose prefixes are upper-case too. */
  lemma UnaryOfStranger(ts: seq<Token>)
    requires 1 <= |ts| && LowerFirst(ts[0].kind) && !IsInfix(ts[0].kind, "LEFT_PAREN")
    ensures ParseUnary(ts, 0) == Parsed(Absent, 0)
  {
    PrimaryOfStranger(ts);
    assert !MatchesAt(ts, 0, List(["BANG", "MINUS"])) by { assert "BANG"[0] == 'B' && "MINUS"[0] == 'M'; }
  }

  /** No binary level's operator begins with a lower-case letter. */
  lemma LowerIsNoOperator(k: string)
    requires LowerFirst(k)
    ensures OpLevel(k) == 0
  {
    assert k != "MINUS" && k != "PLUS" by { assert "MINUS"[0] == 'M' && "PLUS"[0] == 'P'; }
    assert k != "SLASH" && k != "STAR" by { assert "SLASH"[0] == 'S' && "STAR"[0] == 'S'; }
    assert k !in Ops(1) && k !in Ops(2) by {
      assert forall o | o in Ops(1) + Ops(2) :: o[0] == '!' || o[0] == '=' || o[0] == '<' || o[0] == '>';
    }
  }

  /** A scanned keyword `true`, `false` or `nil` is no literal: `parse`
      gives undefined and reads nothing. */
  lemma KeywordIsAbsent(ts: seq<Token>)
    requires 1 <= |ts| && ts[0].kind in ["true", "false", "nil"]
    ensures Parse(ts) == Parsed(Absent, 0)
  {
    var k := ts[0].kind;
    assert LowerFirst(k) by { assert k[0] == 't' || k[0] == 'f' || k[0] == 'n'; }
    NotInParen(k);
    LowerIsNoOperator(k);
    UnaryOfStranger(ts);
    LevelsOfAbsent(ts, 1);
  }

  /** `true`, from either copy of `lex`, parses as undefined with the
      cursor unmoved, and so evaluates to undefined. */
  lemma TrueIsAbsent(edition: Edition, s: string)
    requires s == "true"
    ensures Parse(LexTokens(edition, s)) == Parsed(Absent, 0)
    ensures Eval(Parse(LexTokens(edition, s)).expr) == Ok(Undefined)
  {
    assert ScanFrom(s, 4, 0) == [];
    WordRule(s, 0, 3, 0);
    assert s[0..4] == "true" && IsReserved("true");
    TokenAt(s, 0);
    KeywordIsAbsent(LexTokens(edition, s));
  }
}
