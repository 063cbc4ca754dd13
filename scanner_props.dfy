/** What the scanning rules guarantee. Every lemma here is about the one scan
    loop, so it holds for both copies of `lex` (src/lexer.js and
    interpreter.js); the last two lemmas say how each copy fills its tokens. */
module ScannerProps {
  import opened Values
  import opened Tokens
  import opened ScannerSpec

  // ---------------------------------------------------------------------
  // The sub-scanners stop at the end of a maximal run
  // ---------------------------------------------------------------------

  lemma {:induction false} DigitsEndIsMaximal(s: string, c: nat)
    requires c < |s|
    ensures forall k :: c < k <= DigitsEnd(s, c) ==> IsDigit(s[k])
    ensures DigitsEnd(s, c) + 1 == |s| || !IsDigit(s[DigitsEnd(s, c) + 1])
    decreases |s| - c
  {
    if c + 1 < |s| && IsDigit(s[c + 1]) {
      DigitsEndIsMaximal(s, c + 1);
    }
  }

  lemma {:induction false} WordEndIsMaximal(s: string, c: nat)
    requires c < |s|
    ensures forall k :: c < k <= WordEnd(s, c) ==> IsAlphaNumeric(s[k])
    ensures WordEnd(s, c) + 1 == |s| || !IsAlphaNumeric(s[WordEnd(s, c) + 1])
    decreases |s| - c
  {
    if c + 1 < |s| && IsAlphaNumeric(s[c + 1]) {
      WordEndIsMaximal(s, c + 1);
    }
  }

  /** The comment loop stops before the next newline, or on the last
      character. */
  lemma {:induction false} CommentEndStopsBeforeNewline(s: string, c: nat)
    requires c < |s|
    ensures forall k :: c < k <= CommentEnd(s, c) ==> s[k] != '\n'
    ensures CommentEnd(s, c) + 1 == |s| || s[CommentEnd(s, c) + 1] == '\n'
    decreases |s| - c
  {
    if c + 1 < |s| && s[c + 1] != '\n' {
      CommentEndStopsBeforeNewline(s, c + 1);
    }
  }

  /** The string loop closes on the FIRST quote after the opening one, and
      runs to the end of the source when there is none. */
  lemma {:induction false} StringScanFindsFirstQuote(s: string, c: nat)
    requires c < |s|
    ensures match StringScan(s, c)
      case Closed(q) => forall k :: c < k < q ==> s[k] != '"'
      case Unclosed(_) => forall k :: c < k < |s| ==> s[k] != '"'
    decreases |s| - c
  {
    if PeekAt(s, c) == Some('"') {
    } else if c + 1 < |s| {
      StringScanFindsFirstQuote(s, c + 1);
    } else {
      assert StringScan(s, c) == StringScan(s, |s|);
    }
  }

  // ---------------------------------------------------------------------
  // Every token's lexeme is a well-formed lexeme of its type
  // ---------------------------------------------------------------------

  /** A reference description of the lexemes, independent of the cursor
      machine: which text may carry which token type. */
  predicate IsPunctuation(kind: string, text: string) {
    || (|text| == 1 && Classify(text[0]) == Single(kind))
    || (|text| == 1 && Classify(text[0]).Operator? && kind == Classify(text[0]).alone)
    || (|text| == 2 && Classify(text[0]).Operator? && text[1] == '=' && kind == Classify(text[0]).withEqual)
    || (text == "/" && kind == "SLASH")
  }

  /** Both quotes and no quote between them. */
  predicate IsStringLexeme(text: string) {
    && 2 <= |text| && text[0] == '"' && text[|text| - 1] == '"'
    && forall k :: 0 < k < |text| - 1 ==> text[k] != '"'
  }

  /** A run of digits only: no sign, no point. */
  predicate IsNumberLexeme(text: string) {
    1 <= |text| && forall k :: 0 <= k < |text| ==> IsDigit(text[k])
  }

  /** A letter or underscore, then letters, digits and underscores. */
  predicate IsWord(text: string) {
    1 <= |text| && IsAlpha(text[0]) && forall k :: 0 <= k < |text| ==> IsAlphaNumeric(text[k])
  }

  predicate IsLexeme(kind: string, text: string) {
    || IsPunctuation(kind, text)
    || (kind == "STRING" && IsStringLexeme(text))
    || (kind == "NUMBER" && IsNumberLexeme(text))
    || (IsWord(text) && kind == WordKind(text))
  }

  lemma StringLexemeAt(s: string, c: nat)
    requires c < |s| && s[c] == '"' && StringScan(s, c).Closed?
    ensures IsStringLexeme(s[c..StringScan(s, c).quote + 1])
  {
    StringScanFindsFirstQuote(s, c);
    var text := s[c..StringScan(s, c).quote + 1];
    assert forall k :: 0 < k < |text| - 1 ==> text[k] == s[c + k];
  }

  lemma NumberLexemeAt(s: string, c: nat)
    requires c < |s| && IsDigit(s[c])
    ensures IsNumberLexeme(s[c..DigitsEnd(s, c) + 1])
  {
    DigitsEndIsMaximal(s, c);
    var text := s[c..DigitsEnd(s, c) + 1];
    assert forall k :: 0 <= k < |text| ==> text[k] == s[c + k];
  }

  lemma WordLexemeAt(s: string, c: nat)
    requires c < |s| && IsAlpha(s[c])
    ensures IsWord(s[c..WordEnd(s, c) + 1])
  {
    WordEndIsMaximal(s, c);
    var text := s[c..WordEnd(s, c) + 1];
    assert forall k :: 0 <= k < |text| ==> text[k] == s[c + k];
  }

  /** No character class names STRING or NUMBER. */
  lemma ClassKindsAreNotLiterals(ch: char)
    ensures Classify(ch).Single? ==> Classify(ch).kind != "STRING" && Classify(ch).kind != "NUMBER"
    ensures Classify(ch).Operator? ==>
      && Classify(ch).alone != "STRING" && Classify(ch).alone != "NUMBER"
      && Classify(ch).withEqual != "STRING" && Classify(ch).withEqual != "NUMBER"
  {
  }

  /** The token one step pushes, if any, is a lexeme of its type. */
  predicate StepIsLexeme(s: string, c: nat, line: nat)
    requires c < |s|
  {
    var st := ScanToken(s, c, line);
    st.kind.Some? ==> IsLexeme(st.kind.value, s[c..st.last + 1])
  }

  lemma SingleStepIsLexeme(s: string, c: nat, line: nat)
    requires c < |s| && Classify(s[c]).Single?
    ensures StepIsLexeme(s, c, line)
  {
    ClassKindsAreNotLiterals(s[c]);
    assert s[c..c + 1] == [s[c]];
    assert IsPunctuation(Classify(s[c]).kind, s[c..c + 1]);
  }

  lemma OperatorStepIsLexeme(s: string, c: nat, line: nat)
    requires c < |s| && Classify(s[c]).Operator?
    ensures StepIsLexeme(s, c, line)
  {
    ClassKindsAreNotLiterals(s[c]);
    if MatchAt(s, c, '=') {
      assert s[c..c + 2] == [s[c], '='];
      assert IsPunctuation(Classify(s[c]).withEqual, s[c..c + 2]);
    } else {
      assert s[c..c + 1] == [s[c]];
      assert IsPunctuation(Classify(s[c]).alone, s[c..c + 1]);
    }
  }

  lemma SlashStepIsLexeme(s: string, c: nat, line: nat)
    requires c < |s| && Classify(s[c]).SlashChar?
    ensures StepIsLexeme(s, c, line)
  {
    assert s[c..c + 1] == "/";
  }

  lemma QuoteStepIsLexeme(s: string, c: nat, line: nat)
    requires c < |s| && Classify(s[c]).Quote?
    ensures StepIsLexeme(s, c, line)
  {
    if StringScan(s, c).Closed? {
      StringLexemeAt(s, c);
    }
  }

  lemma DigitStepIsLexeme(s: string, c: nat, line: nat)
    requires c < |s| && Classify(s[c]).Digit?
    ensures StepIsLexeme(s, c, line)
  {
    NumberLexemeAt(s, c);
  }

  lemma LetterStepIsLexeme(s: string, c: nat, line: nat)
    requires c < |s| && Classify(s[c]).Letter?
    ensures StepIsLexeme(s, c, line)
  {
    WordLexemeAt(s, c);
  }

  lemma StepYieldsLexeme(s: string, c: nat, line: nat)
    requires c < |s|
    ensures StepIsLexeme(s, c, line)
  {
    match Classify(s[c])
    case Single(_) => SingleStepIsLexeme(s, c, line);
    case Operator(_, _) => OperatorStepIsLexeme(s, c, line);
    case SlashChar => SlashStepIsLexeme(s, c, line);
    case Quote => QuoteStepIsLexeme(s, c, line);
    case Digit => DigitStepIsLexeme(s, c, line);
    case Letter => LetterStepIsLexeme(s, c, line);
    case _ =>
  }

  /** The scan's slice lies in the source and is a lexeme of its type. */
  predicate ScanIsLexeme(s: string, sc: Scan) {
    sc.start <= sc.last < |s| && IsLexeme(sc.kind, s[sc.start..sc.last + 1])
  }

  predicate AllLexemes(s: string, r: seq<Scan>) {
    forall i :: 0 <= i < |r| ==> ScanIsLexeme(s, r[i])
  }

  lemma LexemesCons(s: string, sc: Scan, rest: seq<Scan>)
    requires ScanIsLexeme(s, sc) && AllLexemes(s, rest)
    ensures AllLexemes(s, [sc] + rest)
  {
    var r := [sc] + rest;
    forall i | 0 < i < |r|
      ensures ScanIsLexeme(s, r[i])
    {
      assert r[i] == rest[i - 1];
    }
  }

  /** One turn of the main loop keeps every scan a lexeme. */
  lemma LexemesStep(s: string, c: nat, line: nat)
    requires c < |s|
    requires var st := ScanToken(s, c, line);
      AllLexemes(s, ScanFrom(s, st.last + 1, st.line))
    ensures AllLexemes(s, ScanFrom(s, c, line))
  {
    var st := ScanToken(s, c, line);
    StepYieldsLexeme(s, c, line);
    ScanFromStep(s, c, line);
    if st.kind.Some? {
      LexemesCons(s, Scan(st.kind.value, c, st.last, st.line), ScanFrom(s, st.last + 1, st.line));
    }
  }

  /** Each pushed token's slice is a lexeme of the type it was given. */
  lemma {:induction false} ScansAreLexemes(s: string, c: nat, line: nat)
    requires c <= |s| + 1
    ensures AllLexemes(s, ScanFrom(s, c, line))
    decreases |s| + 1 - c
  {
    if c < |s| {
      var st := ScanToken(s, c, line);
      ScansAreLexemes(s, st.last + 1, st.line);
      LexemesStep(s, c, line);
    }
  }

  /** The promise that tokens are disjoint slices of the source, in
      order, with non-decreasing lines no smaller than the starting one. */
  predicate InOrder(s: string, c: nat, line: nat, r: seq<Scan>) {
    && (forall i :: 0 <= i < |r| ==> c <= r[i].start <= r[i].last < |s| && line <= r[i].line)
    && (forall i, j :: 0 <= i < j < |r| ==> r[i].last < r[j].start && r[i].line <= r[j].line)
  }

  lemma InOrderCons(s: string, c: nat, line: nat, sc: Scan, rest: seq<Scan>)
    requires c <= sc.start <= sc.last < |s| && line <= sc.line
    requires InOrder(s, sc.last + 1, sc.line, rest)
    ensures InOrder(s, c, line, [sc] + rest)
  {
    var r := [sc] + rest;
    forall i | 0 < i < |r|
      ensures c <= r[i].start <= r[i].last < |s| && line <= r[i].line
    {
      assert r[i] == rest[i - 1];
    }
    forall i, j | 0 <= i < j < |r|
      ensures r[i].last < r[j].start && r[i].line <= r[j].line
    {
      assert r[j] == rest[j - 1];
      if i > 0 { assert r[i] == rest[i - 1]; }
    }
  }

  lemma InOrderFrom(s: string, c: nat, line: nat, m: nat, l2: nat, r: seq<Scan>)
    requires c <= m && line <= l2 && InOrder(s, m, l2, r)
    ensures InOrder(s, c, line, r)
  {
  }

  /** One turn of the main loop keeps the scans in order. */
  lemma InOrderStep(s: string, c: nat, line: nat)
    requires c < |s|
    requires var st := ScanToken(s, c, line);
      InOrder(s, st.last + 1, st.line, ScanFrom(s, st.last + 1, st.line))
    ensures InOrder(s, c, line, ScanFrom(s, c, line))
  {
    var st := ScanToken(s, c, line);
    ScanFromStep(s, c, line);
    if st.kind.Some? {
      InOrderCons(s, c, line, Scan(st.kind.value, c, st.last, st.line), ScanFrom(s, st.last + 1, st.line));
    } else {
      InOrderFrom(s, c, line, st.last + 1, st.line, ScanFrom(s, st.last + 1, st.line));
    }
  }

  lemma {:induction false} ScansAreInOrder(s: string, c: nat, line: nat)
    requires c <= |s| + 1
    ensures InOrder(s, c, line, ScanFrom(s, c, line))
    decreases |s| + 1 - c
  {
    if c < |s| {
      var st := ScanToken(s, c, line);
      ScansAreInOrder(s, st.last + 1, st.line);
      InOrderStep(s, c, line);
    }
  }

  /** A token type the scanner emits is a name: letters, digits and
      underscores only. So it is never one of the operator spellings
      (`"!="`, `"=="`, `">"`, ...) that `equality` and `comparison` look
      for. */
  predicate IsTypeName(kind: string) {
    1 <= |kind| && forall i :: 0 <= i < |kind| ==> IsAlphaNumeric(kind[i])
  }

  lemma ClassNamesAreTypeNames(ch: char)
    ensures Classify(ch).Single? ==> IsTypeName(Classify(ch).kind)
    ensures Classify(ch).Operator? ==> IsTypeName(Classify(ch).alone) && IsTypeName(Classify(ch).withEqual)
  {
    match Classify(ch)
    case Single(k) => SingleNamesAreTypeNames(ch);
    case Operator(a, w) => OperatorNamesAreTypeNames(ch);
    case _ =>
  }

  lemma SingleNamesAreTypeNames(ch: char)
    requires Classify(ch).Single?
    ensures IsTypeName(Classify(ch).kind)
  {
  }

  lemma OperatorNamesAreTypeNames(ch: char)
    requires Classify(ch).Operator?
    ensures IsTypeName(Classify(ch).alone) && IsTypeName(Classify(ch).withEqual)
  {
  }

  lemma LexemeKindIsTypeName(kind: string, text: string)
    requires IsLexeme(kind, text)
    ensures IsTypeName(kind)
  {
    if IsPunctuation(kind, text) {
      ClassNamesAreTypeNames(text[0]);
      assert kind == "SLASH" || Classify(text[0]).Single? || Classify(text[0]).Operator?;
    } else if IsWord(text) && kind == WordKind(text) {
      assert kind == text || kind == "IDENTIFIER";
    }
  }

  lemma LexemeKindsAreTypeNames(s: string, r: seq<Scan>)
    requires AllLexemes(s, r)
    ensures forall i :: 0 <= i < |r| ==> IsTypeName(r[i].kind)
  {
    forall i | 0 <= i < |r| ensures IsTypeName(r[i].kind) {
      LexemeKindIsTypeName(r[i].kind, s[r[i].start..r[i].last + 1]);
    }
  }

  /** Every pushed token's type is a name. */
  lemma ScannedKindsAreTypeNames(s: string)
    ensures forall i :: 0 <= i < |Scans(s)| ==> IsTypeName(Scans(s)[i].kind)
  {
    ScansAreLexemes(s, 0, 0);
    LexemeKindsAreTypeNames(s, Scans(s));
  }

  /** The upper-case keyword types `primary` looks for. */
  const KeywordTypes: seq<string> := ["FALSE", "TRUE", "NIL"]

  lemma ClassNamesAreNoKeywordTypes(ch: char)
    ensures Classify(ch).Single? ==> Classify(ch).kind !in KeywordTypes
    ensures Classify(ch).Operator? ==> Classify(ch).alone !in KeywordTypes && Classify(ch).withEqual !in KeywordTypes
  {
  }

  /** A keyword's type is its own lower-case text, and no punctuation is
      named like a keyword: no lexeme has an upper-case keyword type. */
  lemma LexemeKindIsNoKeywordType(kind: string, text: string)
    requires IsLexeme(kind, text)
    ensures kind !in KeywordTypes
  {
    if IsPunctuation(kind, text) {
      ClassNamesAreNoKeywordTypes(text[0]);
    } else if IsWord(text) && kind == WordKind(text) {
      IsReservedMeansListed(text);
    }
  }

  /** No pushed token has the type `FALSE`, `TRUE` or `NIL`. */
  lemma ScannedKindsAreNoKeywordTypes(s: string)
    ensures forall i :: 0 <= i < |Scans(s)| ==> Scans(s)[i].kind !in KeywordTypes
  {
    ScansAreLexemes(s, 0, 0);
    var r := Scans(s);
    forall i | 0 <= i < |r| ensures r[i].kind !in KeywordTypes {
      LexemeKindIsNoKeywordType(r[i].kind, s[r[i].start..r[i].last + 1]);
    }
  }

  // ---------------------------------------------------------------------
  // One rule per kind of input, stated on the main loop
  // ---------------------------------------------------------------------

  /** `(`, `)`, `{`, `}`, `,`, `.`, `-`, `+`, `;`, `*` are one token each. */
  lemma SingleCharRule(s: string, c: nat, line: nat)
    requires c < |s| && Classify(s[c]).Single?
    ensures ScanFrom(s, c, line)
         == [Scan(Classify(s[c]).kind, c, c, line)] + ScanFrom(s, c + 1, line)
  {
    ScanFromStep(s, c, line);
  }

  /** `!=`, `==`, `<=`, `>=` are one token; a lone `!`, `=`, `<`, `>`,
      including one on the last character, is the one-character type. */
  lemma OperatorRule(s: string, c: nat, line: nat)
    requires c < |s| && Classify(s[c]).Operator?
    ensures c + 1 < |s| && s[c + 1] == '=' ==>
      ScanFrom(s, c, line) == [Scan(Classify(s[c]).withEqual, c, c + 1, line)] + ScanFrom(s, c + 2, line)
    ensures !(c + 1 < |s| && s[c + 1] == '=') ==>
      ScanFrom(s, c, line) == [Scan(Classify(s[c]).alone, c, c, line)] + ScanFrom(s, c + 1, line)
  {
    ScanFromStep(s, c, line);
  }

  /** A `/` not followed by `/` is SLASH. */
  lemma SlashRule(s: string, c: nat, line: nat)
    requires c < |s| && s[c] == '/' && !(c + 1 < |s| && s[c + 1] == '/')
    ensures ScanFrom(s, c, line) == [Scan("SLASH", c, c, line)] + ScanFrom(s, c + 1, line)
  {
    ScanFromStep(s, c, line);
  }

  /** The converse of the maximality lemmas: the loops stop exactly at the
      end of the run. */
  lemma {:induction false} DigitsEndOfRun(s: string, c: nat, e: nat)
    requires c <= e < |s|
    requires forall k :: c < k <= e ==> IsDigit(s[k])
    requires e + 1 == |s| || !IsDigit(s[e + 1])
    ensures DigitsEnd(s, c) == e
    decreases e - c
  {
    if c < e {
      DigitsEndOfRun(s, c + 1, e);
    }
  }

  lemma {:induction false} WordEndOfRun(s: string, c: nat, e: nat)
    requires c <= e < |s|
    requires forall k :: c < k <= e ==> IsAlphaNumeric(s[k])
    requires e + 1 == |s| || !IsAlphaNumeric(s[e + 1])
    ensures WordEnd(s, c) == e
    decreases e - c
  {
    if c < e {
      WordEndOfRun(s, c + 1, e);
    }
  }

  lemma {:induction false} CommentEndOfRun(s: string, c: nat, e: nat)
    requires c <= e < |s|
    requires forall k :: c < k <= e ==> s[k] != '\n'
    requires e + 1 == |s| || s[e + 1] == '\n'
    ensures CommentEnd(s, c) == e
    decreases e - c
  {
    if c < e {
      CommentEndOfRun(s, c + 1, e);
    }
  }

  lemma {:induction false} StringScanOfClosed(s: string, c: nat, q: nat)
    requires c < q < |s| && s[q] == '"'
    requires forall k :: c < k < q ==> s[k] != '"'
    ensures StringScan(s, c) == Closed(q)
    decreases q - c
  {
    if c + 1 < q {
      StringScanOfClosed(s, c + 1, q);
    }
  }

  lemma {:induction false} StringScanOfUnclosed(s: string, c: nat)
    requires c <= |s|
    requires forall k :: c < k < |s| ==> s[k] != '"'
    ensures StringScan(s, c) == Unclosed(|s|)
    decreases |s| - c
  {
    if c < |s| {
      StringScanOfUnclosed(s, c + 1);
    }
  }

  /** A `//` comment emits nothing and scanning resumes at the next newline
      (which the main loop then counts) or at the end of the source. */
  lemma CommentRule(s: string, c: nat, e: nat, line: nat)
    requires c + 1 <= e < |s| && s[c] == '/' && s[c + 1] == '/'
    requires forall k :: c + 1 < k <= e ==> s[k] != '\n'
    requires e + 1 == |s| || s[e + 1] == '\n'
    ensures ScanFrom(s, c, line) == ScanFrom(s, e + 1, line)
  {
    CommentEndOfRun(s, c + 1, e);
    assert ScanToken(s, c, line) == Step(None, e, line);
  }

  /** A digit starts a NUMBER that is exactly the maximal run of digits: a
      `.` is never consumed, whatever follows it. */
  lemma NumberRule(s: string, c: nat, e: nat, line: nat)
    requires c <= e < |s|
    requires forall k :: c <= k <= e ==> IsDigit(s[k])
    requires e + 1 == |s| || !IsDigit(s[e + 1])
    ensures ScanFrom(s, c, line) == [Scan("NUMBER", c, e, line)] + ScanFrom(s, e + 1, line)
  {
    DigitsEndOfRun(s, c, e);
    assert ScanToken(s, c, line) == Step(Some("NUMBER"), e, line);
  }

  lemma WordStep(s: string, c: nat, e: nat, line: nat)
    requires c <= e < |s| && IsAlpha(s[c]) && WordEnd(s, c) == e
    ensures ScanToken(s, c, line) == Step(Some(WordKind(s[c..e + 1])), e, line)
  {
    assert Classify(s[c]) == Letter;
  }

  /** A letter or underscore starts a maximal run of letters, digits and
      underscores; a reserved word gets its own text as type. */
  lemma WordRule(s: string, c: nat, e: nat, line: nat)
    requires c <= e < |s| && IsAlpha(s[c])
    requires forall k :: c < k <= e ==> IsAlphaNumeric(s[k])
    requires e + 1 == |s| || !IsAlphaNumeric(s[e + 1])
    ensures ScanFrom(s, c, line)
         == [Scan(WordKind(s[c..e + 1]), c, e, line)]
            + ScanFrom(s, e + 1, line)
  {
    WordEndOfRun(s, c, e);
    WordStep(s, c, e, line);
    ScanFromStep(s, c, line);
  }

  /** A terminated string is one STRING token spanning both quotes. */
  lemma TerminatedStringRule(s: string, c: nat, q: nat, line: nat)
    requires c < q < |s| && s[c] == '"' && s[q] == '"'
    requires forall k :: c < k < q ==> s[k] != '"'
    ensures ScanFrom(s, c, line) == [Scan("STRING", c, q, line)] + ScanFrom(s, q + 1, line)
  {
    StringScanOfClosed(s, c, q);
    assert ScanToken(s, c, line) == Step(Some("STRING"), q, line);
  }

  /** An unterminated string emits nothing and ends the scan: no token
      follows it, and the loop still terminates. */
  lemma UnterminatedStringRule(s: string, c: nat, line: nat)
    requires c < |s| && s[c] == '"'
    requires forall k :: c < k < |s| ==> s[k] != '"'
    ensures ScanFrom(s, c, line) == []
  {
    StringScanOfUnclosed(s, c);
    assert ScanToken(s, c, line) == Step(None, |s|, line);
  }

  /** Whitespace and unrecognised characters emit nothing; a newline emits
      nothing and raises the line counter. */
  lemma SkipRule(s: string, c: nat, line: nat)
    requires c < |s|
    requires Classify(s[c]).Blank? || Classify(s[c]).NewlineChar? || Classify(s[c]).Unrecognised?
    ensures ScanFrom(s, c, line) == ScanFrom(s, c + 1, if s[c] == '\n' then line + 1 else line)
  {
    ScanFromStep(s, c, line);
  }

  // ---------------------------------------------------------------------
  // Line numbers
  // ---------------------------------------------------------------------

  function Newlines(t: string): nat {
    multiset(t)['\n']
  }

  lemma NoNewlines(s: string, i: nat, j: nat)
    requires i <= j <= |s|
    requires forall k :: i <= k < j ==> s[k] != '\n'
    ensures Newlines(s[i..j]) == 0
  {
    assert '\n' !in s[i..j];
  }

  /** Outside string literals, no step consumes a newline after its first
      character. */
  lemma StepStaysOnLine(s: string, c: nat, line: nat)
    requires c < |s| && s[c] != '"'
    ensures ScanToken(s, c, line).last < |s|
    ensures forall k :: c < k <= ScanToken(s, c, line).last ==> s[k] != '\n'
  {
    match Classify(s[c])
    case SlashChar =>
      if MatchAt(s, c, '/') {
        CommentEndStopsBeforeNewline(s, c + 1);
      }
    case Digit =>
      DigitsEndIsMaximal(s, c);
    case Letter =>
      WordEndIsMaximal(s, c);
    case _ =>
  }

  /** Outside string literals, one step raises the line counter by the
      number of newlines it consumed. */
  lemma StepCountsNewlines(s: string, c: nat, line: nat)
    requires c < |s| && s[c] != '"'
    ensures ScanToken(s, c, line).last < |s|
    ensures ScanToken(s, c, line).line == line + Newlines(s[c..ScanToken(s, c, line).last + 1])
  {
    var st := ScanToken(s, c, line);
    StepStaysOnLine(s, c, line);
    NoNewlines(s, c + 1, st.last + 1);
    NewlinesSplit(s, c, c + 1, st.last + 1);
    assert s[c..c + 1] == [s[c]];
  }

  /** Each scan's line is `line` plus the newlines from `c` to its start. */
  predicate LinesFollowNewlines(s: string, c: nat, line: nat, r: seq<Scan>) {
    forall i :: 0 <= i < |r| ==>
      c <= r[i].start <= |s| && r[i].line == line + Newlines(s[c..r[i].start])
  }

  /** One turn of the main loop keeps the line numbers counted. */
  lemma LinesStep(s: string, c: nat, line: nat)
    requires c < |s| && s[c] != '"'
    requires var st := ScanToken(s, c, line);
      LinesFollowNewlines(s, st.last + 1, st.line, ScanFrom(s, st.last + 1, st.line))
    ensures LinesFollowNewlines(s, c, line, ScanFrom(s, c, line))
  {
    var st := ScanToken(s, c, line);
    var rest := ScanFrom(s, st.last + 1, st.line);
    StepCountsNewlines(s, c, line);
    ScanFromStep(s, c, line);
    LinesShift(s, c, line, st.last + 1, st.line, rest);
    if st.kind.Some? {
      LinesCons(s, c, line, Scan(st.kind.value, c, st.last, st.line), rest);
    }
  }

  /** The newlines of a slice are those of its two halves. */
  lemma NewlinesSplit(s: string, c: nat, m: nat, e: nat)
    requires c <= m <= e <= |s|
    ensures Newlines(s[c..e]) == Newlines(s[c..m]) + Newlines(s[m..e])
  {
    assert s[c..e] == s[c..m] + s[m..e];
    assert multiset(s[c..m] + s[m..e]) == multiset(s[c..m]) + multiset(s[m..e]);
  }

  /** Lines counted from `m` are lines counted from an earlier `c` once
      the newlines between them are added. */
  lemma LinesShift(s: string, c: nat, line: nat, m: nat, l2: nat, r: seq<Scan>)
    requires c <= m <= |s| && l2 == line + Newlines(s[c..m])
    requires LinesFollowNewlines(s, m, l2, r)
    ensures LinesFollowNewlines(s, c, line, r)
  {
    forall i | 0 <= i < |r|
      ensures c <= r[i].start <= |s| && r[i].line == line + Newlines(s[c..r[i].start])
    {
      NewlinesSplit(s, c, m, r[i].start);
    }
  }

  lemma LinesCons(s: string, c: nat, line: nat, sc: Scan, rest: seq<Scan>)
    requires sc.start == c <= |s| && sc.line == line
    requires LinesFollowNewlines(s, c, line, rest)
    ensures LinesFollowNewlines(s, c, line, [sc] + rest)
  {
    var r := [sc] + rest;
    assert s[c..c] == [];
    forall i | 0 < i < |r|
      ensures c <= r[i].start <= |s| && r[i].line == line + Newlines(s[c..r[i].start])
    {
      assert r[i] == rest[i - 1];
    }
  }

  /** In a source without string literals, each token's line is the
      starting line plus the newlines before the token. (Newlines inside a
      string literal are skipped by the string loop and never counted.) */
  lemma {:induction false} LinesCountNewlines(s: string, c: nat, line: nat)
    requires c <= |s| + 1
    requires forall k :: c <= k < |s| ==> s[k] != '"'
    ensures LinesFollowNewlines(s, c, line, ScanFrom(s, c, line))
    decreases |s| + 1 - c
  {
    if c < |s| {
      var st := ScanToken(s, c, line);
      LinesCountNewlines(s, st.last + 1, st.line);
      LinesStep(s, c, line);
    }
  }

  lemma ExampleTail(s: string)
    requires s == "\"a\nb\" x"
    ensures ScanFrom(s, 5, 0) == [Scan("IDENTIFIER", 6, 6, 0)]
  {
    SkipRule(s, 5, 0);
    WordRule(s, 6, 6, 0);
    assert s[6..7] == "x";
  }

  /** A newline inside a string literal does not count: the identifier
      after it is still on line 0. */
  lemma NewlineInStringIsNotCounted()
    ensures Scans("\"a\nb\" x") == [Scan("STRING", 0, 4, 0), Scan("IDENTIFIER", 6, 6, 0)]
  {
    var s := "\"a\nb\" x";
    TerminatedStringRule(s, 0, 4, 0);
    ExampleTail(s);
    assert Scans(s) == [Scan("STRING", 0, 4, 0)] + ScanFrom(s, 5, 0);
  }

  lemma FractionDigits(s: string)
    requires s == "1.5"
    ensures ScanFrom(s, 1, 0) == [Scan("DOT", 1, 1, 0), Scan("NUMBER", 2, 2, 0)]
  {
    assert ScanFrom(s, 3, 0) == [];
    NumberRule(s, 2, 2, 0);
    SingleCharRule(s, 1, 0);
  }

  /** `1.5` scans as NUMBER, DOT, NUMBER. */
  lemma FractionIsNotConsumed()
    ensures Scans("1.5") == [Scan("NUMBER", 0, 0, 0), Scan("DOT", 1, 1, 0), Scan("NUMBER", 2, 2, 0)]
  {
    var s := "1.5";
    NumberRule(s, 0, 0, 0);
    FractionDigits(s);
  }

  // ---------------------------------------------------------------------
  // The two token records
  // ---------------------------------------------------------------------

  /** How src/lexer.js fills the record of one scan. */
  predicate LexerFields(s: string, sc: Scan, t: Token)
    requires sc.start <= sc.last < |s|
  {
    var text := s[sc.start..sc.last + 1];
    && t.kind == sc.kind && t.line == sc.line
    && t.lexeme == Str(text)
    && (sc.kind == "STRING" ==> 2 <= |text| && text[0] == '"' && text[|text| - 1] == '"'
                                && t.literal == Str(text[1..|text| - 1]))
    && (sc.kind == "NUMBER" ==> (forall k :: 0 <= k < |text| ==> IsDigit(text[k]))
                                && t.literal == Num(DecimalValue(text) as real))
    && (sc.kind != "STRING" && sc.kind != "NUMBER" ==> t.literal == Str(text))
  }

  /** How interpreter.js fills the record of one scan. */
  predicate InterpreterFields(s: string, sc: Scan, t: Token)
    requires sc.start <= sc.last < |s|
  {
    var text := s[sc.start..sc.last + 1];
    && t.kind == sc.kind && t.line == sc.line
    && t.literal == Null
    && (sc.kind == "STRING" ==> 2 <= |text| && t.lexeme == Str(text[1..|text| - 1]))
    && (sc.kind == "NUMBER" ==> t.lexeme == Num(DecimalValue(text) as real))
    && (sc.kind != "STRING" && sc.kind != "NUMBER" ==> t.lexeme == Str(text))
  }

  /** The text between the quotes of a string lexeme. */
  lemma InnerSlice(s: string, start: nat, last: nat)
    requires start < last < |s|
    ensures Slice(s, start + 1, last) == s[start..last + 1][1..last - start]
  {
    var text := s[start..last + 1];
    forall k | start + 1 <= k < last
      ensures text[k - start] == s[k]
    {
    }
    assert text[1..last - start] == s[start + 1..last];
  }

  /** What the two records rely on: a STRING slice has both quotes and a
      NUMBER slice only digits. */
  predicate LiteralShape(s: string, sc: Scan)
    requires sc.start <= sc.last < |s|
  {
    && (sc.kind == "STRING" ==> IsStringLexeme(s[sc.start..sc.last + 1]))
    && (sc.kind == "NUMBER" ==> IsNumberLexeme(s[sc.start..sc.last + 1]))
  }

  /** No word is given type STRING or NUMBER: those are not reserved. */
  lemma WordKindIsNotLiteral(word: string)
    ensures WordKind(word) != "STRING" && WordKind(word) != "NUMBER"
  {
  }

  lemma StepLiteralShape(s: string, c: nat, line: nat)
    requires c < |s|
    ensures var st := ScanToken(s, c, line);
      st.kind.Some? ==> LiteralShape(s, Scan(st.kind.value, c, st.last, st.line))
  {
    match Classify(s[c])
    case Single(_) => ClassKindsAreNotLiterals(s[c]);
    case Operator(_, _) => ClassKindsAreNotLiterals(s[c]);
    case Quote =>
      if StringScan(s, c).Closed? {
        StringLexemeAt(s, c);
      }
    case Digit => NumberLexemeAt(s, c);
    case Letter => WordKindIsNotLiteral(s[c..WordEnd(s, c) + 1]);
    case _ =>
  }

  predicate AllLiteralShaped(s: string, r: seq<Scan>) {
    forall i :: 0 <= i < |r| ==> r[i].start <= r[i].last < |s| && LiteralShape(s, r[i])
  }

  lemma ShapedCons(s: string, sc: Scan, rest: seq<Scan>)
    requires sc.start <= sc.last < |s| && LiteralShape(s, sc) && AllLiteralShaped(s, rest)
    ensures AllLiteralShaped(s, [sc] + rest)
  {
    var r := [sc] + rest;
    forall i | 0 < i < |r|
      ensures r[i].start <= r[i].last < |s| && LiteralShape(s, r[i])
    {
      assert r[i] == rest[i - 1];
    }
  }

  /** One turn of the main loop keeps every scan shaped. */
  lemma ShapedStep(s: string, c: nat, line: nat)
    requires c < |s|
    requires var st := ScanToken(s, c, line);
      AllLiteralShaped(s, ScanFrom(s, st.last + 1, st.line))
    ensures AllLiteralShaped(s, ScanFrom(s, c, line))
  {
    var st := ScanToken(s, c, line);
    StepLiteralShape(s, c, line);
    ScanFromStep(s, c, line);
    if st.kind.Some? {
      ShapedCons(s, Scan(st.kind.value, c, st.last, st.line), ScanFrom(s, st.last + 1, st.line));
    }
  }

  /** Every STRING scan spans its quotes and every NUMBER scan is digits. */
  lemma {:induction false} ScansAreShaped(s: string, c: nat, line: nat)
    requires c <= |s| + 1
    ensures AllLiteralShaped(s, ScanFrom(s, c, line))
    decreases |s| + 1 - c
  {
    if c < |s| {
      var st := ScanToken(s, c, line);
      ScansAreShaped(s, st.last + 1, st.line);
      ShapedStep(s, c, line);
    }
  }

  /** src/lexer.js fills the record of a lexeme as `LexerFields` says. */
  lemma LexerTokenOfLexeme(s: string, sc: Scan)
    requires sc.start <= sc.last < |s| && LiteralShape(s, sc)
    ensures LexerFields(s, sc, LexerToken(s, sc))
  {
    var text := s[sc.start..sc.last + 1];
    assert Slice(s, sc.start, sc.last + 1) == text;
    if sc.kind == "STRING" {
      InnerSlice(s, sc.start, sc.last);
    }
  }

  /** interpreter.js fills the record of a lexeme as `InterpreterFields`
      says. */
  lemma InterpreterTokenOfLexeme(s: string, sc: Scan)
    requires sc.start <= sc.last < |s| && LiteralShape(s, sc)
    ensures InterpreterFields(s, sc, InterpreterToken(s, sc))
  {
    var text := s[sc.start..sc.last + 1];
    assert Slice(s, sc.start, sc.last + 1) == text;
    if sc.kind == "STRING" {
      InnerSlice(s, sc.start, sc.last);
    }
  }

  /** One token of either copy, by index. */
  lemma TokenAt(s: string, i: nat)
    requires i < |Scans(s)|
    ensures Scans(s)[i].start <= Scans(s)[i].last < |s|
    ensures LexerFields(s, Scans(s)[i], LexTokens(LexerJs, s)[i])
    ensures InterpreterFields(s, Scans(s)[i], LexTokens(InterpreterJs, s)[i])
  {
    ScansAreShaped(s, 0, 0);
    LexerTokenOfLexeme(s, Scans(s)[i]);
    InterpreterTokenOfLexeme(s, Scans(s)[i]);
    BuildTokensAt(LexerJs, s, Scans(s), i);
    BuildTokensAt(InterpreterJs, s, Scans(s), i);
  }

  /** src/lexer.js: the lexeme is the exact slice; the literal of a STRING
      is the text between the quotes, of a NUMBER the value of its digits,
      and of every other token the slice itself. */
  lemma LexerTokenFields(s: string)
    ensures |LexTokens(LexerJs, s)| == |Scans(s)|
    ensures forall i :: 0 <= i < |Scans(s)| ==>
      Scans(s)[i].start <= Scans(s)[i].last < |s| && LexerFields(s, Scans(s)[i], LexTokens(LexerJs, s)[i])
  {
    forall i | 0 <= i < |Scans(s)|
      ensures Scans(s)[i].start <= Scans(s)[i].last < |s| && LexerFields(s, Scans(s)[i], LexTokens(LexerJs, s)[i])
    {
      TokenAt(s, i);
    }
  }

  /** interpreter.js: the `lexeme` field holds the inner text of a STRING,
      the number of a NUMBER and the exact slice otherwise; `literal` is
      always null. */
  lemma InterpreterTokenFields(s: string)
    ensures |LexTokens(InterpreterJs, s)| == |Scans(s)|
    ensures forall i :: 0 <= i < |Scans(s)| ==>
      Scans(s)[i].start <= Scans(s)[i].last < |s| && InterpreterFields(s, Scans(s)[i], LexTokens(InterpreterJs, s)[i])
  {
    forall i | 0 <= i < |Scans(s)|
      ensures Scans(s)[i].start <= Scans(s)[i].last < |s| && InterpreterFields(s, Scans(s)[i], LexTokens(InterpreterJs, s)[i])
    {
      TokenAt(s, i);
    }
  }
}
