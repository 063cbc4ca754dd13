/** The scanning rules of `lex` (src/lexer.js:35-195, and its older copy at
    interpreter.js:61-218) as pure functions over the source text. `c` is
    always the value of the source's `current` cursor: the index of the
    LAST character consumed so far, so a token spans `start..current`
    inclusive and its lexeme is `source.slice(start, current + 1)`. */
module ScannerSpec {
  import opened Values
  import opened Tokens

  // ---------------------------------------------------------------------
  // Character classes and one-character lookahead
  // ---------------------------------------------------------------------

  predicate IsDigit(ch: char) { '0' <= ch <= '9' }

  predicate IsAlpha(ch: char) { ('a' <= ch <= 'z') || ('A' <= ch <= 'Z') || ch == '_' }

  predicate IsAlphaNumeric(ch: char) { IsDigit(ch) || IsAlpha(ch) }

  /** `peek`: the character after the cursor, '\0' when the cursor is on the
      last character, and JavaScript's undefined (None) once the cursor has
      run past the end (which only the string loop does). */
  function PeekAt(s: string, c: nat): Option<char> {
    if |s| == c + 1 then Some('\0')
    else if c + 1 < |s| then Some(s[c + 1])
    else None
  }

  /** `match`: whether the character after the cursor is `expected`; false
      when the cursor is on the last character. */
  predicate MatchAt(s: string, c: nat, expected: char) {
    if |s| == c + 1 then false
    else c + 1 < |s| && s[c + 1] == expected
  }

  // ---------------------------------------------------------------------
  // The sub-scanners' loops: each yields the final value of `current`
  // ---------------------------------------------------------------------

  /** The loop of `number`: advance while the next character is a digit.
      The fractional branch that follows it has the guard
      `current === "."`, comparing an index to a string, which never holds. */
  function DigitsEnd(s: string, c: nat): (e: nat)
    requires c < |s|
    ensures c <= e < |s|
    decreases |s| - c
  {
    match PeekAt(s, c)
    case Some(ch) => if IsDigit(ch) then DigitsEnd(s, c + 1) else c
    case None => c
  }

  /** The loop of `identifier`: advance while the next character is a
      letter, digit or underscore. */
  function WordEnd(s: string, c: nat): (e: nat)
    requires c < |s|
    ensures c <= e < |s|
    decreases |s| - c
  {
    match PeekAt(s, c)
    case Some(ch) => if IsAlphaNumeric(ch) then WordEnd(s, c + 1) else c
    case None => c
  }

  /** The loop after `//`: advance until the next character is a newline or
      the cursor is on the last character. */
  function CommentEnd(s: string, c: nat): (e: nat)
    requires c < |s|
    ensures c <= e < |s|
    decreases |s| - c
  {
    if PeekAt(s, c) != Some('\n') && c + 1 != |s| then CommentEnd(s, c + 1) else c
  }

  /** How the loop of `string` ends: on the closing quote, or with the
      cursor at the end of the source (the early `return` that reports an
      unterminated string and makes `string` return undefined). */
  datatype StringEnd = Closed(quote: nat) | Unclosed(at: nat)

  function StringScan(s: string, c: nat): (r: StringEnd)
    requires c <= |s|
    ensures r.Closed? ==> c < r.quote < |s| && s[r.quote] == '"'
    ensures r.Unclosed? ==> r.at == |s|
    decreases |s| - c
  {
    if PeekAt(s, c) == Some('"') then Closed(c + 1)
    else if c == |s| then Unclosed(c)
    else StringScan(s, c + 1)
  }

  // ---------------------------------------------------------------------
  // scanToken
  // ---------------------------------------------------------------------

  /** The cases of the `switch` in `scanToken`, in its order. */
  datatype CharClass =
    | Single(kind: string)                     // a one-character token
    | Operator(alone: string, withEqual: string) // may be followed by `=`
    | SlashChar
    | Blank                                    // space, carriage return, tab
    | NewlineChar
    | Quote
    | Digit
    | Letter
    | Unrecognised

  function Classify(ch: char): CharClass {
    match ch
    case '(' => Single("LEFT_PAREN")
    case ')' => Single("RIGHT_PAREN")
    case '{' => Single("LEFT_BRACE")
    case '}' => Single("RIGHT_BRACE")
    case ',' => Single("COMMA")
    case '.' => Single("DOT")
    case '-' => Single("MINUS")
    case '+' => Single("PLUS")
    case ';' => Single("SEMICOLON")
    case '*' => Single("STAR")
    case '!' => Operator("BANG", "BANG_EQUAL")
    case '=' => Operator("EQUAL", "EQUAL_EQUAL")
    case '<' => Operator("LESS", "LESS_EQUAL")
    case '>' => Operator("GREATER", "GREATER_EQUAL")
    case '/' => SlashChar
    case ' ' => Blank
    case '\r' => Blank
    case '\t' => Blank
    case '\n' => NewlineChar
    case '"' => Quote
    case _ => if IsDigit(ch) then Digit else if IsAlpha(ch) then Letter else Unrecognised
  }

  /** The type `identifier` returns for a word: the word itself when it is
      reserved, IDENTIFIER otherwise. */
  function WordKind(word: string): string {
    if IsReserved(word) then word else "IDENTIFIER"
  }

  /** What one call of `scanToken` leaves behind: the type it returned
      (None for undefined), the new `current` and the new `line`. */
  datatype Step = Step(kind: Option<string>, last: nat, line: nat)

  function ScanToken(s: string, c: nat, line: nat): (st: Step)
    requires c < |s|
    ensures c <= st.last <= |s|
    ensures st.kind.Some? ==> st.last < |s|
    ensures st.line == if s[c] == '\n' then line + 1 else line
  {
    match Classify(s[c])
    case Single(kind) => Step(Some(kind), c, line)
    case Operator(alone, withEqual) =>
      if MatchAt(s, c, '=') then Step(Some(withEqual), c + 1, line)
      else Step(Some(alone), c, line)
    case SlashChar =>
      if MatchAt(s, c, '/') then Step(None, CommentEnd(s, c + 1), line)
      else Step(Some("SLASH"), c, line)
    case Blank => Step(None, c, line)
    case NewlineChar => Step(None, c, line + 1)
    case Quote =>
      (match StringScan(s, c)
       case Closed(q) => Step(Some("STRING"), q, line)
       case Unclosed(e) => Step(None, e, line))
    case Digit => Step(Some("NUMBER"), DigitsEnd(s, c), line)
    case Letter =>
      var e := WordEnd(s, c);
      Step(Some(WordKind(s[c..e + 1])), e, line)
    case Unrecognised => Step(None, c, line)
  }

  // ---------------------------------------------------------------------
  // The main loop
  // ---------------------------------------------------------------------

  /** One pushed token before its fields are filled: its type, the values
      of `start` and `current` when it was pushed (its lexeme is
      `source.slice(start, current + 1)`) and its line. */
  datatype Scan = Scan(kind: string, start: nat, last: nat, line: nat)

  /** The tokens the main loop pushes from cursor `c` onwards, with the
      line counter at `line`. */
  function ScanFrom(s: string, c: nat, line: nat): (r: seq<Scan>)
    requires c <= |s| + 1
    decreases |s| + 1 - c
  {
    if c >= |s| then []
    else
      var st := ScanToken(s, c, line);
      var rest := ScanFrom(s, st.last + 1, st.line);
      if st.kind.Some? then [Scan(st.kind.value, c, st.last, st.line)] + rest
      else rest
  }

  /** One turn of the main loop: the step taken at `c`, then the rest. */
  lemma ScanFromStep(s: string, c: nat, line: nat)
    requires c < |s|
    ensures var st := ScanToken(s, c, line);
      ScanFrom(s, c, line)
      == if st.kind.Some? then [Scan(st.kind.value, c, st.last, st.line)] + ScanFrom(s, st.last + 1, st.line)
         else ScanFrom(s, st.last + 1, st.line)
  {
  }

  /** The main loop pushes at most one token per character left. */
  lemma {:induction false} ScanFromFits(s: string, c: nat, line: nat)
    requires c <= |s|
    ensures |ScanFrom(s, c, line)| <= |s| - c
    decreases |s| - c
  {
    if c < |s| {
      var st := ScanToken(s, c, line);
      if st.last + 1 <= |s| {
        ScanFromFits(s, st.last + 1, st.line);
      }
    }
  }

  /** All tokens of a source: the cursor and the line both start at 0. */
  function Scans(s: string): seq<Scan> {
    ScanFrom(s, 0, 0)
  }

  // ---------------------------------------------------------------------
  // Filling the token record: the two copies differ only here
  // ---------------------------------------------------------------------

  /** Which copy of `lex`: src/lexer.js or interpreter.js. */
  datatype Edition = LexerJs | InterpreterJs

  /** `String.prototype.slice` for non-negative bounds. */
  function Slice(s: string, from: nat, to: nat): string {
    var hi := if to <= |s| then to else |s|;
    if from < hi then s[from..hi] else ""
  }

  function DigitValue(ch: char): nat {
    if IsDigit(ch) then ch as int - '0' as int else 0
  }

  /** The value of a run of decimal digits: what `Number(...)` gives for
      the lexeme of a NUMBER token. */
  function DecimalValue(digits: string): nat {
    if digits == [] then 0
    else 10 * DecimalValue(digits[..|digits| - 1]) + DigitValue(digits[|digits| - 1])
  }

  /** src/lexer.js:171-186: the lexeme is the raw slice; the literal is the
      text between the quotes for STRING, the number for NUMBER, and the raw
      slice again for every other type. */
  function LexerToken(s: string, sc: Scan): Token {
    var text := Slice(s, sc.start, sc.last + 1);
    var literal :=
      if sc.kind == "STRING" then Str(Slice(s, sc.start + 1, sc.last))
      else if sc.kind == "NUMBER" then Num(DecimalValue(text) as real)
      else Str(text);
    Token(sc.kind, Str(text), literal, sc.line)
  }

  /** interpreter.js:197-207: the `lexeme` field receives the text between
      the quotes for STRING, the number for NUMBER and the raw slice
      otherwise; the literal is always null. */
  function InterpreterToken(s: string, sc: Scan): Token {
    var text :=
      if sc.kind == "STRING" then Str(Slice(s, sc.start + 1, sc.last))
      else if sc.kind == "NUMBER" then Num(DecimalValue(Slice(s, sc.start, sc.last + 1)) as real)
      else Str(Slice(s, sc.start, sc.last + 1));
    Token(sc.kind, text, Null, sc.line)
  }

  function MakeToken(edition: Edition, s: string, sc: Scan): Token {
    match edition
    case LexerJs => LexerToken(s, sc)
    case InterpreterJs => InterpreterToken(s, sc)
  }

  function BuildTokens(edition: Edition, s: string, scans: seq<Scan>): (ts: seq<Token>)
    ensures |ts| == |scans|
  {
    if scans == [] then []
    else [MakeToken(edition, s, scans[0])] + BuildTokens(edition, s, scans[1..])
  }

  /** The record at each index is the one built from the scan at that
      index. */
  lemma {:induction false} BuildTokensAt(edition: Edition, s: string, scans: seq<Scan>, i: nat)
    requires i < |scans|
    ensures BuildTokens(edition, s, scans)[i] == MakeToken(edition, s, scans[i])
    decreases |scans|
  {
    if i > 0 {
      BuildTokensAt(edition, s, scans[1..], i - 1);
    }
  }

  /** What `lex` returns. */
  function LexTokens(edition: Edition, s: string): seq<Token> {
    BuildTokens(edition, s, Scans(s))
  }
}
