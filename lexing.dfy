/** The scanner as the source writes it: `lex` keeps its cursor state in
    three local variables that its inner closures update, and pushes onto a
    token array. Here that state is the field set of a `Lexer` object, each
    closure is a method restricted to the fields it changes, and each method
    is proved to compute exactly what the rules in `ScannerSpec` describe. */
module Lexing {
  import opened Values
  import opened Tokens
  import opened ScannerSpec

  class Lexer {
    const source: string
    /** Which copy of `lex` this object runs: they differ only in how the
        token record is filled. */
    const edition: Edition
    var tokens: seq<Token>
    var start: nat
    var current: nat
    var line: nat

    constructor (source: string, edition: Edition)
      ensures this.source == source && this.edition == edition
      ensures tokens == [] && start == 0 && current == 0 && line == 0
    {
      this.source := source;
      this.edition := edition;
      tokens := [];
      start := 0;
      current := 0;
      line := 0;
    }

    /** `peek`. */
    function Peek(): Option<char>
      reads this
    {
      PeekAt(source, current)
    }

    /** `match`: consume the next character when it is `expected`. */
    method Match(expected: char) returns (matched: bool)
      modifies this`current
      ensures matched == MatchAt(source, old(current), expected)
      ensures current == if matched then old(current) + 1 else old(current)
    {
      if |source| == current + 1 {
        return false;
      }
      if !(current + 1 < |source| && source[current + 1] == expected) {
        return false;
      }
      current := current + 1;
      return true;
    }

    /** `string`, called with the cursor on the opening quote. Returns
        "STRING" with the cursor on the closing quote, or nothing with the
        cursor at the end of the source when the string is unterminated. */
    method StringLiteral() returns (kind: Option<string>)
      requires current <= |source|
      modifies this`current
      ensures StringScan(source, old(current)).Closed? ==>
        kind == Some("STRING") && current == StringScan(source, old(current)).quote
      ensures StringScan(source, old(current)).Unclosed? ==>
        kind == None && current == |source|
    {
      ghost var outcome := StringScan(source, current);
      while Peek() != Some('"')
        invariant current <= |source|
        invariant StringScan(source, current) == outcome
        decreases |source| - current
      {
        if current == |source| {
          return None;
        }
        current := current + 1;
      }
      current := current + 1;
      return Some("STRING");
    }

    /** `number`: advance over the digits that follow. Its fractional
        branch is guarded by `current === "."`, an index compared with a
        string, which is never true; the branch is therefore absent. */
    method Number() returns (kind: string)
      requires current < |source|
      modifies this`current
      ensures kind == "NUMBER" && current == DigitsEnd(source, old(current))
    {
      while Peek().Some? && IsDigit(Peek().value)
        invariant current < |source|
        invariant DigitsEnd(source, current) == DigitsEnd(source, old(current))
        decreases |source| - current
      {
        current := current + 1;
      }
      return "NUMBER";
    }

    /** `identifier`: advance over letters, digits and underscores, then
        look the word up among the reserved words. */
    method Identifier() returns (kind: string)
      requires start <= current < |source|
      modifies this`current
      ensures current == WordEnd(source, old(current))
      ensures kind == WordKind(source[start..current + 1])
    {
      while Peek().Some? && IsAlphaNumeric(Peek().value)
        invariant start <= current < |source|
        invariant WordEnd(source, current) == WordEnd(source, old(current))
        decreases |source| - current
      {
        current := current + 1;
      }
      var word := Slice(source, start, current + 1);
      assert word == source[start..current + 1];
      if IsReserved(word) {
        return word;
      }
      return "IDENTIFIER";
    }

    /** The body of the `//` comment loop. */
    method SkipComment()
      requires current < |source|
      modifies this`current
      ensures current == CommentEnd(source, old(current))
    {
      while Peek() != Some('\n') && current + 1 != |source|
        invariant current < |source|
        invariant CommentEnd(source, current) == CommentEnd(source, old(current))
        decreases |source| - current
      {
        current := current + 1;
      }
    }

    /** `scanToken`: classify the character under the cursor, consuming the
        rest of its token. Returns the token type, or nothing for
        whitespace, newlines, comments, unterminated strings and
        unrecognised characters. */
    method ScanToken(ch: char) returns (kind: Option<string>)
      requires current < |source| && ch == source[current] && start == current
      modifies this`current, this`line
      ensures Step(kind, current, line) == ScannerSpec.ScanToken(source, old(current), old(line))
    {
      match ch
      case '(' => return Some("LEFT_PAREN");
      case ')' => return Some("RIGHT_PAREN");
      case '{' => return Some("LEFT_BRACE");
      case '}' => return Some("RIGHT_BRACE");
      case ',' => return Some("COMMA");
      case '.' => return Some("DOT");
      case '-' => return Some("MINUS");
      case '+' => return Some("PLUS");
      case ';' => return Some("SEMICOLON");
      case '*' => return Some("STAR");
      case '!' =>
        var m := Match('=');
        return if m then Some("BANG_EQUAL") else Some("BANG");
      case '=' =>
        var m := Match('=');
        return if m then Some("EQUAL_EQUAL") else Some("EQUAL");
      case '<' =>
        var m := Match('=');
        return if m then Some("LESS_EQUAL") else Some("LESS");
      case '>' =>
        var m := Match('=');
        return if m then Some("GREATER_EQUAL") else Some("GREATER");
      case '/' =>
        var m := Match('/');
        if m {
          SkipComment();
          return None;
        }
        return Some("SLASH");
      case ' ' => return None;
      case '\r' => return None;
      case '\t' => return None;
      case '\n' =>
        line := line + 1;
        return None;
      case '"' =>
        kind := StringLiteral();
      case _ =>
        if IsDigit(ch) {
          var k := Number();
          return Some(k);
        } else if IsAlpha(ch) {
          var k := Identifier();
          return Some(k);
        }
        return None;
    }

    /** The record pushed for the token that spans `start..current`. */
    method NewToken(kind: string) returns (token: Token)
      requires start <= current < |source|
      ensures token == MakeToken(edition, source, Scan(kind, start, current, line))
    {
      if edition == LexerJs {
        var literal := Str(Slice(source, start, current + 1));
        if kind == "STRING" {
          literal := Str(Slice(source, start + 1, current));
        } else if kind == "NUMBER" {
          literal := Num(DecimalValue(Slice(source, start, current + 1)) as real);
        }
        token := Token(kind, Str(Slice(source, start, current + 1)), literal, line);
      } else {
        var text := Str("");
        if kind == "STRING" {
          text := Str(Slice(source, start + 1, current));
        } else if kind == "NUMBER" {
          text := Num(DecimalValue(Slice(source, start, current + 1)) as real);
        } else {
          text := Str(Slice(source, start, current + 1));
        }
        token := Token(kind, text, Null, line);
      }
    }

    /** One turn of the main loop of `lex`: scan the token under the
        cursor, push its record if it has a type, and move `start` and the
        cursor past it. */
    method Turn()
      requires start == current < |source|
      modifies this`tokens, this`start, this`current, this`line
      ensures var st := ScannerSpec.ScanToken(source, old(current), old(line));
        start == current == st.last + 1 && line == st.line
        && tokens == old(tokens) + Pushed(edition, source, old(current), old(line))
      ensures old(current) < current == start <= |source| + 1
      ensures tokens + BuildTokens(edition, source, ScanFrom(source, current, line))
           == old(tokens) + BuildTokens(edition, source, ScanFrom(source, old(current), old(line)))
    {
      ghost var c0, l0, t0 := current, line, tokens;
      var ch := source[current];
      var kind := ScanToken(ch);
      if kind.Some? {
        var token := NewToken(kind.value);
        tokens := tokens + [token];
      }
      current := current + 1;
      start := current;
      TurnKeeps(edition, source, c0, l0, t0);
    }

    /** The main loop of `lex`, from a fresh object: the tokens it pushes
        are exactly the ones the scanning rules describe. */
    method Run() returns (result: seq<Token>)
      requires tokens == [] && start == 0 && current == 0 && line == 0
      modifies this`tokens, this`start, this`current, this`line
      ensures result == tokens == LexTokens(edition, source)
    {
      while current < |source|
        invariant start == current <= |source| + 1
        invariant tokens + BuildTokens(edition, source, ScanFrom(source, current, line))
               == LexTokens(edition, source)
        decreases |source| + 1 - current
      {
        Turn();
      }
      return tokens;
    }
  }

  /** The record one step of the scanner pushes, if any. */
  function Pushed(edition: Edition, s: string, c: nat, line: nat): seq<Token>
    requires c < |s|
  {
    var st := ScannerSpec.ScanToken(s, c, line);
    if st.kind.Some? then [MakeToken(edition, s, Scan(st.kind.value, c, st.last, st.line))] else []
  }

  /** A turn of the main loop keeps the loop invariant: what was pushed
      before it and the records of the rest of the scan together stay the
      same. */
  lemma {:induction false} TurnKeeps(edition: Edition, s: string, c: nat, line: nat, tokens: seq<Token>)
    requires c < |s|
    ensures var st := ScannerSpec.ScanToken(s, c, line);
      tokens + BuildTokens(edition, s, ScanFrom(s, c, line))
      == (tokens + Pushed(edition, s, c, line)) + BuildTokens(edition, s, ScanFrom(s, st.last + 1, st.line))
  {
    var st := ScannerSpec.ScanToken(s, c, line);
    var rest := ScanFrom(s, st.last + 1, st.line);
    ScanFromStep(s, c, line);
    if st.kind.Some? {
      BuildTokensCons(edition, s, Scan(st.kind.value, c, st.last, st.line), rest);
    }
  }

  lemma BuildTokensCons(edition: Edition, s: string, sc: Scan, rest: seq<Scan>)
    ensures BuildTokens(edition, s, [sc] + rest) == [MakeToken(edition, s, sc)] + BuildTokens(edition, s, rest)
  {
    assert ([sc] + rest)[1..] == rest;
  }

  /** `lex`: scan a whole source with one copy of the scanner. */
  method Lex(source: string, edition: Edition) returns (tokens: seq<Token>)
    ensures tokens == LexTokens(edition, source)
  {
    var lexer := new Lexer(source, edition);
    tokens := lexer.Run();
  }
}
