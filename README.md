# A verified model of the lox-interpreter front end

This project models the core of a small, unfinished Lox front end written in
JavaScript, as the code is written, quirks included:

- **The scanner** `lex`. It is present twice: `src/lexer.js` and an older copy
  in `interpreter.js`. Both walk the source with the cursor variables
  `start`, `current` and `line`, look one character ahead with `match` and
  `peek`, and have sub-scanners for strings, numbers, identifiers and `//`
  comments. The two copies differ only in how each token record is filled.
  - `ScannerSpec` states the scanning rules once, as pure functions.
  - `Lexing.Lexer` is the cursor machine. It is a class whose fields are
    those variables, and each closure is a method proved to compute what
    the rules say.
  - An `Edition` value picks the token builder of one copy or the other.
- **The parser** `parse` of `src/parser.js`: recursive descent over a shared
  mutable cursor.
  - `Grammar` is the reference definition, one pure function per
    production.
  - `Parsing.Parser` is the imperative parser: a class with the cursor as
    its field. Every method is proved equal to its production.
- **The syntax tree and the evaluator**: the node classes of
  `src/ast-types.js` are datatypes (`Ast`). `execute` and `evaluate` of
  `src/evaluator.js` are pure recursive functions (`Evaluation`). The
  `console.log` of a `Print` statement appends to an output trace.

`ScannerProps`, `GrammarProps` and `EvaluationProps` prove what each stage
guarantees. `Pipeline` chains the three stages. The repository never chains
them itself, because its `run` is empty. `Pipeline` proves that evaluating
what the parser builds from scanned tokens never throws. It also shows where
the two scanners part ways: `1 + 2` evaluates to the string `"12"` with the
scanner of `src/lexer.js`, and to the number 3 with that of `interpreter.js`.

## Behaviour as written

The model follows the code wherever it departs from Lox as usually
described:

- **Lines and literals.**
  - Line numbers start at 0.
  - A newline inside a string literal is skipped by the string loop and
    never counted.
  - In `src/lexer.js` every token carries a literal. For types other than
    STRING and NUMBER, that literal is the raw slice.
  - In `interpreter.js` the value goes into `lexeme`, and `literal` is
    always null.
- **Fractions.** The fractional part of a number is never scanned. Its guard
  compares the index `current` with `"."`, so `1.5` is NUMBER, DOT, NUMBER.
  The guard is a short-circuiting test, so the misspelt `peekNext` is never
  reached.
- **Operator names.** The scanner names operators `BANG_EQUAL`,
  `EQUAL_EQUAL`, `LESS`, and so on. `equality` and `comparison` look for
  types literally named `!=`, `==`, `<`, and so on. `primary` looks for
  `FALSE`, `TRUE` and `NIL`, where the scanner emits `false`, `true` and
  `nil`.
  - None of these rules ever fires on scanned tokens.
  - `1 == 2` parses as `1` alone, and `parse` ignores the rest.
  - `true` parses as undefined and reads nothing.
- **Parentheses.** `match("LEFT_PAREN")` passes a string, not an array, so
  the test is a substring test.
  - `consume` compares a token object with a type name, which never
    matches. It therefore either throws "Expect ')' after expression." or,
    when the cursor is already at the end, loops forever.
  - So no `Grouping` node is ever built.
- **Falling through.** When no rule of `primary` applies, it returns
  undefined (`Ast.Absent`) and consumes nothing. The binary loops store that
  as an operand like any other.
- **Literal values.** A NUMBER or STRING literal node holds the token's
  `lexeme`, not its parsed value.
- **Truthiness.** Truth is JavaScript's `Boolean(...)`: 0 and the empty
  string are false.
- **Logic operators.** `AND` and `OR` evaluate both operands and give a
  boolean.
- **`Grouping` and `VarDecl`.** `execute` has no branch for either, so both
  give undefined. A `Grouping`'s contents are not evaluated.
- **Missing table entries.** An operator type missing from the evaluator's
  tables makes `execute` call undefined, which throws a `TypeError`. It does
  so after the operands have been evaluated. The tables are plain objects,
  so a type named like an inherited member of `Object.prototype` finds that
  member: `toString` answers `"[object Object]"`, `hasOwnProperty` answers
  whether its argument is a key of the table, and `__proto__`,
  `__defineGetter__` and `__defineSetter__` throw a `TypeError`.
- **Numbers as strings.** With the scanner of `src/lexer.js` a NUMBER's
  lexeme is its text, so `-`, `*`, `/` and negation convert it back: `3 - 1`
  is 2, while `1 + 2` is `"12"`.

## Model

| member | source | states |
|---|---|---|
| Tokens.IsReservedMeansListed | src/lexer.js:14-31 | the first-letter test is exactly membership in the sixteen reserved words |
| Tokens.IsReserved | src/lexer.js:14-31 | `reservedWords.has(word)`; its meaning is stated by `IsReservedMeansListed` |
| ScannerSpec.PeekAt | src/lexer.js:50-55 | `peek`: the next character, `\0` on the last one; stated by `Lexing.Lexer.Peek` and the sub-scanner lemmas |
| ScannerSpec.MatchAt | src/lexer.js:42-48 | `match`: whether the next character is the expected one, never on the last character; stated by `Lexing.Lexer.Match` and `OperatorRule` |
| ScannerSpec.DigitsEnd | src/lexer.js:87-96 | the digit loop ends inside the source and never before where it started (maximality: `DigitsEndIsMaximal`) |
| ScannerSpec.WordEnd | src/lexer.js:98-107 | the word loop ends inside the source and never before where it started (maximality: `WordEndIsMaximal`) |
| ScannerSpec.CommentEnd | src/lexer.js:139-146 | the comment loop ends inside the source and never before where it started (where: `CommentEndStopsBeforeNewline`) |
| ScannerSpec.Classify | src/lexer.js:109-165 | the `switch` of `scanToken` by character class; its rules are stated one by one in `ScannerProps` (`SingleCharRule` to `SkipRule`) |
| ScannerSpec.StringScan | src/lexer.js:64-77 | the string loop ends on a quote after the opening one, or with the cursor at the end of the source |
| ScannerSpec.ScanToken | src/lexer.js:109-165 | one call never moves the cursor back; a type is returned only when the token ends inside the source; the line rises exactly on a newline |
| ScannerSpec.BuildTokens | src/lexer.js:167-192 | the main loop pushes one record per scanned token |
| ScannerSpec.ScanFrom | src/lexer.js:167-192 | the tokens the main loop pushes from a cursor on; their properties are stated by `ScanFromFits`, `ScansAreLexemes` and `ScansAreInOrder` |
| ScannerSpec.ScanFromFits | src/lexer.js:167-192 | the main loop pushes at most one token per character left |
| ScannerSpec.LexerToken | src/lexer.js:171-186 | the record src/lexer.js fills; its fields are stated by `ScannerProps.LexerTokenFields` |
| ScannerSpec.InterpreterToken | interpreter.js:197-209 | the record interpreter.js fills; its fields are stated by `ScannerProps.InterpreterTokenFields` |
| ScannerSpec.BuildTokensAt | src/lexer.js:179-186 | the record at each index is built from the scan at that index |
| ScannerProps.DigitsEndIsMaximal | src/lexer.js:87-96 | `number` stops exactly at the end of the run of digits |
| ScannerProps.WordEndIsMaximal | src/lexer.js:98-107 | `identifier` stops exactly at the end of the run of letters, digits and underscores |
| ScannerProps.CommentEndStopsBeforeNewline | src/lexer.js:139-146 | a comment stops before the next newline, or on the last character |
| ScannerProps.StringScanFindsFirstQuote | src/lexer.js:64-77 | a string closes on the first quote after the opening one; without one it runs to the end |
| ScannerProps.StepYieldsLexeme | src/lexer.js:109-165 | the slice of every token `scanToken` returns is a lexeme of its type (punctuation, a quoted string, a digit run, or a word typed as reserved word or IDENTIFIER) |
| ScannerProps.ScansAreLexemes | src/lexer.js:167-192 | every pushed token's slice lies in the source and is a lexeme of its type |
| ScannerProps.ScansAreInOrder | src/lexer.js:167-192 | tokens are disjoint slices in source order, with non-decreasing lines |
| ScannerProps.ScannedKindsAreTypeNames | src/lexer.js:109-165 | every emitted type consists of letters, digits and underscores only |
| ScannerProps.LexemeKindIsNoKeywordType | src/lexer.js:98-107 | no lexeme has the type `FALSE`, `TRUE` or `NIL`: a keyword is typed as its own lower-case text |
| ScannerProps.ScannedKindsAreNoKeywordTypes | src/lexer.js:167-192 | no pushed token has the type `FALSE`, `TRUE` or `NIL` |
| ScannerProps.SingleCharRule | src/lexer.js:111-130 | each of `( ) { } , . - + ; *` is one token of its type |
| ScannerProps.OperatorRule | src/lexer.js:131-138 | `!=`, `==`, `<=`, `>=` are one token each; a lone `!`, `=`, `<`, `>`, also on the last character, is the one-character type |
| ScannerProps.SlashRule | src/lexer.js:139-146 | a `/` not followed by `/` is SLASH |
| ScannerProps.CommentRule | src/lexer.js:139-146 | a `//` comment emits nothing and resumes on the newline that ends it |
| ScannerProps.NumberRule | src/lexer.js:87-96 | a digit starts a NUMBER spanning exactly the maximal digit run |
| ScannerProps.FractionIsNotConsumed | src/lexer.js:90 | `1.5` scans as NUMBER, DOT, NUMBER |
| ScannerProps.WordRule | src/lexer.js:98-107 | a letter or underscore starts a maximal word, typed as itself when reserved and IDENTIFIER otherwise |
| ScannerProps.TerminatedStringRule | src/lexer.js:64-77 | a terminated string is one STRING token spanning both quotes |
| ScannerProps.UnterminatedStringRule | src/lexer.js:64-77 | an unterminated string emits nothing and ends the scan |
| ScannerProps.SkipRule | src/lexer.js:147-163 | whitespace, newlines and unrecognised characters emit nothing; only a newline raises the line |
| ScannerProps.StepCountsNewlines | src/lexer.js:151-153 | outside strings, one step raises the line by the newlines it consumed |
| ScannerProps.LinesCountNewlines | src/lexer.js:40 | in a source without string literals, each token's line is the number of newlines before it |
| ScannerProps.NewlineInStringIsNotCounted | src/lexer.js:64-77 | a newline inside a string literal leaves the following token on line 0 |
| ScannerProps.LexerTokenFields | src/lexer.js:171-186 | every record has the slice as lexeme; the literal is the inner text for STRING, the digits' value for NUMBER, the slice otherwise |
| ScannerProps.InterpreterTokenFields | interpreter.js:197-209 | every record has a null literal; its lexeme is the inner text for STRING, the number for NUMBER, the slice otherwise |
| Lexing.Lexer.constructor | src/lexer.js:36-40 | no tokens yet and the cursor, start and line at 0 |
| Lexing.Lexer.Match | src/lexer.js:42-48 | the next character is consumed exactly when it is the expected one; never on the last character |
| Lexing.Lexer.StringLiteral | src/lexer.js:64-77 | the cursor ends on the closing quote with STRING, or at the end of the source with undefined |
| Lexing.Lexer.Number | src/lexer.js:87-96 | the cursor ends on the last digit of the run and the type is NUMBER |
| Lexing.Lexer.Identifier | src/lexer.js:98-107 | the cursor ends on the last character of the word; the type is the word if reserved, IDENTIFIER otherwise |
| Lexing.Lexer.SkipComment | src/lexer.js:140-142 | the cursor ends before the next newline or on the last character |
| Lexing.Lexer.ScanToken | src/lexer.js:109-165 | the type, cursor and line after one `scanToken` are those of the scanning rules |
| Lexing.Lexer.NewToken | src/lexer.js:171-186 | the record is filled as the copy being run fills it (interpreter.js:197-207 for the other copy) |
| Lexing.Lexer.Turn | src/lexer.js:168-191 | one turn pushes the record of the scanned token, if any, and moves `start` and the cursor past it |
| Lexing.Lexer.Run | src/lexer.js:167-194 | the main loop terminates and returns exactly the tokens of the scanning rules |
| Lexing.TurnKeeps | src/lexer.js:186-191 | the tokens pushed so far plus the rest of the scan are unchanged by a turn |
| Lexing.Lex | src/lexer.js:35-195 | `lex` returns the tokens of the scanning rules, for either copy |
| Grammar.ParseExpression | src/parser.js:54 | `expression` never moves the cursor back or past the end |
| Grammar.ParseLevel | src/parser.js:56-110 | a binary level never moves the cursor back or past the end |
| Grammar.ParseOperand | src/parser.js:57-99 | the operand a binary level parses first never moves the cursor back or past the end |
| Grammar.ParseRest | src/parser.js:59-63 | the operator loop never moves the cursor back or past the end |
| Grammar.ParseUnary | src/parser.js:112-120 | `unary` never moves the cursor back or past the end |
| Grammar.ParsePrimary | src/parser.js:132-145 | `primary` never moves the cursor back or past the end |
| Grammar.Consume | src/parser.js:123-130 | `consume` never returns normally: it throws its message exactly when a token is left, and otherwise never ends |
| Grammar.Parse | src/parser.js:147 | `parse` stops within the tokens |
| Parsing.Parser.constructor | src/parser.js:34-35 | the cursor starts at 0 over the given tokens |
| Parsing.Parser.Match | src/parser.js:45-52 | the cursor moves by one exactly when a token is under it and its type is in the list |
| Parsing.Parser.Expression | src/parser.js:54 | returns what `expression` parses and leaves the cursor after it |
| Parsing.Parser.Equality | src/parser.js:56-68 | returns level 1 of the grammar and leaves the cursor after it |
| Parsing.Parser.Comparison | src/parser.js:70-82 | returns level 2 of the grammar and leaves the cursor after it |
| Parsing.Parser.Addition | src/parser.js:84-96 | returns level 3 of the grammar and leaves the cursor after it |
| Parsing.Parser.Multiplication | src/parser.js:98-110 | returns level 4 of the grammar and leaves the cursor after it |
| Parsing.Parser.Unary | src/parser.js:112-120 | returns `unary` of the grammar and leaves the cursor after it |
| Parsing.Parser.Primary | src/parser.js:132-145 | returns `primary` of the grammar and leaves the cursor after it |
| Parsing.Parser.Consume | src/parser.js:123-130 | throws the message, with the cursor at the end, exactly when it started before the end; otherwise does not return |
| Parsing.Parse | src/parser.js:34-148 | `parse` returns the grammar's parse of the tokens |
| GrammarProps.OpLevelOfOps | src/parser.js:59-101 | the four operator lists are disjoint |
| GrammarProps.LevelShape | src/parser.js:56-110 | a binary level builds a tree that binds at least as tightly as the level, nests to the left, and has operators taken from the input |
| GrammarProps.RestShape | src/parser.js:87-92 | the operator loop keeps a well nested tree well nested, binding at least as tightly as its level and with operators from the input |
| GrammarProps.UnaryShape | src/parser.js:112-120 | `unary` builds prefix operators over a non-binary operand |
| GrammarProps.PrimaryShape | src/parser.js:132-145 | whatever `primary` returns is a literal or undefined, never a grouping |
| GrammarProps.ParsedIsWellNested | src/parser.js:147 | every parsed tree respects precedence, nests to the left, has no grouping, and takes its operators from the tokens |
| GrammarProps.LevelRoundTrip | src/parser.js:84-110 | a laid-out tree is parsed back whole by every level it binds at least as tightly as |
| GrammarProps.RoundTrip | src/parser.js:147 | printing a complete, well nested tree and parsing the tokens gives it back, when what follows is empty or starts with a token of no binary level |
| GrammarProps.ProductBindsTighter | src/parser.js:84-110 | `1 + 2 * 3` has the product as the right operand of the sum |
| GrammarProps.MinusNestsLeft | src/parser.js:87-92 | `a - b - c` is `(a - b) - c` |
| GrammarProps.ParenthesisNeverCloses | src/parser.js:140-144 | an opening parenthesis never yields a tree |
| Evaluation.ToNumber | src/evaluator.js:28 | a number converts to itself, null to 0, booleans to 1 and 0, a string of decimal digits to its value; exactly undefined and other strings are left without a real number |
| Evaluation.ToText | src/evaluator.js:37 | a string converts to itself; only numbers are left without a text |
| Values.Truthy | src/evaluator.js:29 | JavaScript's `Boolean(v)`: null, undefined, false, 0 and the empty string are false; used by BANG, AND and OR (`DoubleBangIsTruth`, `LogicEvaluatesBoth`) |
| Evaluation.Missing | src/evaluator.js:32 | calling a key outside the table throws exactly when it is no answering inherited member, always a `TypeError`; `__proto__` throws "is not a function"; an answering member gives a boolean, a string or undefined |
| Evaluation.ApplyUnary | src/evaluator.js:26-33 | BANG negates the truth of any value; MINUS negates the number of its operand; it throws, with a `TypeError`, exactly for a type that is neither in the table nor an answering inherited member |
| Evaluation.Add | src/evaluator.js:37 | two strings concatenate, two numbers add, and `+` never throws |
| Evaluation.Arithmetic | src/evaluator.js:38-40 | `-`, `*` and `/` never throw; on two operands with numbers they give the difference, the product and the quotient, a zero divisor left open; an operand without a number is left open |
| Evaluation.Operate | src/evaluator.js:38-40 | the difference, product and quotient of two numbers; division by zero is left open |
| Evaluation.ApplyBinary | src/evaluator.js:35-48 | AND and OR give the boolean of both truths; it throws, with a `TypeError`, exactly for a type that is neither in the table nor an answering inherited member |
| Evaluation.Eval | src/evaluator.js:11-50 | `execute` on an expression; every exception it throws is a `TypeError` |
| Evaluation.Execute | src/evaluator.js:11-20 | `execute` on a node; what it logs and gives is stated by `FailureLogsNothing`, `OutputCount` and `DeclarationIsNoOp` |
| Evaluation.Evaluate | src/evaluator.js:52 | `forEach(execute)`; its order and its stop at the first exception are stated by `EvaluateAppend`, `EvaluateSucceeds` and `StopsAtFirstFailure` |
| EvaluationProps.EvaluateAppend | src/evaluator.js:52 | evaluating two lists in a row is the first, then the second unless the first failed |
| EvaluationProps.EvaluateSucceeds | src/evaluator.js:52 | a run ends normally exactly when every node does, and then gives undefined |
| EvaluationProps.StopsAtFirstFailure | src/evaluator.js:52 | the first failing node ends the run with its failure, after the output of the nodes before it |
| EvaluationProps.FailureLogsNothing | src/evaluator.js:12-15 | a statement that fails prints nothing |
| EvaluationProps.OutputCount | src/evaluator.js:12-20 | a run prints at most once per `Print` statement, and exactly once per `Print` when it ends normally |
| EvaluationProps.DeclarationIsNoOp | src/ast-types.js:52-58 | a `VarDecl` in a statement list changes neither output nor outcome |
| EvaluationProps.PrintedGroupingIsUndefined | src/evaluator.js:11-20 | printing a `Grouping` logs undefined and carries on, even when its contents would throw |
| EvaluationProps.DoubleBangIsTruth | src/evaluator.js:29 | `!!e` is the boolean truth of `e` |
| EvaluationProps.FailurePropagates | src/evaluator.js:26-48 | a failing subexpression makes every enclosing operator fail, whatever the operators; when nothing evaluated before it fails, the whole ends with exactly its failure |
| EvaluationProps.LogicEvaluatesBoth | src/evaluator.js:41-42 | AND and OR end normally exactly when both operands do, and give a boolean |
| EvaluationProps.FalseAndThrows | src/evaluator.js:41 | `false AND` an expression that throws still throws |
| EvaluationProps.ThrowsOnlyOnMissingOp | src/evaluator.js:32 | an exception is only ever the call of an operator that is neither in its table nor an answering inherited member |
| EvaluationProps.MissingOpFails | src/evaluator.js:45-48 | an expression holding such an operator never gives a value: it throws, or an earlier operand is a case left open |
| Pipeline.LexedKindsAreTypeNames | interpreter.js:135-191 | both scanners give every token a type made of letters, digits and underscores |
| Pipeline.NamesAreNoLooseOperators | src/parser.js:59 | no such type is one of the operators of `equality` or `comparison` |
| Pipeline.NamedOperatorsAreKnown | src/evaluator.js:36-43 | a parsed tree over scanned tokens uses only operators in the evaluator's tables |
| Pipeline.LexedProgramsNeverThrow | src/evaluator.js:26-48 | evaluating what `parse` builds from either scanner's tokens never throws |
| Pipeline.AdditionParses | src/parser.js:84-96 | NUMBER, PLUS or MINUS, NUMBER parses as one node of `addition` over the two lexemes |
| Pipeline.LexerJsSumConcatenates | src/parser.js:136-138 | with the scanner of src/lexer.js, `1 + 2` evaluates to the string "12" |
| Pipeline.InterpreterJsSumAdds | interpreter.js:201-202 | with the scanner of interpreter.js, `1 + 2` evaluates to 3 |
| Pipeline.NumberThenStranger | src/parser.js:147 | a number followed by a token of no binary level parses as the number alone |
| Pipeline.EqualityIsNotParsed | src/parser.js:59 | `1 == 2` parses as `1` alone |
| Pipeline.LexerJsDifferenceSubtracts | src/evaluator.js:38 | with the scanner of src/lexer.js, `3 - 1` evaluates to the number 2: `-` converts the digit strings |
| Pipeline.NegationParses | src/parser.js:112-120 | MINUS, NUMBER parses as the negation of the lexeme |
| Pipeline.LexerJsNegationIsNumeric | src/evaluator.js:28 | with the scanner of src/lexer.js, `-1` evaluates to the number -1 |
| Pipeline.LexedKindsAreNoKeywordTypes | src/parser.js:132-134 | neither scanner gives a token the type `FALSE`, `TRUE` or `NIL` |
| Pipeline.PrimaryLiteralIsLexeme | src/parser.js:132-138 | on scanned tokens a literal built by `primary` is the lexeme of a NUMBER or STRING token: its keyword tests never fire |
| Pipeline.KeywordIsAbsent | src/parser.js:132-145 | a leading `true`, `false` or `nil` token parses as undefined and reads nothing |
| Pipeline.TrueIsAbsent | src/parser.js:132-145 | `true`, from either scanner, parses as undefined with the cursor unmoved, and evaluates to undefined |

## Left out

- `main`, `runFile`, `runPrompt` and `run` in `interpreter.js`, and `src/interpreter.js`: file and prompt I/O, and an empty `run`.
- `generateError`: it does nothing. A scanning error is modelled only as "no token emitted".
- `Token.toString`: string formatting, never called by the core.
- `peakNext` and the parser's `peek`: neither is ever called.
- The parser's own copies of the node classes (src/parser.js:1-32): they are identical to `src/ast-types.js`, so they are modelled once.
- Characters are Unicode scalar values, and JavaScript strings are UTF-16 code units. The two agree for every character the scanner treats specially.
- `console.log` formatting: the output trace holds the printed values, not their text.
- The endless loop of `consume` is not run: it is the outcome `Hangs`.
- JavaScript numbers are exact reals here. NaN and the infinities have no counterpart: a result that needs one (undefined as a number, a zero divisor) is the outcome `Unmodelled`, and so is the conversion of a number to text. Negative zero is identified with 0: `-0`, `-null`, `-false` and `0 * -1` give -0 in JavaScript, which `console.log` prints as `-0`, and give 0 here.
- Evaluation.ApplyUnary: MINUS of a zero operand gives 0 where JavaScript gives -0, because exact reals have a single zero.
- Evaluation.Operate: a product or quotient that JavaScript gives as -0 (`0 * -1`, `0 / -1`) is 0 here, because exact reals have a single zero.
- Evaluation.ToNumber: converts only strings made of decimal digits (the empty one included), which is every NUMBER lexeme of src/lexer.js. Other strings do reach it: with interpreter.js a STRING token's lexeme is its inner text, and the parser makes that lexeme the literal, so `-"1.5"` is -1.5 in JavaScript. The rest of JavaScript's numeric-string grammar (whitespace, signs, points, exponents, hexadecimal, `Infinity`) is not modelled, so those strings, and undefined (NaN), give `Unmodelled`.
- Evaluation.Missing: the inherited members `constructor` and `valueOf` return objects (a wrapper object, or a new empty object for null and undefined, and the table itself), and `__lookupGetter__("__proto__")` returns a function, none of which is a value of this model; those calls give `Unmodelled`.
- Evaluation.ToText: gives no text for numbers, because JavaScript's number formatting is not modelled. So `"a" + 1` is `Unmodelled`.
- EvaluationProps.OutputCount: counts the printed values rather than listing them. `EvaluateAppend` and `StopsAtFirstFailure` say which they are.
- ScannerProps.LinesCountNewlines: is stated for sources without string literals only. Newlines inside a string are not counted (`NewlineInStringIsNotCounted`).
