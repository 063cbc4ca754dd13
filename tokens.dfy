/** The token record and the reserved words, which src/lexer.js and
    interpreter.js declare identically. */
module Tokens {
  import opened Values

  /** One scanned token. The source calls the first field `type`, a keyword
      in Dafny, so it is `kind` here. The source reads the token type as a
      string, and so does this model. */
  datatype Token = Token(kind: string, lexeme: Value, literal: Value, line: nat)

  /** The array behind the `reservedWords` set, in the source's order. */
  const ReservedWordList: seq<string> := [
    "and", "class", "else", "false", "for", "fun", "if", "nil",
    "or", "print", "return", "super", "this", "true", "var", "while"
  ]

  /** `reservedWords.has(word)`. The source looks the word up in a `Set`;
      the model dispatches on the first letter and then compares whole
      words, which `IsReservedMeansListed` proves to be the same test. */
  predicate IsReserved(word: string) {
    && 2 <= |word| <= 6
    && match word[0]
       case 'a' => word == "and"
       case 'c' => word == "class"
       case 'e' => word == "else"
       case 'f' => word == "false" || word == "for" || word == "fun"
       case 'i' => word == "if"
       case 'n' => word == "nil"
       case 'o' => word == "or"
       case 'p' => word == "print"
       case 'r' => word == "return"
       case 's' => word == "super"
       case 't' => word == "this" || word == "true"
       case 'v' => word == "var"
       case 'w' => word == "while"
       case _ => false
  }

  /** The test is exactly membership in the list of reserved words. */
  lemma IsReservedMeansListed(word: string)
    ensures IsReserved(word) <==> word in ReservedWordList
  {
  }
}
