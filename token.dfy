/** The tokens the tokenizer emits. */
module Tokens {
  import opened Positions

  datatype Option<T> = None | Some(value: T)

  /** Token kinds. Every word, reserved or not, has kind SQLKeyword; whether it is reserved
      is told by its SQLWord's keyword field. */
  datatype Kind =
    | Whitespace
    | SQLKeyword
    | SingleQuotedString
    | NationalStringLiteral
    | Number
    | Comment
    | Comma
    | Eq
    | Neq
    | Lt
    | Gt
    | LtEq
    | GtEq
    | Plus
    | Minus
    | Mult
    | Div
    | Mod
    | LParen
    | RParen
    | Period
    | Colon
    | DoubleColon
    | Semicolon
    | Backslash
    | LBracket
    | RBracket
    | Ampersand
    | LBrace
    | RBrace

  /** A word as written (without its quotes), its canonical keyword or "", and the quote
      character that delimited it, if any. */
  datatype SQLWord = SQLWord(value: string, keyword: string, quoteStyle: Option<char>)

  /** A token's value: plain text, or a word. */
  datatype Value = Str(text: string) | Word(word: SQLWord)

  datatype Token = Token(kind: Kind, value: Value, from: Pos, to: Pos)

  /** Why a scan stopped early. */
  datatype ErrorKind =
    | UnterminatedString
    | UnterminatedQuotedIdentifier
    | UnterminatedComment
    | InvalidCharacter(c: char)
}
