/** The token vocabulary shared by the scanner and the parser.
    The source file that declares it (src/lexer/token.ts) is not part of this
    model; the kinds below are the ones the scanner and parser use, plus the
    sixteen reserved words. */
module Tokens {

  /** The conventional optional value. */
  datatype Option<T> = None | Some(value: T)

  datatype TokenType =
    // single-character punctuation
    | LeftParen | RightParen | LeftBrace | RightBrace
    | Comma | Dot | Minus | Plus | Semicolon | Slash | Star
    // one- or two-character operators
    | Bang | BangEqual | Equal | EqualEqual
    | Greater | GreaterEqual | Less | LessEqual
    // literal categories
    | Identifier | String | Number
    // reserved words
    | And | Class | Else | False | Fun | For | If | Nil | Or
    | Print | Return | Super | This | True | Var | While
    | Eof

  /** A token's literal: JavaScript's null, a boolean, a number (kept as
      its decimal text) or a string. */
  datatype Value = Null | Bool(b: bool) | Num(text: string) | Str(text: string)

  /** An immutable token: kind, the exact source slice, literal and line. */
  datatype Token = Token(kind: TokenType, lexeme: string, literal: Value, line: nat)

  /** The token that ends every scan result. */
  function EofToken(line: nat): Token {
    Token(Eof, "", Null, line)
  }
}
