/** The character classes of src/lexer/scanner.ts, shared by the scanner
    and by the reporter, which prints line numbers in decimal. */
module Chars {
  /** `isDigit`: not whitespace and read by `Number` as a number, which on
      one character leaves exactly '0'..'9'. */
  predicate IsDigit(c: char) {
    '0' <= c <= '9'
  }

  /** `isAlpha`: a letter or an underscore. */
  predicate IsAlpha(c: char) {
    'a' <= c <= 'z' || 'A' <= c <= 'Z' || c == '_'
  }

  predicate IsAlphaNumeric(c: char) {
    IsDigit(c) || IsAlpha(c)
  }
}
