/** The `<cctype>` classifications the lexer relies on, read as the "C"
    locale's ASCII predicates. */
module Ascii {

  /** `isspace`: blank, tab, newline, vertical tab, form feed, carriage return. */
  predicate IsSpace(c: char) {
    c == ' ' || c == '\t' || c == '\n' || c == '\U{B}' || c == '\U{C}' || c == '\r'
  }

  /** `isdigit`. */
  predicate IsDigit(c: char) {
    '0' <= c <= '9'
  }

  /** `isalpha`. */
  predicate IsAlpha(c: char) {
    ('a' <= c <= 'z') || ('A' <= c <= 'Z')
  }

  /** `isalnum`. */
  predicate IsAlnum(c: char) {
    IsAlpha(c) || IsDigit(c)
  }

  /** A character that may continue an identifier (`isalnum(c) || c == '_'`). */
  predicate IsIdentChar(c: char) {
    IsAlnum(c) || c == '_'
  }

  /** A character that may start an identifier (`isalpha(c) || c == '_'`). */
  predicate IsIdentStart(c: char) {
    IsAlpha(c) || c == '_'
  }
}
