/**
 * The string tests the view models use. Kotlin's `isBlank()` holds of a
 * string whose every character is whitespace, the empty string included;
 * here whitespace is the fixed set of ASCII space characters below rather
 * than the whole of Unicode.
 */
module Text {

  /** Space, tab, line feed, vertical tab, form feed and carriage return. */
  predicate IsWhitespace(c: char)
  {
    c == ' ' || c == '\t' || c == '\n' || c == '\U{B}' || c == '\U{C}' || c == '\r'
  }

  /** Kotlin's `String.isBlank()`. */
  predicate IsBlank(s: string)
  {
    forall i :: 0 <= i < |s| ==> IsWhitespace(s[i])
  }

}
