/** White space as Python's string methods see it. */
module Text {
  /** The characters that stripping a string removes, beyond ASCII too. */
  predicate IsSpace(c: char) {
    || '\t' <= c <= '\r' || '\U{1C}' <= c <= ' ' || c == '\U{85}' || c == '\U{A0}' || c == '\U{1680}'
    || '\U{2000}' <= c <= '\U{200A}' || c == '\U{2028}' || c == '\U{2029}' || c == '\U{202F}' || c == '\U{205F}'
    || c == '\U{3000}'
  }

  /** Nothing but white space. */
  predicate IsBlank(s: string) {
    forall c :: c in s ==> IsSpace(c)
  }
}
