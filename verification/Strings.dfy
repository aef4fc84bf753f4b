/** The white space the language runtime trims. */
module Strings {
  predicate IsSpace(c: char) {
    || '\t' <= c <= '\r' || c == ' ' || c == '\U{A0}' || c == '\U{1680}' || '\U{2000}' <= c <= '\U{200A}'
    || c == '\U{2028}' || c == '\U{2029}' || c == '\U{202F}' || c == '\U{205F}' || c == '\U{3000}' || c == '\U{FEFF}'
  }

  /** Nothing is left of the text once trimmed. */
  predicate Blank(text: string) { forall i :: 0 <= i < |text| ==> IsSpace(text[i]) }
}
