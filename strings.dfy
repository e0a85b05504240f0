/** The one string helper the indentation rules rely on: finding the last
    character of a line that is not whitespace. */
module Strings {

  /** The characters the editor's string helpers skip as whitespace:
      the space and the horizontal tab. */
  predicate IsWhitespace(c: char) {
    c == ' ' || c == '\t'
  }

  /** Index of the last character of `s` that is not whitespace, or -1 when
      there is none; the text is scanned from its end towards its start. */
  function LastNonWhitespaceIndex(s: string): (r: int)
    ensures -1 <= r < |s|
    ensures r >= 0 ==> !IsWhitespace(s[r])
    ensures forall j :: r < j < |s| ==> IsWhitespace(s[j])
  {
    if |s| == 0 then -1
    else if !IsWhitespace(s[|s| - 1]) then |s| - 1
    else LastNonWhitespaceIndex(s[..|s| - 1])
  }
}
