/**
  Keyboard events and the two string built-ins the text overlays use:
  `str.strip()` (with Python's whitespace set) and `str.isprintable()`.
*/
module TextInput {

  /** The keys the overlays react to; every other key is `OtherKey`. */
  datatype Key = Escape | Return | Backspace | OtherKey

  /** A keyboard press with the text it produced, or any other event. */
  datatype Event = KeyDown(key: Key, unicode: string) | OtherEvent

  /** Python's `str.isspace` for one character. */
  predicate IsSpace(c: char)
  {
    || c == ' ' || ('\t' <= c <= '\r') || ('\U{1C}' <= c <= '\U{1F}')
    || c == '\U{85}' || c == '\U{A0}' || c == '\U{1680}' || ('\U{2000}' <= c <= '\U{200A}')
    || c == '\U{2028}' || c == '\U{2029}' || c == '\U{202F}' || c == '\U{205F}' || c == '\U{3000}'
  }

  /** How many whitespace characters `s` starts with. */
  function LeadingSpace(s: string): (n: nat)
    ensures n <= |s|
    ensures forall i :: 0 <= i < n ==> IsSpace(s[i])
    ensures n < |s| ==> !IsSpace(s[n])
  {
    if s != [] && IsSpace(s[0]) then 1 + LeadingSpace(s[1..]) else 0
  }

  /** How many whitespace characters `s` ends with. */
  function TrailingSpace(s: string): (n: nat)
    ensures n <= |s|
    ensures forall i :: |s| - n <= i < |s| ==> IsSpace(s[i])
    ensures n < |s| ==> !IsSpace(s[|s| - n - 1])
  {
    if s != [] && IsSpace(s[|s| - 1]) then 1 + TrailingSpace(s[..|s| - 1]) else 0
  }

  /**
    `str.strip()`: `s` without its leading and trailing whitespace. The
    result is the part of `s` after the leading whitespace, it neither starts
    nor ends with whitespace, and it is empty exactly when `s` is all
    whitespace.
  */
  function Strip(s: string): (r: string)
    ensures LeadingSpace(s) + |r| <= |s| && r == s[LeadingSpace(s)..LeadingSpace(s) + |r|]
    ensures forall i :: 0 <= i < LeadingSpace(s) ==> IsSpace(s[i])
    ensures forall i :: LeadingSpace(s) + |r| <= i < |s| ==> IsSpace(s[i])
    ensures r == [] || (!IsSpace(r[0]) && !IsSpace(r[|r| - 1]))
    ensures r == [] <==> forall i :: 0 <= i < |s| ==> IsSpace(s[i])
  {
    var k := LeadingSpace(s);
    var front := s[k..];
    var r := front[..|front| - TrailingSpace(front)];
    assert r == s[k..k + |r|];
    assert k < |s| ==> front[0] == s[k];
    r
  }

  /**
    Whether a character is printable in the sense of `str.isprintable()`:
    not a control character, not a separator other than the ASCII space,
    not a format character or a private-use character.
  */
  predicate IsPrintableChar(c: char)
  {
    && !(c < ' ')
    && !('\U{7F}' <= c <= '\U{A0}')
    && c != '\U{AD}'
    && c != '\U{1680}'
    && !('\U{2000}' <= c <= '\U{200F}')
    && !('\U{2028}' <= c <= '\U{202F}')
    && !('\U{205F}' <= c <= '\U{2064}')
    && c != '\U{3000}'
    && !('\U{E000}' <= c <= '\U{F8FF}')
    && c != '\U{FEFF}'
  }

  /** `str.isprintable()`: every character is printable (true of the empty string). */
  predicate IsPrintable(s: string)
  {
    forall i :: 0 <= i < |s| ==> IsPrintableChar(s[i])
  }

  /** `text[:-1]`: the text without its last character; empty text stays empty. */
  function DropLast(s: string): (r: string)
    ensures |s| > 0 ==> r + [s[|s| - 1]] == s
    ensures |s| == 0 ==> r == []
  {
    if |s| == 0 then [] else s[..|s| - 1]
  }

  /** Typing: the event's text is appended if it is non-empty, printable and the text is still below `limit`. */
  function Typed(text: string, unicode: string, limit: nat): (r: string)
    ensures unicode != [] && IsPrintable(unicode) && |text| < limit ==> r == text + unicode
    ensures !(unicode != [] && IsPrintable(unicode) && |text| < limit) ==> r == text
    ensures |text| <= limit && |unicode| <= 1 ==> |r| <= limit
  {
    if unicode != [] && IsPrintable(unicode) && |text| < limit then text + unicode else text
  }
}
