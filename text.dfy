/** The character-level helpers the normaliser relies on: Kotlin's
    `isBlank`/`isNotBlank`, `lowercase()` and `replaceFirstChar { it.uppercase() }`.
    Case mapping is restricted to ASCII letters; whitespace follows the JVM's
    `Char.isWhitespace()`, which accepts `Character.isWhitespace` and
    `Character.isSpaceChar` characters. */
module Text {

  /** The characters Kotlin's `Char.isWhitespace()` accepts on the JVM: the
      ASCII controls TAB, LF, VT, FF, CR and FS..US, and the Unicode space,
      line and paragraph separators (including the no-break spaces). */
  predicate IsWhitespace(c: char)
  {
    || c == ' '
    || ('\t' <= c <= '\r')
    || ('\U{1C}' <= c <= '\U{1F}')
    || c == '\U{A0}' || c == '\U{1680}'
    || ('\U{2000}' <= c <= '\U{200A}')
    || c == '\U{2028}' || c == '\U{2029}'
    || c == '\U{202F}' || c == '\U{205F}' || c == '\U{3000}'
  }

  /** Kotlin's `CharSequence.isBlank()`: empty, or made of whitespace only. */
  function IsBlank(s: string): (b: bool)
    ensures b <==> forall i :: 0 <= i < |s| ==> IsWhitespace(s[i])
  {
    if |s| == 0 then true else IsWhitespace(s[0]) && IsBlank(s[1..])
  }

  predicate IsAsciiLower(c: char) { 'a' <= c <= 'z' }

  predicate IsAsciiUpper(c: char) { 'A' <= c <= 'Z' }

  /** `Char.uppercase()`, restricted to ASCII letters. */
  function UpperChar(c: char): (u: char)
    ensures !IsAsciiLower(u)
    ensures !IsAsciiLower(c) ==> u == c
    ensures IsAsciiLower(c) ==> IsAsciiUpper(u) && (u as int) + 32 == c as int
  {
    if IsAsciiLower(c) then (c as int - 32) as char else c
  }

  /** `Char.lowercase()`, restricted to ASCII letters. */
  function LowerChar(c: char): (l: char)
    ensures !IsAsciiUpper(l)
    ensures !IsAsciiUpper(c) ==> l == c
    ensures IsAsciiUpper(c) ==> IsAsciiLower(l) && l as int == (c as int) + 32
  {
    if IsAsciiUpper(c) then (c as int + 32) as char else c
  }

  /** `String.lowercase()`: every letter lowered, length and other characters kept. */
  function LowerCase(s: string): (r: string)
    ensures |r| == |s|
    ensures forall i :: 0 <= i < |r| ==> !IsAsciiUpper(r[i])
    ensures forall i :: 0 <= i < |r| ==> (r[i] == s[i] || (IsAsciiUpper(s[i]) && r[i] as int == s[i] as int + 32))
  {
    seq(|s|, i requires 0 <= i < |s| => LowerChar(s[i]))
  }

  /** `replaceFirstChar { it.uppercase() }`: an empty string stays empty;
      otherwise only the first character is uppercased. */
  function Capitalize(s: string): (r: string)
    ensures |r| == |s|
    ensures |s| > 0 ==> !IsAsciiLower(r[0]) && r[1..] == s[1..]
    ensures |s| > 0 ==> LowerChar(r[0]) == LowerChar(s[0])
  {
    if |s| == 0 then s else [UpperChar(s[0])] + s[1..]
  }

  /** Lowercasing twice is lowercasing once. */
  lemma LowerCaseIdempotent(s: string)
    ensures LowerCase(LowerCase(s)) == LowerCase(s)
  {
  }

  /** Capitalising twice is capitalising once. */
  lemma CapitalizeIdempotent(s: string)
    ensures Capitalize(Capitalize(s)) == Capitalize(s)
  {
  }

  /** A name that already starts with a non-lowercase character is returned as it is. */
  lemma CapitalizeKeepsCapitalized(s: string)
    requires |s| == 0 || !IsAsciiLower(s[0])
    ensures Capitalize(s) == s
  {
  }
}
