/** String primitives the resolver relies on: the JavaScript `trim` / blank test,
    `toLowerCase` and `includes`, stated on Dafny strings: sequences of Unicode scalar
    values, where JavaScript counts UTF-16 code units. The two agree on every character
    of the Basic Multilingual Plane. */
module Text {

  /** The code points `String.prototype.trim` removes: WhiteSpace and LineTerminator
      of section 12.2 and 12.3 of ECMA-262 (tab, vertical tab, form feed, space,
      no-break space, byte order mark, the Zs category, LF, CR, LS and PS). */
  predicate IsWhitespace(c: char) {
    || c == '\t' || c == '\n' || c == '\U{000B}' || c == '\U{000C}' || c == '\r'
    || c == ' ' || c == '\U{00A0}' || c == '\U{1680}'
    || ('\U{2000}' <= c <= '\U{200A}')
    || c == '\U{2028}' || c == '\U{2029}' || c == '\U{202F}' || c == '\U{205F}'
    || c == '\U{3000}' || c == '\U{FEFF}'
  }

  /** `!s.trim()` in the source: the string is empty or consists of whitespace only. */
  predicate IsBlank(s: string) {
    forall i :: 0 <= i < |s| ==> IsWhitespace(s[i])
  }

  /** Every character of `s` at a position in `[a, b)` is whitespace. */
  predicate BlankBetween(s: string, a: int, b: int)
    requires 0 <= a && b <= |s|
  {
    forall k :: a <= k < b ==> IsWhitespace(s[k])
  }

  /** The first position at or after `i` that does not hold whitespace (or `|s|`). */
  function TrimStartIndex(s: string, i: nat): (k: nat)
    requires i <= |s|
    ensures i <= k <= |s| && BlankBetween(s, i, k)
    ensures k < |s| ==> !IsWhitespace(s[k])
    decreases |s| - i
  {
    if i < |s| && IsWhitespace(s[i]) then TrimStartIndex(s, i + 1) else i
  }

  /** The position just after the last non-whitespace character in `[lo, j)` (or `lo`). */
  function TrimEndIndex(s: string, lo: nat, j: nat): (k: nat)
    requires lo <= j <= |s|
    ensures lo <= k <= j && BlankBetween(s, k, j)
    ensures lo < k ==> !IsWhitespace(s[k - 1])
    decreases j - lo
  {
    if lo < j && IsWhitespace(s[j - 1]) then TrimEndIndex(s, lo, j - 1) else j
  }

  /** `s.trim()`: nothing is left exactly when `s` is blank, and what is left neither
      starts nor ends with whitespace. */
  function Trim(s: string): (r: string)
    ensures r != [] ==> !IsWhitespace(r[0]) && !IsWhitespace(r[|r| - 1])
    ensures r == [] <==> IsBlank(s)
  {
    var i := TrimStartIndex(s, 0);
    var j := TrimEndIndex(s, i, |s|);
    s[i..j]
  }

  /** `!s.trim()`, computed: the test the handlers apply to what the user typed. */
  method TrimIsEmpty(s: string) returns (blank: bool)
    ensures blank == IsBlank(s)
  {
    blank := Trim(s) == [];
  }

  /** `r` is `s[i..j]` and everything of `s` outside it is whitespace. */
  predicate BlankBordered(s: string, r: string, i: int, j: int) {
    0 <= i <= j <= |s| && r == s[i..j] && BlankBetween(s, 0, i) && BlankBetween(s, j, |s|)
  }

  /** What `trim` leaves is the slice of `s` between a blank prefix and a blank suffix. */
  lemma TrimSlice(s: string)
    ensures exists i, j :: BlankBordered(s, Trim(s), i, j)
  {
    var i := TrimStartIndex(s, 0);
    var j := TrimEndIndex(s, i, |s|);
    assert BlankBordered(s, Trim(s), i, j);
  }

  /** Upper-case letters whose lower-case form is the same code point plus 32:
      ASCII, Latin-1 (except the multiplication sign), the unaccented Greek capitals
      U+0391 to U+03A9 (except the unassigned U+03A2), the main Cyrillic block and
      full-width Latin. */
  predicate IsShiftUpper(c: char) {
    || ('A' <= c <= 'Z')
    || ('\U{00C0}' <= c <= '\U{00DE}' && c != '\U{00D7}')
    || ('\U{0391}' <= c <= '\U{03A9}' && c != '\U{03A2}')
    || ('\U{0410}' <= c <= '\U{042F}')
    || ('\U{FF21}' <= c <= '\U{FF3A}')
  }

  /** Per-character lower-casing; every other character (kana, kanji, digits, ...) is
      kept. JavaScript maps more than this: the accented Greek capitals, Latin
      Extended-A and other blocks, and a capital sigma at the end of a word becomes
      the final form U+03C2. */
  function LowerChar(c: char): char {
    if IsShiftUpper(c) then (c as int + 32) as char
    else if '\U{0400}' <= c <= '\U{040F}' then (c as int + 80) as char
    else c
  }

  /** `s.toLowerCase()`, as a length-preserving character map. */
  function Lower(s: string): (r: string)
    ensures |r| == |s|
    ensures forall i :: 0 <= i < |s| ==> r[i] == LowerChar(s[i])
  {
    seq(|s|, i requires 0 <= i < |s| => LowerChar(s[i]))
  }

  lemma LowerIdempotent(s: string)
    ensures Lower(Lower(s)) == Lower(s)
  {
  }

  /** A string with only ASCII characters. */
  predicate IsAscii(s: string) {
    forall i :: 0 <= i < |s| ==> s[i] as int < 128
  }

  /** A non-empty string with no ASCII character at all (a kanji or kana alias). */
  predicate IsNonAscii(s: string) {
    |s| > 0 && forall i :: 0 <= i < |s| ==> s[i] as int >= 128
  }

  /** Lower-casing never moves a character across the ASCII boundary, so it keeps
      ASCII strings ASCII and native-script strings native-script. */
  lemma LowerKeepsScript(s: string)
    ensures IsAscii(s) ==> IsAscii(Lower(s))
    ensures IsNonAscii(s) ==> IsNonAscii(Lower(s))
  {
  }

  /** `t` occurs in `s` starting at position `k`. */
  predicate OccursAt(s: string, t: string, k: int) {
    0 <= k <= |s| - |t| && s[k..k + |t|] == t
  }

  /** `s.includes(t)`: `t` occurs in `s` as a contiguous block. */
  predicate Contains(s: string, t: string) {
    exists k :: 0 <= k <= |s| - |t| && OccursAt(s, t, k)
  }
}
