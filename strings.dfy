/** The three string operations the pages use: `toLowerCase` (on ASCII
    letters), `includes`, and `trim`. */
module Strings {

  predicate IsAsciiUpper(c: char) {
    'A' <= c <= 'Z'
  }

  function LowerChar(c: char): (r: char)
    ensures IsAsciiUpper(c) ==> r as int == c as int + 32
    ensures !IsAsciiUpper(c) ==> r == c
    ensures !IsAsciiUpper(r)
  {
    if IsAsciiUpper(c) then (c as int + 32) as char else c
  }

  /** `s.toLowerCase()`, folding the ASCII letters A-Z. */
  function Lower(s: string): (r: string)
    ensures |r| == |s|
    ensures forall i :: 0 <= i < |s| ==> r[i] == LowerChar(s[i])
  {
    seq(|s|, i requires 0 <= i < |s| => LowerChar(s[i]))
  }

  /** `needle` occurs in `haystack` starting at index `i`. */
  predicate OccursAt(haystack: string, needle: string, i: int) {
    0 <= i && i + |needle| <= |haystack| && haystack[i..i + |needle|] == needle
  }

  /** `haystack.includes(needle)`. */
  predicate Contains(haystack: string, needle: string) {
    exists i | 0 <= i <= |haystack| - |needle| :: OccursAt(haystack, needle, i)
  }

  /** `haystack.toLowerCase().includes(needle.toLowerCase())`, the test
      every search box of the dashboard applies. */
  predicate IncludesFolded(haystack: string, needle: string) {
    Contains(Lower(haystack), Lower(needle))
  }

  /** The empty string occurs in every string, so an empty search term
      matches every field. */
  lemma EmptyNeedleMatches(haystack: string)
    ensures Contains(haystack, "")
    ensures IncludesFolded(haystack, "")
  {
    assert OccursAt(haystack, "", 0);
    assert OccursAt(Lower(haystack), Lower(""), 0);
  }

  lemma LowerOfSlice(s: string, i: int, j: int)
    requires 0 <= i <= j <= |s|
    ensures Lower(s)[i..j] == Lower(s[i..j])
  {
  }

  /** A term that occurs verbatim in a field also matches case-insensitively. */
  lemma VerbatimMatches(haystack: string, needle: string)
    requires Contains(haystack, needle)
    ensures IncludesFolded(haystack, needle)
  {
    var i :| 0 <= i <= |haystack| - |needle| && OccursAt(haystack, needle, i);
    LowerOfSlice(haystack, i, i + |needle|);
    assert OccursAt(Lower(haystack), Lower(needle), i);
  }

  lemma LowerIdempotent(s: string)
    ensures Lower(Lower(s)) == Lower(s)
  {
  }

  /** Folding the search term first changes nothing: the match ignores the
      case of the term's letters. */
  lemma FoldedIgnoresTermCase(haystack: string, needle: string)
    ensures IncludesFolded(haystack, needle) <==> IncludesFolded(haystack, Lower(needle))
  {
    LowerIdempotent(needle);
  }

  /** The characters `String.prototype.trim` removes: WhiteSpace (section
      12.2 of ECMA-262: TAB, VT, FF, ZWNBSP and every Unicode "Zs" space) and
      LineTerminator (section 12.3: LF, CR, LS, PS). */
  predicate IsJsWhitespace(c: char) {
    var n := c as int;
    n == 0x09 || n == 0x0A || n == 0x0B || n == 0x0C || n == 0x0D || n == 0x20
    || n == 0xA0 || n == 0x1680 || (0x2000 <= n <= 0x200A)
    || n == 0x2028 || n == 0x2029 || n == 0x202F || n == 0x205F
    || n == 0x3000 || n == 0xFEFF
  }

  predicate AllWhitespace(s: string) {
    forall i :: 0 <= i < |s| ==> IsJsWhitespace(s[i])
  }

  /** Number of whitespace characters at the start of `s`. */
  function LeadingBlanks(s: string): (k: nat)
    ensures k <= |s|
    ensures forall i :: 0 <= i < k ==> IsJsWhitespace(s[i])
    ensures k < |s| ==> !IsJsWhitespace(s[k])
  {
    if s == [] || !IsJsWhitespace(s[0]) then 0
    else 1 + LeadingBlanks(s[1..])
  }

  /** Number of whitespace characters at the end of `s`. */
  function TrailingBlanks(s: string): (k: nat)
    ensures k <= |s|
    ensures forall i :: |s| - k <= i < |s| ==> IsJsWhitespace(s[i])
    ensures k < |s| ==> !IsJsWhitespace(s[|s| - 1 - k])
  {
    if s == [] || !IsJsWhitespace(s[|s| - 1]) then 0
    else
      var k := 1 + TrailingBlanks(s[..|s| - 1]);
      assert forall i :: |s| - k <= i < |s| - 1 ==> s[..|s| - 1][i] == s[i];
      k
  }

  /** `s.trim()`: the part of `s` between its leading and trailing
      whitespace. It starts at `LeadingBlanks(s)`, and every character of
      `s` outside it is whitespace. */
  function Trim(s: string): (r: string)
    ensures |r| <= |s| - LeadingBlanks(s)
    ensures r == [] || (!IsJsWhitespace(r[0]) && !IsJsWhitespace(r[|r| - 1]))
    ensures OccursAt(s, r, LeadingBlanks(s))
    ensures forall i :: 0 <= i < LeadingBlanks(s) ==> IsJsWhitespace(s[i])
    ensures forall i :: LeadingBlanks(s) + |r| <= i < |s| ==> IsJsWhitespace(s[i])
  {
    var a := LeadingBlanks(s);
    var t := s[a..];
    var b := TrailingBlanks(t);
    var r := t[..|t| - b];
    assert forall i :: a + |r| <= i < |s| ==> s[i] == t[i - a];
    r
  }

  /** `!s.trim()`: the trimmed string is empty exactly when every character
      of `s` is whitespace. */
  lemma TrimEmptyIffBlank(s: string)
    ensures Trim(s) == "" <==> AllWhitespace(s)
  {
    var a := LeadingBlanks(s);
    if Trim(s) != "" {
      assert s[a] == Trim(s)[0];
    }
  }

  /** How many UTF-16 code units encode `c` (section 6.1.4 of ECMA-262):
      one for a character of the Basic Multilingual Plane, two (a surrogate
      pair) for any other. */
  function CodeUnits(c: char): (n: nat)
    ensures n == 1 <==> c as int <= 0xFFFF
    ensures n == 2 <==> c as int > 0xFFFF
  {
    if c as int <= 0xFFFF then 1 else 2
  }

  /** `s.length`: the number of UTF-16 code units of `s`, which exceeds its
      number of characters by one for each character outside the Basic
      Multilingual Plane. */
  function Utf16Length(s: string): (n: nat)
    ensures |s| <= n <= 2 * |s|
    ensures n == 0 <==> s == []
    ensures (forall i :: 0 <= i < |s| ==> s[i] as int <= 0xFFFF) ==> n == |s|
  {
    if s == [] then 0
    else
      assert forall i :: 1 <= i < |s| ==> s[1..][i - 1] == s[i];
      CodeUnits(s[0]) + Utf16Length(s[1..])
  }

  /** The length of a concatenation is the sum of the lengths. */
  lemma {:induction false} Utf16LengthAppend(s: string, t: string)
    ensures Utf16Length(s + t) == Utf16Length(s) + Utf16Length(t)
  {
    if s != [] {
      assert (s + t)[0] == s[0];
      assert (s + t)[1..] == s[1..] + t;
      Utf16LengthAppend(s[1..], t);
    } else {
      assert s + t == t;
    }
  }
}
