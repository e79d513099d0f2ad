/**
 * Character classes and string operations with the meaning Python 3 gives
 * them on `str` values: `str.isspace`, `str.lower` (restricted as noted),
 * `str.startswith`, `str.strip`, the `in` operator on strings and `str(int)`.
 */
module Text {

  /** Python's `str.isspace()` (and the `\s` class of `re` on `str` patterns). */
  predicate IsSpace(c: char) {
    || '\t' <= c <= '\r'
    || '\U{1C}' <= c <= '\U{1F}'
    || c == ' '
    || c == '\U{85}'
    || c == '\U{A0}'
    || c == '\U{1680}'
    || '\U{2000}' <= c <= '\U{200A}'
    || c == '\U{2028}'
    || c == '\U{2029}'
    || c == '\U{202F}'
    || c == '\U{205F}'
    || c == '\U{3000}'
  }

  /** The ASCII decimal digits (see README: `\d` is restricted to these). */
  predicate IsDigit(c: char) {
    '0' <= c <= '9'
  }

  predicate AllDigits(s: string) {
    forall k :: 0 <= k < |s| ==> IsDigit(s[k])
  }

  predicate AllSpace(s: string) {
    forall k :: 0 <= k < |s| ==> IsSpace(s[k])
  }

  predicate NoNewline(s: string) {
    forall k :: 0 <= k < |s| ==> s[k] != '\n'
  }

  /** `s.startswith(p)` */
  predicate StartsWith(s: string, p: string) {
    |p| <= |s| && s[..|p|] == p
  }

  /** `needle` occurs in `hay` at offset `k`. */
  predicate OccursAt(hay: string, needle: string, k: int) {
    0 <= k && k + |needle| <= |hay| && hay[k..k + |needle|] == needle
  }

  /** Python's `needle in hay` for two strings, computed by a left-to-right scan. */
  function Contains(hay: string, needle: string): (r: bool)
    ensures r <==> exists k :: OccursAt(hay, needle, k)
    decreases |hay|
  {
    if StartsWith(hay, needle) then
      assert OccursAt(hay, needle, 0);
      true
    else if |hay| <= |needle| then
      forall k: int ensures !OccursAt(hay, needle, k) {
        if 0 <= k && k + |needle| <= |hay| {
          assert k == 0 && hay[..|needle|] == hay[k..k + |needle|];
        }
      }
      false
    else
      var r := Contains(hay[1..], needle);
      assert forall k :: OccursAt(hay[1..], needle, k) ==> OccursAt(hay, needle, k + 1) by {
        forall k | OccursAt(hay[1..], needle, k) ensures OccursAt(hay, needle, k + 1) {
          assert hay[k + 1..k + 1 + |needle|] == hay[1..][k..k + |needle|];
        }
      }
      assert forall k :: OccursAt(hay, needle, k) && k > 0 ==> OccursAt(hay[1..], needle, k - 1) by {
        forall k | OccursAt(hay, needle, k) && k > 0 ensures OccursAt(hay[1..], needle, k - 1) {
          assert hay[1..][k - 1..k - 1 + |needle|] == hay[k..k + |needle|];
        }
      }
      assert !OccursAt(hay, needle, 0);
      r
  }

  /**
   * One character of `str.lower()`. Only the ASCII letters and the Latin-1
   * capitals U+00C0..U+00DE (except U+00D7) are mapped; see README.
   */
  function LowerChar(c: char): char {
    if 'A' <= c <= 'Z' || ('\U{C0}' <= c <= '\U{DE}' && c != '\U{D7}') then
      (c as int + 32) as char
    else
      c
  }

  /** `s.lower()` */
  function Lower(s: string): (r: string)
    ensures |r| == |s|
  {
    seq(|s|, k requires 0 <= k < |s| => LowerChar(s[k]))
  }

  /** Index of the first non-space character of `s` at or after `from` (`|s|` if none). */
  function SpaceEnd(s: string, from: nat): (e: nat)
    requires from <= |s|
    ensures from <= e <= |s|
    ensures AllSpace(s[from..e])
    ensures e == |s| || !IsSpace(s[e])
    decreases |s| - from
  {
    if from < |s| && IsSpace(s[from]) then
      var e := SpaceEnd(s, from + 1);
      assert s[from..e] == [s[from]] + s[from + 1..e];
      e
    else
      from
  }

  /** Index of the first non-digit character of `s` at or after `from` (`|s|` if none). */
  function DigitEnd(s: string, from: nat): (e: nat)
    requires from <= |s|
    ensures from <= e <= |s|
    ensures AllDigits(s[from..e])
    ensures e == |s| || !IsDigit(s[e])
    decreases |s| - from
  {
    if from < |s| && IsDigit(s[from]) then
      var e := DigitEnd(s, from + 1);
      assert s[from..e] == [s[from]] + s[from + 1..e];
      e
    else
      from
  }

  /** Length of the longest all-space suffix of `s`. */
  function TrailingSpace(s: string): (n: nat)
    ensures n <= |s|
    ensures AllSpace(s[|s| - n..])
    ensures n == |s| || !IsSpace(s[|s| - n - 1])
  {
    if |s| > 0 && IsSpace(s[|s| - 1]) then
      var t := s[..|s| - 1];
      var n := TrailingSpace(t);
      assert t[|t| - n..] == s[|s| - 1 - n..|s| - 1];
      assert s[|s| - (n + 1)..] == s[|s| - 1 - n..|s| - 1] + [s[|s| - 1]];
      n + 1
    else
      0
  }

  /**
   * `s.strip()`: the contiguous part of `s` left after removing the leading
   * and the trailing whitespace.
   */
  function Strip(s: string): (r: string)
    ensures exists a, b :: 0 <= a <= b <= |s| && r == s[a..b] && AllSpace(s[..a]) && AllSpace(s[b..])
    ensures r == [] || (!IsSpace(r[0]) && !IsSpace(r[|r| - 1]))
  {
    var a := SpaceEnd(s, 0);
    var rest := s[a..];
    var n := TrailingSpace(rest);
    var b := |s| - n;
    assert s[a..b] == rest[..|rest| - n];
    assert s[b..] == rest[|rest| - n..];
    assert s[..a] == s[0..a];
    assert 0 <= a <= b <= |s| && AllSpace(s[..a]) && AllSpace(s[b..]);
    assert a < b ==> s[a..b][0] == s[a] && !IsSpace(s[a]);
    assert a < b ==> s[a..b][b - a - 1] == rest[|rest| - n - 1];
    s[a..b]
  }

  /** A digit character for a value below ten. */
  function DigitChar(d: nat): char
    requires d < 10
  {
    ('0' as int + d) as char
  }

  /** Python's `str(n)` for a natural number: its decimal digits, without leading zeros. */
  function NatToString(n: nat): (r: string)
    ensures |r| >= 1 && AllDigits(r)
    ensures |r| > 1 ==> r[0] != '0'
  {
    if n < 10 then [DigitChar(n)] else NatToString(n / 10) + [DigitChar(n % 10)]
  }

  /** Python's `str(i)` for an integer. */
  function IntToString(i: int): (r: string)
    ensures |r| >= 1
  {
    if i < 0 then "-" + NatToString(-i) else NatToString(i)
  }

  /** Python's `f"{n:02d}"` for a natural number: at least two digits, zero-padded. */
  function Pad2(n: nat): (r: string)
    ensures |r| >= 2 && AllDigits(r)
    ensures n < 100 ==> |r| == 2
  {
    if n < 10 then ['0', DigitChar(n)]
    else if n < 100 then [DigitChar(n / 10), DigitChar(n % 10)]
    else NatToString(n)
  }

  /** A space run ends exactly at the first character after it that is not a space. */
  lemma SpaceEndUnique(s: string, from: nat, b: nat)
    requires from <= b <= |s| && AllSpace(s[from..b]) && (b == |s| || !IsSpace(s[b]))
    ensures SpaceEnd(s, from) == b
  {
  }

  /** A digit run ends exactly at the first character after it that is not a digit. */
  lemma DigitEndUnique(s: string, from: nat, b: nat)
    requires from <= b <= |s| && AllDigits(s[from..b]) && (b == |s| || !IsDigit(s[b]))
    ensures DigitEnd(s, from) == b
  {
  }
}
