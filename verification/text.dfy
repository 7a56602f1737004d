/**
 * String helpers: ASCII case folding (what JavaScript's `Headers` does to header
 * names and what a case-insensitive regular expression does to ASCII letters),
 * substring occurrence, and first/last-index scans with characterising contracts.
 */
module Text {
  import opened Wrappers

  /** ASCII lower-casing of one character; every other character is unchanged. */
  function FoldChar(c: char): char
  {
    if 'A' <= c <= 'Z' then (c as int + 32) as char else c
  }

  function Fold(s: string): (r: string)
    ensures |r| == |s|
    ensures forall k :: 0 <= k < |s| ==> r[k] == FoldChar(s[k])
  {
    seq(|s|, k requires 0 <= k < |s| => FoldChar(s[k]))
  }

  predicate IsFolded(s: string)
  {
    Fold(s) == s
  }

  lemma FoldSlice(s: string, i: int, j: int)
    requires 0 <= i <= j <= |s|
    ensures Fold(s[i..j]) == Fold(s)[i..j]
  {
  }

  lemma FoldConcat(a: string, b: string)
    ensures Fold(a + b) == Fold(a) + Fold(b)
  {
  }

  lemma FoldIdempotent(s: string)
    ensures IsFolded(Fold(s))
  {
  }

  /** The characters a JavaScript regular expression's `.` refuses to match. */
  predicate IsLineTerminator(c: char)
  {
    c == '\n' || c == '\r' || c == '\U{2028}' || c == '\U{2029}'
  }

  predicate OccursAt(s: string, p: string, i: int)
  {
    0 <= i && i + |p| <= |s| && s[i..i + |p|] == p
  }

  /** `String.prototype.includes`: `p` occurs somewhere in `s`. */
  predicate Contains(s: string, p: string)
  {
    exists i :: 0 <= i <= |s| - |p| && OccursAt(s, p, i)
  }

  predicate StartsWith(s: string, p: string)
  {
    |p| <= |s| && s[..|p|] == p
  }

  /** The first index at or after `i` whose character is in `stops`, or `|s|` if there is none. */
  function FirstIn(s: string, stops: set<char>, i: nat): (r: nat)
    requires i <= |s|
    ensures i <= r <= |s|
    ensures forall k :: i <= k < r ==> s[k] !in stops
    ensures r < |s| ==> s[r] in stops
    decreases |s| - i
  {
    if i == |s| then i
    else if s[i] in stops then i
    else FirstIn(s, stops, i + 1)
  }

  /** The first index at or after `i` whose character is NOT in `skip`, or `|s|` if there is none. */
  function FirstNotIn(s: string, skip: set<char>, i: nat): (r: nat)
    requires i <= |s|
    ensures i <= r <= |s|
    ensures forall k :: i <= k < r ==> s[k] in skip
    ensures r < |s| ==> s[r] !in skip
    decreases |s| - i
  {
    if i == |s| then i
    else if s[i] !in skip then i
    else FirstNotIn(s, skip, i + 1)
  }

  /** The position just after the last `c` in `s[..n]`, or 0 when there is none. */
  function AfterLastIndex(s: string, c: char, n: nat): (i: nat)
    requires n <= |s|
    ensures i <= n
    ensures forall k :: i <= k < n ==> s[k] != c
    ensures i > 0 ==> s[i - 1] == c
    decreases n
  {
    if n == 0 then 0 else if s[n - 1] == c then n else AfterLastIndex(s, c, n - 1)
  }

  /** What follows the last `c` in `s`; all of `s` when `c` does not occur. */
  function AfterLast(s: string, c: char): (r: string)
    ensures |r| <= |s| && r == s[|s| - |r|..]
    ensures c !in r
    ensures |r| < |s| ==> s[|s| - |r| - 1] == c
  {
    s[AfterLastIndex(s, c, |s|)..]
  }

  predicate IsDigit(c: char)
  {
    '0' <= c <= '9'
  }

  predicate IsDigits(s: string)
  {
    forall k :: 0 <= k < |s| ==> IsDigit(s[k])
  }

  /** The decimal value of a string of digits (leading zeros allowed). */
  function DigitsValue(s: string): nat
    requires IsDigits(s)
  {
    if s == [] then 0
    else 10 * DigitsValue(s[..|s| - 1]) + (s[|s| - 1] as int - '0' as int)
  }

  /** The decimal spelling of a natural number, without leading zeros. */
  function NatToString(n: nat): (r: string)
    ensures r != [] && IsDigits(r)
    ensures DigitsValue(r) == n
  {
    var d := [('0' as int + n % 10) as char];
    if n < 10 then d
    else
      var r := NatToString(n / 10) + d;
      assert r[..|r| - 1] == NatToString(n / 10);
      r
  }
}
