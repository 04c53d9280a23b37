/**
  The Python string operations that the test harness and its example tests
  rely on: `str.strip()`, the `in` operator on strings, `str.replace(pat, "")`
  and `str(n)` for integers; and `Find`, the index of a character, which the
  model uses to cut `readlines()[0]` and to read a summary line back.
 */
module Text {

  /** The characters Python's `str.isspace()` accepts, and so those `str.strip()` removes. */
  predicate IsSpace(c: char) {
    var n := c as int;
    (0x09 <= n <= 0x0D) || (0x1C <= n <= 0x20) || n == 0x85 || n == 0xA0 || n == 0x1680 ||
    (0x2000 <= n <= 0x200A) || n == 0x2028 || n == 0x2029 || n == 0x202F || n == 0x205F || n == 0x3000
  }

  predicate AllSpace(s: string) {
    forall i :: 0 <= i < |s| ==> IsSpace(s[i])
  }

  /** `s` neither starts nor ends with whitespace: the shape of whatever `strip()` returns. */
  predicate IsStripped(s: string) {
    |s| == 0 || (!IsSpace(s[0]) && !IsSpace(s[|s| - 1]))
  }

  /** `s` is `t` with only whitespace around it. */
  ghost predicate Padded(s: string, t: string) {
    exists w1, w2 :: AllSpace(w1) && AllSpace(w2) && s == w1 + t + w2
  }

  /** The index of the first non-whitespace character of `s` at or after `i`, or `|s|`. */
  function SkipSpace(s: string, i: nat): (k: nat)
    requires i <= |s|
    ensures i <= k <= |s|
    ensures forall j :: i <= j < k ==> IsSpace(s[j])
    ensures k < |s| ==> !IsSpace(s[k])
    decreases |s| - i
  {
    if i < |s| && IsSpace(s[i]) then SkipSpace(s, i + 1) else i
  }

  /** The index just past the last non-whitespace character of `s` before `j`, or `i` when there is none from `i` on. */
  function SkipSpaceBack(s: string, i: nat, j: nat): (k: nat)
    requires i <= j <= |s|
    ensures i <= k <= j
    ensures forall m :: k <= m < j ==> IsSpace(s[m])
    ensures k > i ==> !IsSpace(s[k - 1])
    decreases j
  {
    if i < j && IsSpace(s[j - 1]) then SkipSpaceBack(s, i, j - 1) else j
  }

  /** Python's `s.strip()`: `s` without its surrounding whitespace. */
  function Strip(s: string): (r: string)
    ensures IsStripped(r)
    ensures Padded(s, r)
  {
    var i := SkipSpace(s, 0);
    var j := SkipSpaceBack(s, i, |s|);
    PaddedSlice(s, i, j);
    s[i..j]
  }

  /** A slice of `s` with only whitespace before and after it is `s` unpadded. */
  lemma PaddedSlice(s: string, i: nat, j: nat)
    requires i <= j <= |s|
    requires forall m :: 0 <= m < i ==> IsSpace(s[m])
    requires forall m :: j <= m < |s| ==> IsSpace(s[m])
    ensures Padded(s, s[i..j])
  {
    assert forall m :: 0 <= m < i ==> s[..i][m] == s[m];
    assert forall m :: 0 <= m < |s| - j ==> s[j..][m] == s[j + m];
    assert AllSpace(s[..i]) && AllSpace(s[j..]);
    assert s == s[..i] + s[i..j] + s[j..];
  }

  /** Leading whitespace is skipped up to the first character of `u`, when that is not whitespace. */
  lemma SkipSpacePadded(w: string, u: string)
    requires AllSpace(w)
    requires |u| == 0 || !IsSpace(u[0])
    ensures SkipSpace(w + u, 0) == |w|
  {
    assert forall j :: 0 <= j < |w| ==> (w + u)[j] == w[j];
    assert |u| > 0 ==> (w + u)[|w|] == u[0];
  }

  /** Trailing whitespace is skipped back to the last character of `u`, when that is not whitespace. */
  lemma SkipSpaceBackPadded(v: string, u: string, w: string)
    requires AllSpace(w)
    requires |u| == 0 || !IsSpace(u[|u| - 1])
    ensures SkipSpaceBack(v + u + w, |v|, |v + u + w|) == |v| + |u|
  {
    var s := v + u + w;
    assert forall m :: |v| + |u| <= m < |s| ==> s[m] == w[m - |v| - |u|];
    assert |u| > 0 ==> s[|v| + |u| - 1] == u[|u| - 1];
  }

  /** Stripping `s` gives a `t` with no whitespace at its ends exactly when `s` is `t` padded with whitespace. */
  lemma StripIsUnpadding(s: string, t: string)
    requires IsStripped(t)
    ensures Strip(s) == t <==> Padded(s, t)
  {
    if Padded(s, t) {
      var w1, w2 :| AllSpace(w1) && AllSpace(w2) && s == w1 + t + w2;
      if |t| == 0 {
        assert AllSpace(w1 + w2) && s == (w1 + w2) + t;
        SkipSpacePadded(w1 + w2, t);
      } else {
        assert s == w1 + (t + w2);
        SkipSpacePadded(w1, t + w2);
        SkipSpaceBackPadded(w1, t, w2);
        assert s[|w1|..|w1| + |t|] == t;
      }
    }
  }

  /** `pat` occurs in `s` starting at index `i`. */
  predicate OccursAt(s: string, pat: string, i: int) {
    0 <= i && i + |pat| <= |s| && s[i..i + |pat|] == pat
  }

  /** Occurrences in `s[1..]` are those of `s` that do not start at index 0, shifted by one. */
  lemma OccursAtTail(s: string, pat: string)
    requires |s| > 0
    ensures forall i :: OccursAt(s[1..], pat, i) ==> OccursAt(s, pat, i + 1)
    ensures forall i :: OccursAt(s, pat, i) && i > 0 ==> OccursAt(s[1..], pat, i - 1)
  {
  }

  /** Python's `pat in s`. */
  function Contains(s: string, pat: string): (r: bool)
    ensures r <==> exists i :: OccursAt(s, pat, i)
    ensures |pat| == 1 ==> (r <==> pat[0] in s)
    decreases |s|
  {
    if |s| < |pat| then false
    else if OccursAt(s, pat, 0) then true
    else
      OccursAtTail(s, pat);
      assert s == [s[0]] + s[1..];
      Contains(s[1..], pat)
  }

  /**
    Python's `s.replace(pat, "")` for a non-empty `pat`: one left-to-right pass
    that drops every occurrence it meets, never looking back at what it kept.
   */
  function RemoveAll(s: string, pat: string): (r: string)
    requires |pat| > 0
    ensures multiset(r) <= multiset(s)
    decreases |s|
  {
    if |s| == 0 then []
    else if OccursAt(s, pat, 0) then
      assert s == s[..|pat|] + s[|pat|..];
      RemoveAll(s[|pat|..], pat)
    else
      assert s == [s[0]] + s[1..];
      [s[0]] + RemoveAll(s[1..], pat)
  }

  /** With no occurrence of `pat`, `replace` leaves `s` as it is. */
  lemma {:induction false} RemoveAllAbsent(s: string, pat: string)
    requires |pat| > 0
    requires forall i :: !OccursAt(s, pat, i)
    ensures RemoveAll(s, pat) == s
  {
    if |s| > 0 {
      assert !OccursAt(s, pat, 0);
      OccursAtTail(s, pat);
      RemoveAllAbsent(s[1..], pat);
    }
  }

  /** When the only occurrence of `pat` in `s + pat` is the final one, `replace` drops exactly that suffix. */
  lemma {:induction false} RemoveAllSuffix(s: string, pat: string)
    requires |pat| > 0
    requires forall i :: i < |s| ==> !OccursAt(s + pat, pat, i)
    ensures RemoveAll(s + pat, pat) == s
  {
    if |s| == 0 {
      assert s + pat == pat;
      assert OccursAt(pat, pat, 0);
      assert pat[|pat|..] == [];
    } else {
      assert !OccursAt(s + pat, pat, 0);
      assert (s + pat)[1..] == s[1..] + pat;
      OccursAtTail(s + pat, pat);
      RemoveAllSuffix(s[1..], pat);
    }
  }

  /** Index of the first `c` in `s`, or `|s|` when there is none. */
  function Find(s: string, c: char): (k: nat)
    ensures k <= |s|
    ensures k < |s| ==> s[k] == c
    ensures forall j :: 0 <= j < k ==> s[j] != c
  {
    if |s| == 0 then 0
    else if s[0] == c then 0
    else 1 + Find(s[1..], c)
  }

  predicate IsDigit(c: char) {
    '0' <= c <= '9'
  }

  predicate AllDigits(s: string) {
    forall i :: 0 <= i < |s| ==> IsDigit(s[i])
  }

  function DigitChar(d: nat): (c: char)
    requires d < 10
    ensures IsDigit(c) && c as int - '0' as int == d
  {
    (d + '0' as int) as char
  }

  /** The number a string of decimal digits denotes. */
  function DecimalValue(s: string): nat
    requires AllDigits(s)
  {
    if |s| == 0 then 0
    else DecimalValue(s[..|s| - 1]) * 10 + (s[|s| - 1] as int - '0' as int)
  }

  /** Python's `str(n)` for `n >= 0`: decimal digits without leading zeros, reading back as `n`. */
  function NatToString(n: nat): (r: string)
    ensures 0 < |r| && AllDigits(r)
    ensures r[0] == '0' ==> r == "0"
    ensures DecimalValue(r) == n
  {
    if n < 10 then [DigitChar(n)]
    else
      var r := NatToString(n / 10) + [DigitChar(n % 10)];
      assert r[..|r| - 1] == NatToString(n / 10);
      r
  }

  /** Python's `str(i)`: a minus sign before the digits of `-i` for negative `i`. */
  function IntToString(i: int): (r: string)
    ensures 0 < |r|
    ensures i < 0 <==> r[0] == '-'
    ensures i < 0 ==> AllDigits(r[1..]) && DecimalValue(r[1..]) == -i
    ensures i >= 0 ==> AllDigits(r) && DecimalValue(r) == i
    ensures i >= 0 && r[0] == '0' ==> r == "0"
    ensures i < 0 ==> 1 < |r| && r[1] != '0'
  {
    if i < 0 then
      var r := "-" + NatToString(-i);
      assert r[1..] == NatToString(-i);
      r
    else NatToString(i)
  }
}
