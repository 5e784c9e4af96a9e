/**
 * The few pieces of Go's `strings`, `strconv` and `fmt` packages the deck tool relies on:
 * `strings.TrimSpace`, decimal digit strings (`strconv.Atoi` on what `\d` matched and `%v`
 * on an int) and Go's byte-wise string order. Strings are sequences of Unicode code points,
 * i.e. valid UTF-8 is assumed; for valid UTF-8, code-point order and byte order agree.
 */
module Text {
  import opened Wrappers

  /** unicode.IsSpace: the six ASCII spaces, U+0085, U+00A0 and the other White_Space code points. */
  predicate IsSpace(c: char) {
    c == ' ' || c == '\t' || c == '\n' || c == '\U{B}' || c == '\U{C}' || c == '\r'
    || c == '\U{85}' || c == '\U{A0}' || c == '\U{1680}'
    || ('\U{2000}' <= c <= '\U{200A}')
    || c == '\U{2028}' || c == '\U{2029}' || c == '\U{202F}' || c == '\U{205F}' || c == '\U{3000}'
  }

  predicate AllSpace(s: string) {
    forall k :: 0 <= k < |s| ==> IsSpace(s[k])
  }

  /** The first position at or after k that does not hold white space, or |s|. */
  function SpaceEnd(s: string, k: nat): (i: nat)
    requires k <= |s|
    ensures k <= i <= |s|
    decreases |s| - k
  {
    if k == |s| || !IsSpace(s[k]) then k else SpaceEnd(s, k + 1)
  }

  /** The position just past the last character of s[lo..e] that is not white space, or lo. */
  function SpaceStart(s: string, lo: nat, e: nat): (j: nat)
    requires lo <= e <= |s|
    ensures lo <= j <= e
    decreases e - lo
  {
    if e == lo || !IsSpace(s[e - 1]) then e else SpaceStart(s, lo, e - 1)
  }

  /**
   * strings.TrimSpace: white space cut from the front, then from the back. What is left is no
   * longer than s and neither starts nor ends with white space.
   */
  function TrimSpace(s: string): (r: string)
    ensures |r| <= |s|
    ensures r == [] || (!IsSpace(r[0]) && !IsSpace(r[|r| - 1]))
  {
    var i := SpaceEnd(s, 0);
    SpaceEndStops(s, 0);
    SpaceStartStops(s, i, |s|);
    s[i..SpaceStart(s, i, |s|)]
  }

  /** SpaceEnd stops at the end or at a character that is not white space. */
  lemma {:induction false} SpaceEndStops(s: string, k: nat)
    requires k <= |s|
    ensures SpaceEnd(s, k) == |s| || !IsSpace(s[SpaceEnd(s, k)])
    decreases |s| - k
  {
    if k < |s| && IsSpace(s[k]) {
      SpaceEndStops(s, k + 1);
    }
  }

  /** SpaceStart stops at lo or just after a character that is not white space. */
  lemma {:induction false} SpaceStartStops(s: string, lo: nat, e: nat)
    requires lo <= e <= |s|
    ensures SpaceStart(s, lo, e) == lo || !IsSpace(s[SpaceStart(s, lo, e) - 1])
    decreases e - lo
  {
    if e > lo && IsSpace(s[e - 1]) {
      SpaceStartStops(s, lo, e - 1);
    }
  }

  /** SpaceEnd skips white space only and stops at a character that is not. */
  lemma {:induction false} SpaceEndMeaning(s: string, k: nat)
    requires k <= |s|
    ensures forall j :: k <= j < SpaceEnd(s, k) ==> IsSpace(s[j])
    ensures SpaceEnd(s, k) == |s| || !IsSpace(s[SpaceEnd(s, k)])
    decreases |s| - k
  {
    if k < |s| && IsSpace(s[k]) {
      SpaceEndMeaning(s, k + 1);
    }
  }

  /** SpaceStart skips white space only and stops after a character that is not. */
  lemma {:induction false} SpaceStartMeaning(s: string, lo: nat, e: nat)
    requires lo <= e <= |s|
    ensures forall j :: SpaceStart(s, lo, e) <= j < e ==> IsSpace(s[j])
    ensures SpaceStart(s, lo, e) == lo || !IsSpace(s[SpaceStart(s, lo, e) - 1])
    decreases e - lo
  {
    if e > lo && IsSpace(s[e - 1]) {
      SpaceStartMeaning(s, lo, e - 1);
    }
  }

  /** A slice whose every position holds white space is all white space. */
  lemma AllSpaceSlice(s: string, lo: nat, hi: nat)
    requires lo <= hi <= |s| && forall j :: lo <= j < hi ==> IsSpace(s[j])
    ensures AllSpace(s[lo..hi])
  {
    forall k | 0 <= k < hi - lo
      ensures IsSpace(s[lo..hi][k])
    {
      assert s[lo..hi][k] == s[lo + k];
    }
  }

  /**
   * What TrimSpace keeps is a slice of s with white space only around it, and it neither
   * starts nor ends with white space.
   */
  lemma TrimSpaceIsSlice(s: string)
    ensures exists i :: 0 <= i <= |s| - |TrimSpace(s)| && TrimSpace(s) == s[i..i + |TrimSpace(s)|]
                        && AllSpace(s[..i]) && AllSpace(s[i + |TrimSpace(s)|..])
    ensures var r := TrimSpace(s); r == [] || (!IsSpace(r[0]) && !IsSpace(r[|r| - 1]))
  {
    var t := TrimSpace(s);
    var i := SpaceEnd(s, 0);
    var j := SpaceStart(s, i, |s|);
    assert t == s[i..j] && i + |t| == j;
    SpaceEndMeaning(s, 0);
    SpaceStartMeaning(s, i, |s|);
    AllSpaceSlice(s, 0, i);
    AllSpaceSlice(s, j, |s|);
    assert s[..i] == s[0..i] && s[j..] == s[j..|s|];
    assert 0 <= i <= |s| - |t| && t == s[i..i + |t|] && AllSpace(s[..i]) && AllSpace(s[i + |t|..]);
  }

  /** SpaceEnd on s + w is SpaceEnd on s when it stops inside s. */
  lemma {:induction false} SpaceEndAppend(s: string, w: string, k: nat)
    requires k <= |s|
    ensures SpaceEnd(s, k) < |s| ==> SpaceEnd(s + w, k) == SpaceEnd(s, k)
    ensures SpaceEnd(s, k) == |s| && AllSpace(w) ==> SpaceEnd(s + w, k) == |s + w|
    decreases |s| - k
  {
    if k < |s| {
      assert (s + w)[k] == s[k];
      if IsSpace(s[k]) {
        SpaceEndAppend(s, w, k + 1);
      }
    } else if AllSpace(w) {
      SpaceEndAllSpace(s + w, k);
    }
  }

  lemma {:induction false} SpaceEndAllSpace(t: string, k: nat)
    requires k <= |t| && forall j :: k <= j < |t| ==> IsSpace(t[j])
    ensures SpaceEnd(t, k) == |t|
    decreases |t| - k
  {
    if k < |t| {
      SpaceEndAllSpace(t, k + 1);
    }
  }

  /** SpaceStart passes over white space at the back without changing its answer. */
  lemma {:induction false} SpaceStartSkip(t: string, lo: nat, m: nat, e: nat)
    requires lo <= m <= e <= |t| && forall j :: m <= j < e ==> IsSpace(t[j])
    ensures SpaceStart(t, lo, e) == SpaceStart(t, lo, m)
    decreases e - m
  {
    if m < e {
      SpaceStartSkip(t, lo, m, e - 1);
    }
  }

  /** SpaceStart below |s| reads s only. */
  lemma {:induction false} SpaceStartAppend(s: string, w: string, lo: nat, e: nat)
    requires lo <= e <= |s|
    ensures SpaceStart(s + w, lo, e) == SpaceStart(s, lo, e)
    decreases e - lo
  {
    if e > lo {
      assert (s + w)[e - 1] == s[e - 1];
      SpaceStartAppend(s, w, lo, e - 1);
    }
  }

  /** Trailing white space added to a string is cut again by TrimSpace. */
  lemma TrimSpaceIgnoresTrailing(s: string, w: string)
    requires AllSpace(w)
    ensures TrimSpace(s + w) == TrimSpace(s)
  {
    var i := SpaceEnd(s, 0);
    SpaceEndAppend(s, w, 0);
    if i < |s| {
      assert forall j :: |s| <= j < |s + w| ==> (s + w)[j] == w[j - |s|];
      SpaceStartSkip(s + w, i, |s|, |s + w|);
      SpaceStartAppend(s, w, i, |s|);
      var e := SpaceStart(s, i, |s|);
      assert (s + w)[i..e] == s[i..e];
    }
  }

  /** A string that neither starts nor ends with white space is left as it is. */
  lemma TrimSpaceKeepsTrimmed(s: string)
    requires s != [] && !IsSpace(s[0]) && !IsSpace(s[|s| - 1])
    ensures TrimSpace(s) == s
  {
    assert SpaceEnd(s, 0) == 0;
    assert SpaceStart(s, 0, |s|) == |s|;
  }

  /** SpaceStart does not go below a position just after a character that is not white space. */
  lemma {:induction false} SpaceStartAbove(t: string, lo: nat, m: nat, e: nat)
    requires lo < m <= e <= |t| && !IsSpace(t[m - 1])
    ensures SpaceStart(t, lo, e) >= m
    decreases e - m
  {
    if e > m && IsSpace(t[e - 1]) {
      SpaceStartAbove(t, lo, m, e - 1);
    }
  }

  /** A string that starts with a non-space character keeps its whole start under TrimSpace. */
  lemma TrimSpaceKeepsPrefix(p: string, s: string)
    requires p != [] && !IsSpace(p[0]) && !IsSpace(p[|p| - 1])
    ensures |TrimSpace(p + s)| >= |p| && TrimSpace(p + s)[..|p|] == p
  {
    var t := p + s;
    assert t[0] == p[0] && t[|p| - 1] == p[|p| - 1];
    assert SpaceEnd(t, 0) == 0;
    SpaceStartAbove(t, 0, |p|, |t|);
    assert t[0..SpaceStart(t, 0, |t|)][..|p|] == p;
  }

  // ---- decimal digits ----

  /** `\d` in Go's regexp syntax: ASCII digits only. */
  predicate IsDigit(c: char) {
    '0' <= c <= '9'
  }

  predicate AllDigits(s: string) {
    forall k :: 0 <= k < |s| ==> IsDigit(s[k])
  }

  function DigitValue(c: char): (d: nat)
    requires IsDigit(c)
    ensures d <= 9
  {
    (c as int) - ('0' as int)
  }

  function Digit(d: nat): (c: char)
    requires d <= 9
    ensures IsDigit(c) && DigitValue(c) == d
  {
    (('0' as int) + d) as char
  }

  /** The number a string of decimal digits denotes (leading zeros allowed). */
  function DigitsValue(s: string): nat
    requires AllDigits(s)
  {
    if s == [] then 0 else DigitsValue(s[..|s| - 1]) * 10 + DigitValue(s[|s| - 1])
  }

  const MaxInt: nat := 0x7FFF_FFFF_FFFF_FFFF

  /** The error strconv.Atoi reports for a digit string too large for a 64-bit int. */
  datatype NumError = RangeError(input: string)

  /** A string starts with its first part. */
  lemma StartsWith(a: string, b: string)
    ensures a <= a + b
  {
    assert (a + b)[..|a|] == a;
  }

  function NumErrorMessage(e: NumError): string {
    "strconv.Atoi: parsing \"" + e.input + "\": value out of range"
  }

  /** strconv.Atoi on a digit string, with a 64-bit int: fails only when out of range. */
  function Atoi(s: string): (r: Result<nat, NumError>)
    requires AllDigits(s)
    ensures r.Success? <==> DigitsValue(s) <= MaxInt
    ensures r.Success? ==> r.value == DigitsValue(s)
    ensures r.Failure? ==> r.error == RangeError(s)
  {
    if DigitsValue(s) <= MaxInt then Success(DigitsValue(s)) else Failure(RangeError(s))
  }

  /** `%v` of a natural number: its shortest decimal representation. */
  function NatToString(n: nat): (s: string)
    ensures s != [] && AllDigits(s)
    ensures s[0] == '0' ==> n == 0 && s == "0"
  {
    if n < 10 then [Digit(n)] else NatToString(n / 10) + [Digit(n % 10)]
  }

  /** `%v` of an int: a minus sign before the digits of a negative number. */
  function IntToString(n: int): (s: string)
    ensures s != []
    ensures n >= 0 ==> AllDigits(s)
    ensures n < 0 ==> s[0] == '-' && AllDigits(s[1..])
  {
    if n < 0 then "-" + NatToString(-n) else NatToString(n)
  }

  /** Printing a number and reading the digits back gives the number. */
  lemma {:induction false} NatToStringRoundTrip(n: nat)
    ensures DigitsValue(NatToString(n)) == n
  {
    if n >= 10 {
      var s := NatToString(n / 10) + [Digit(n % 10)];
      assert s[..|s| - 1] == NatToString(n / 10);
      NatToStringRoundTrip(n / 10);
    }
  }

  // ---- Go's string order ----

  /** `a <= b` on Go strings: lexicographic, a prefix sorting first. */
  predicate StringLe(a: string, b: string)
    ensures a <= b ==> StringLe(a, b)
    ensures StringLe(a, b) && a != [] ==> b != [] && a[0] <= b[0]
  {
    a == [] || (b != [] && (a[0] < b[0] || (a[0] == b[0] && StringLe(a[1..], b[1..]))))
  }

  lemma {:induction false} StringLeTotal(a: string, b: string)
    ensures StringLe(a, b) || StringLe(b, a)
  {
    if a != [] && b != [] && a[0] == b[0] {
      StringLeTotal(a[1..], b[1..]);
    }
  }

  lemma {:induction false} StringLeAntisymmetric(a: string, b: string)
    requires StringLe(a, b) && StringLe(b, a)
    ensures a == b
  {
    if a != [] && b != [] {
      StringLeAntisymmetric(a[1..], b[1..]);
      assert a == [a[0]] + a[1..] && b == [b[0]] + b[1..];
    }
  }

  lemma {:induction false} StringLeTransitive(a: string, b: string, c: string)
    requires StringLe(a, b) && StringLe(b, c)
    ensures StringLe(a, c)
  {
    if a != [] && b != [] && c != [] && a[0] == b[0] && b[0] == c[0] {
      StringLeTransitive(a[1..], b[1..], c[1..]);
    }
  }
}
