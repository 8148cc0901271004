/**
 * The string operations the two agents rely on: ASCII lower-casing,
 * substring search (`keyword in subject`) and decimal rendering of
 * naturals (`str(n)`, `str.zfill`), with the facts the rest of the model
 * needs about them.
 */
module Strings {

  // ---------------------------------------------------------------------------
  // Lower-casing (ASCII only)
  // ---------------------------------------------------------------------------

  predicate IsUpper(c: char) { 'A' <= c <= 'Z' }

  function LowerChar(c: char): char {
    if IsUpper(c) then (c as int + 32) as char else c
  }

  /**
   * `s.lower()` restricted to ASCII letters: no upper-case letter is left,
   * and each character differs from the original at most in its case.
   */
  function Lower(s: string): (r: string)
    ensures |r| == |s|
    ensures forall i :: 0 <= i < |r| ==> !IsUpper(r[i]) && EqualIgnoringCase(s[i], r[i])
  {
    seq(|s|, i requires 0 <= i < |s| => LowerChar(s[i]))
  }

  /** Lower-casing distributes over concatenation. */
  lemma LowerAppend(s: string, t: string)
    ensures Lower(s + t) == Lower(s) + Lower(t)
  {
    assert forall i :: 0 <= i < |s + t| ==> Lower(s + t)[i] == (Lower(s) + Lower(t))[i];
  }

  /** Two characters that are equal up to the case of an ASCII letter. */
  predicate EqualIgnoringCase(a: char, b: char) {
    a == b
    || ('a' <= a <= 'z' && b as int == a as int - 32)
    || ('A' <= a <= 'Z' && b as int == a as int + 32)
  }

  /** Strings that differ only in the case of their letters lower-case to the same string. */
  lemma LowerIgnoresCase(s: string, t: string)
    requires |s| == |t|
    requires forall i :: 0 <= i < |s| ==> EqualIgnoringCase(s[i], t[i])
    ensures Lower(s) == Lower(t)
  {
    forall i | 0 <= i < |s|
      ensures Lower(s)[i] == Lower(t)[i]
    {
      assert EqualIgnoringCase(s[i], t[i]);
    }
  }

  // ---------------------------------------------------------------------------
  // Substring search (`k in s` on Python strings)
  // ---------------------------------------------------------------------------

  /** `k` occurs in `s` at position `i`. */
  predicate OccursAt(s: string, k: string, i: int) {
    0 <= i && i + |k| <= |s| && s[i..i + |k|] == k
  }

  /**
   * Python's `k in s` for strings: `k` occurs somewhere in `s`. The empty
   * string occurs in every string, every string occurs in itself, and
   * nothing longer than `s` occurs in it.
   */
  function Contains(s: string, k: string): (found: bool)
    ensures found ==> |k| <= |s|
    ensures k == [] ==> found
    ensures k == s ==> found
  {
    assert k == [] ==> OccursAt(s, k, 0);
    assert k == s ==> s[0..|k|] == k && OccursAt(s, k, 0);
    exists i :: 0 <= i <= |s| - |k| && OccursAt(s, k, i)
  }

  /** An occurrence in `s` is still an occurrence once text is appended after `s`. */
  lemma ContainsExtendRight(s: string, t: string, k: string)
    requires Contains(s, k)
    ensures Contains(s + t, k)
  {
    var i :| 0 <= i <= |s| - |k| && OccursAt(s, k, i);
    assert (s + t)[i..i + |k|] == s[i..i + |k|];
    assert OccursAt(s + t, k, i);
  }

  /** An occurrence in `t` is still an occurrence once text is put before `t`. */
  lemma ContainsExtendLeft(s: string, t: string, k: string)
    requires Contains(t, k)
    ensures Contains(s + t, k)
  {
    var i :| 0 <= i <= |t| - |k| && OccursAt(t, k, i);
    assert (s + t)[|s| + i..|s| + i + |k|] == t[i..i + |k|];
    assert OccursAt(s + t, k, |s| + i);
  }

  /** Every character of a string found in `s` is a character of `s`. */
  lemma ContainedCharsOccur(s: string, k: string)
    ensures Contains(s, k) ==> forall j :: 0 <= j < |k| ==> k[j] in s
  {
    forall i | 0 <= i <= |s| - |k| && OccursAt(s, k, i)
      ensures forall j :: 0 <= j < |k| ==> k[j] in s
    {
      forall j | 0 <= j < |k|
        ensures k[j] in s
      {
        assert s[i + j] == k[j];
      }
    }
  }

  /** A string cannot contain a keyword that has a character the string lacks. */
  lemma MissingCharNotContained(s: string, k: string, c: char)
    requires c in k && c !in s
    ensures !Contains(s, k)
  {
    ContainedCharsOccur(s, k);
  }

  // ---------------------------------------------------------------------------
  // Decimal digits
  // ---------------------------------------------------------------------------

  predicate IsDigit(c: char) { '0' <= c <= '9' }

  predicate IsDigits(s: string) {
    forall i :: 0 <= i < |s| ==> IsDigit(s[i])
  }

  predicate HasNoDigit(s: string) {
    forall i :: 0 <= i < |s| ==> !IsDigit(s[i])
  }

  function DigitChar(d: nat): char
    requires d < 10
  {
    ('0' as int + d) as char
  }

  function DigitValue(c: char): nat
    requires IsDigit(c)
  {
    c as int - '0' as int
  }

  function Pow10(k: nat): (r: nat)
    ensures r >= 1
  {
    if k == 0 then 1 else 10 * Pow10(k - 1)
  }

  /** `str(n)` for a natural `n`: its digits, most significant first, with no leading zero. */
  function NatToDecimal(n: nat): (r: string)
    ensures 1 <= |r| && IsDigits(r)
    ensures |r| > 1 ==> r[0] != '0'
    decreases n
  {
    if n < 10 then [DigitChar(n)] else NatToDecimal(n / 10) + [DigitChar(n % 10)]
  }

  /** The number a string of decimal digits denotes (leading zeros allowed). */
  function DecimalValue(s: string): nat
    requires IsDigits(s)
  {
    if s == [] then 0 else DecimalValue(s[..|s| - 1]) * 10 + DigitValue(s[|s| - 1])
  }

  /** Reading back what `NatToDecimal` wrote gives the number again. */
  lemma {:induction false} DecimalRoundTrip(n: nat)
    ensures DecimalValue(NatToDecimal(n)) == n
    decreases n
  {
    if n >= 10 {
      DecimalRoundTrip(n / 10);
      var s := NatToDecimal(n);
      assert s[..|s| - 1] == NatToDecimal(n / 10);
    }
  }

  /** `NatToDecimal` is injective: different numbers have different renderings. */
  lemma DecimalInjective(m: nat, n: nat)
    requires NatToDecimal(m) == NatToDecimal(n)
    ensures m == n
  {
    DecimalRoundTrip(m);
    DecimalRoundTrip(n);
  }

  /** A number below 10^k takes at most k digits. */
  lemma {:induction false} DecimalLength(n: nat, k: nat)
    requires 1 <= k && n < Pow10(k)
    ensures |NatToDecimal(n)| <= k
    decreases n
  {
    if n >= 10 {
      assert k >= 2;
      DecimalLength(n / 10, k - 1);
    }
  }

  /** `n` zero characters. */
  function Zeros(n: nat): (r: string)
    ensures |r| == n && IsDigits(r)
  {
    seq(n, _ => '0')
  }

  /**
   * `s.zfill(width)` for a string without a sign: `s` stays at the end, and
   * zeros are put before it until the result is `width` long.
   */
  function ZFill(s: string, width: nat): (r: string)
    ensures |r| == if |s| >= width then |s| else width
    ensures r[|r| - |s|..] == s
    ensures forall i :: 0 <= i < |r| - |s| ==> r[i] == '0'
  {
    if |s| >= width then s else Zeros(width - |s|) + s
  }

  /** Leading zeros do not change the value of a digit string. */
  lemma {:induction false} LeadingZerosValue(j: nat, s: string)
    requires IsDigits(s)
    ensures IsDigits(Zeros(j) + s)
    ensures DecimalValue(Zeros(j) + s) == DecimalValue(s)
    decreases |s|
  {
    var z := Zeros(j) + s;
    if s == [] {
      assert z == Zeros(j);
      ZerosValue(j);
    } else {
      var init := s[..|s| - 1];
      LeadingZerosValue(j, init);
      assert z[..|z| - 1] == Zeros(j) + init;
    }
  }

  lemma {:induction false} ZerosValue(j: nat)
    ensures DecimalValue(Zeros(j)) == 0
  {
    if j > 0 {
      ZerosValue(j - 1);
      assert Zeros(j)[..j - 1] == Zeros(j - 1);
    }
  }

  /** A keyword without digits found in `p + d`, where `d` is all digits, lies within `p`. */
  lemma ContainsBeforeDigits(p: string, d: string, k: string)
    requires |k| > 0 && HasNoDigit(k) && IsDigits(d)
    requires Contains(p + d, k)
    ensures Contains(p, k)
  {
    var s := p + d;
    var i :| 0 <= i <= |s| - |k| && OccursAt(s, k, i);
    var last := i + |k| - 1;
    assert s[last] == k[|k| - 1] && !IsDigit(s[last]);
    assert forall j :: |p| <= j < |s| ==> s[j] == d[j - |p|] && IsDigit(s[j]);
    assert last < |p|;
    assert p[i..i + |k|] == s[i..i + |k|];
    assert OccursAt(p, k, i);
  }

  /** Digits are left alone by lower-casing. */
  lemma LowerDigits(d: string)
    requires IsDigits(d)
    ensures Lower(d) == d
  {
  }
}
