/**
 * Decimal text of natural numbers, as a JavaScript template literal renders
 * an integer-valued number (`${rowIndex}`): base ten, no sign, no leading
 * zeros. `StringToNat` is the inverse that shows the text is lossless.
 */
module Decimal {

  predicate IsDigit(c: char) {
    '0' <= c <= '9'
  }

  predicate AllDigits(s: string) {
    forall i :: 0 <= i < |s| ==> IsDigit(s[i])
  }

  function DigitChar(d: nat): (c: char)
    requires d < 10
    ensures IsDigit(c)
  {
    ('0' as int + d) as char
  }

  function DigitValue(c: char): (d: nat)
    requires IsDigit(c)
    ensures d < 10
  {
    c as int - '0' as int
  }

  /** The decimal text of n. */
  function NatToString(n: nat): (s: string)
    ensures |s| >= 1 && AllDigits(s)
    ensures |s| > 1 ==> s[0] != '0'
    decreases n
  {
    if n < 10 then [DigitChar(n)]
    else NatToString(n / 10) + [DigitChar(n % 10)]
  }

  /** The number a string of decimal digits denotes (most significant first). */
  function StringToNat(s: string): (n: nat)
    requires AllDigits(s)
  {
    if s == [] then 0
    else StringToNat(s[..|s| - 1]) * 10 + DigitValue(s[|s| - 1])
  }

  lemma {:induction false} StringToNatOfNatToString(n: nat)
    ensures StringToNat(NatToString(n)) == n
    decreases n
  {
    var s := NatToString(n);
    if n >= 10 {
      StringToNatOfNatToString(n / 10);
      assert s[..|s| - 1] == NatToString(n / 10);
    }
  }

  /** Distinct numbers have distinct decimal texts. */
  lemma NatToStringInjective(a: nat, b: nat)
    ensures NatToString(a) == NatToString(b) ==> a == b
  {
    StringToNatOfNatToString(a);
    StringToNatOfNatToString(b);
  }

  /** The length of the run of digits that starts a string. */
  function DigitRun(t: string): (k: nat)
    ensures k <= |t|
  {
    if t == [] || !IsDigit(t[0]) then 0 else 1 + DigitRun(t[1..])
  }

  lemma {:induction false} DigitRunOfDigitsThenText(s: string, x: string)
    requires AllDigits(s)
    requires x != [] && !IsDigit(x[0])
    ensures DigitRun(s + x) == |s|
  {
    if s != [] {
      assert (s + x)[1..] == s[1..] + x;
      DigitRunOfDigitsThenText(s[1..], x);
    }
  }

  /**
   * The decimal text of a number followed by text that starts with a
   * non-digit is read back unambiguously: the number and the tail are both
   * determined.
   */
  lemma NumberThenText(a: nat, x: string, b: nat, y: string)
    requires x != [] && !IsDigit(x[0])
    requires y != [] && !IsDigit(y[0])
    requires NatToString(a) + x == NatToString(b) + y
    ensures a == b && x == y
  {
    var sa, sb := NatToString(a), NatToString(b);
    var t := sa + x;
    DigitRunOfDigitsThenText(sa, x);
    DigitRunOfDigitsThenText(sb, y);
    assert sa == t[..|sa|] == sb;
    NatToStringInjective(a, b);
    assert x == t[|sa|..] == y;
  }
}
