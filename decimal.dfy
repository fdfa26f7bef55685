/**
 * Decimal digit strings: how numbers are rendered into messages
 * (`${n}` of a JavaScript number or a BigNumber) and read back.
 */
module Decimal {

  predicate IsDigit(c: char) {
    '0' <= c <= '9'
  }

  predicate IsDigits(s: string) {
    forall i :: 0 <= i < |s| ==> IsDigit(s[i])
  }

  function DigitChar(d: nat): (c: char)
    requires d < 10
    ensures IsDigit(c)
  {
    "0123456789"[d]
  }

  function DigitValue(c: char): (d: nat)
    requires IsDigit(c)
    ensures d < 10
  {
    (c as int - '0' as int) as nat
  }

  /** The value of a digit string, most significant digit first; "" is 0. */
  function DigitsValue(s: string): nat
    requires IsDigits(s)
  {
    if s == [] then 0 else DigitsValue(s[..|s| - 1]) * 10 + DigitValue(s[|s| - 1])
  }

  /** The canonical decimal rendering of n: no sign, no leading zeros, "0" for zero. */
  function NatToString(n: nat): (s: string)
    ensures IsDigits(s) && s != []
    ensures |s| > 1 ==> s[0] != '0'
  {
    if n < 10 then [DigitChar(n)] else NatToString(n / 10) + [DigitChar(n % 10)]
  }

  /** An integer in plain decimal digits, with a '-' before the magnitude when negative. */
  function IntToString(i: int): (s: string)
    ensures s != [] && (s[0] == '-' <==> i < 0)
    ensures var digits := if i < 0 then s[1..] else s;
      digits != [] && IsDigits(digits) && DigitsValue(digits) == (if i < 0 then -i else i)
  {
    NatToStringRoundTrip(if i < 0 then -i else i);
    if i < 0 then "-" + NatToString(-i) else NatToString(i)
  }

  lemma DigitRoundTrip(d: nat)
    requires d < 10
    ensures DigitValue(DigitChar(d)) == d
  {
  }

  /** Reading the rendering of n gives back n. */
  lemma {:induction false} NatToStringRoundTrip(n: nat)
    ensures DigitsValue(NatToString(n)) == n
  {
    var s := NatToString(n);
    DigitRoundTrip(n % 10);
    if n >= 10 {
      NatToStringRoundTrip(n / 10);
      assert s[..|s| - 1] == NatToString(n / 10);
    }
  }

  /** Distinct numbers render differently. */
  lemma NatToStringInjective(m: nat, n: nat)
    requires NatToString(m) == NatToString(n)
    ensures m == n
  {
    NatToStringRoundTrip(m);
    NatToStringRoundTrip(n);
  }

  /** A rendering has at most d digits whenever the number is below 10^d (and d > 0). */
  lemma {:induction false} NatToStringLength(n: nat, d: nat, p: nat)
    requires d > 0 && p == Pow10(d) && n < p
    ensures |NatToString(n)| <= d
  {
    if n >= 10 {
      assert Pow10(1) == 10;
      Pow10Succ(d - 1);
      NatToStringLength(n / 10, d - 1, Pow10(d - 1));
    }
  }

  function Pow10(d: nat): (p: nat)
    ensures p >= 1
  {
    if d == 0 then 1 else 10 * Pow10(d - 1)
  }

  lemma Pow10Succ(d: nat)
    ensures Pow10(d + 1) == 10 * Pow10(d)
  {
  }

  /** Appending a zero digit multiplies the value by ten. */
  lemma AppendZero(s: string)
    requires IsDigits(s)
    ensures IsDigits(s + "0") && DigitsValue(s + "0") == DigitsValue(s) * 10
  {
    assert (s + "0")[..|s|] == s;
  }

  /** Prepending zero digits leaves the value unchanged. */
  lemma {:induction false} PrependZero(s: string)
    requires IsDigits(s)
    ensures IsDigits("0" + s) && DigitsValue("0" + s) == DigitsValue(s)
  {
    var t := "0" + s;
    if s != [] {
      assert t[..|t| - 1] == "0" + s[..|s| - 1];
      PrependZero(s[..|s| - 1]);
    } else {
      assert t[..|t| - 1] == [];
    }
  }
}
