/**
 * Conversion between a human-readable decimal amount and a token's
 * smallest unit, as the ethers utilities `parseUnits` and `formatUnits`
 * do it for a token with `decimals` decimal places. Only unsigned
 * amounts are modelled (the workflow only handles balances).
 */
module Units {
  import opened Options
  import opened Decimal

  predicate IsDecimalChar(c: char) {
    IsDigit(c) || c == '.'
  }

  predicate IsDecimalText(s: string) {
    forall i :: 0 <= i < |s| ==> IsDecimalChar(s[i])
  }

  /** Splits s at its first '.', giving the part before it and, when there is a point, the part after it. */
  function SplitAtPoint(s: string): (r: (string, Option<string>))
    ensures '.' !in r.0
    ensures r.1.None? ==> r.0 == s
    ensures r.1.Some? ==> s == r.0 + "." + r.1.value
  {
    if s == [] then ([], None)
    else if s[0] == '.' then ([], Some(s[1..]))
    else
      var rest := SplitAtPoint(s[1..]);
      ([s[0]] + rest.0, rest.1)
  }

  /** s without its trailing '0' characters. */
  function TrimTrailingZeros(s: string): (t: string)
    ensures |t| <= |s| && t == s[..|t|]
    ensures t == [] || t[|t| - 1] != '0'
    ensures forall i :: |t| <= i < |s| ==> s[i] == '0'
  {
    if s != [] && s[|s| - 1] == '0' then TrimTrailingZeros(s[..|s| - 1]) else s
  }

  /** s with '0' characters put in front until it is at least n long. */
  function PadLeft(s: string, n: nat): (t: string)
    ensures |t| == if |s| >= n then |s| else n
    ensures t[|t| - |s|..] == s
    ensures forall i :: 0 <= i < |t| - |s| ==> t[i] == '0'
    decreases n - |s|
  {
    if |s| >= n then s else PadLeft("0" + s, n)
  }

  /** The fraction digits kept by formatUnits: up to the last non-zero digit, or "0" when there is none. */
  function TrimFraction(s: string): (t: string)
    ensures t != []
    ensures t == "0" || t == TrimTrailingZeros(s)
  {
    var trimmed := TrimTrailingZeros(s);
    if trimmed == [] then "0" else trimmed
  }

  /**
   * parseUnits(value, decimals): the amount, in smallest units, that the
   * decimal text `value` denotes, or None where the library throws (an
   * empty text or a lone ".", a character other than a digit or a point,
   * two points, or more significant fraction digits than `decimals`).
   */
  function ParseUnits(value: string, decimals: nat): (r: Option<nat>)
    ensures r.Some? ==> value != [] && IsDecimalText(value)
  {
    if value == [] || !IsDecimalText(value) then None
    else
      var parts := SplitAtPoint(value);
      var whole := parts.0;
      assert IsDigits(whole) by {
        forall i | 0 <= i < |whole| ensures IsDigit(whole[i]) {
          assert whole[i] == value[i];
        }
      }
      match parts.1
      case None => Some(DigitsValue(whole) * Pow10(decimals))
      case Some(fraction) =>
        if '.' in fraction then None
        else if whole == [] && fraction == [] then None
        else
          assert IsDigits(fraction) by {
            forall i | 0 <= i < |fraction| ensures IsDigit(fraction[i]) {
              assert fraction[i] == value[|whole| + 1 + i];
            }
          }
          var significant := TrimTrailingZeros(fraction);
          if |significant| > decimals then None
          else Some(DigitsValue(whole) * Pow10(decimals) + DigitsValue(significant) * Pow10(decimals - |significant|))
  }

  /** Quotient and remainder of value by a positive scale. */
  function DivMod(value: nat, scale: nat): (r: (nat, nat))
    requires scale > 0
    ensures r.0 * scale + r.1 == value && r.1 < scale
  {
    (value / scale, value % scale)
  }

  /**
   * formatUnits(value, decimals): the whole part, then (when decimals > 0)
   * a point and the fraction digits without trailing zeros, at least one.
   */
  function FormatUnits(value: nat, decimals: nat): (s: string)
    ensures s != [] && IsDecimalText(s)
    ensures '.' in s <==> decimals > 0
    ensures SplitAtPoint(s).0 == NatToString(DivMod(value, Pow10(decimals)).0)
  {
    var parts := DivMod(value, Pow10(decimals));
    var whole := NatToString(parts.0);
    DigitsHaveNoPoint(whole);
    if decimals == 0 then
      NoPointSplit(whole);
      assert IsDecimalText(whole) by {
        forall i | 0 <= i < |whole| ensures IsDecimalChar(whole[i]) {
          assert IsDigit(whole[i]);
        }
      }
      whole
    else
      var padded := PadLeft(NatToString(parts.1), decimals);
      PadLeftValue(NatToString(parts.1), decimals);
      FractionDigits(padded);
      var fraction := TrimFraction(padded);
      JoinDecimal(whole, fraction);
      SplitAtPointOf(whole, fraction);
      assert (whole + "." + fraction)[|whole|] == '.';
      whole + "." + fraction
  }

  lemma FractionDigits(s: string)
    requires IsDigits(s)
    ensures IsDigits(TrimFraction(s))
  {
    var t := TrimFraction(s);
    if t != "0" {
      forall i | 0 <= i < |t| ensures IsDigit(t[i]) {
        assert t[i] == s[i];
      }
    }
  }

  /** Two digit strings joined by a point form decimal text with the point only where it was put. */
  lemma JoinDecimal(whole: string, fraction: string)
    requires IsDigits(whole) && IsDigits(fraction)
    ensures IsDecimalText(whole + "." + fraction)
    ensures '.' !in whole && '.' !in fraction
  {
    var text := whole + "." + fraction;
    forall i | 0 <= i < |text| ensures IsDecimalChar(text[i]) {
      if i < |whole| { assert text[i] == whole[i]; }
      else if i > |whole| { assert text[i] == fraction[i - |whole| - 1]; }
    }
    DigitsHaveNoPoint(whole);
    DigitsHaveNoPoint(fraction);
  }

  lemma DigitsHaveNoPoint(s: string)
    requires IsDigits(s)
    ensures '.' !in s
  {
    forall i | 0 <= i < |s| ensures s[i] != '.' {
      assert IsDigit(s[i]);
    }
  }

  /** Text without a point is all whole part. */
  lemma {:induction false} NoPointSplit(s: string)
    requires '.' !in s
    ensures SplitAtPoint(s) == (s, None)
  {
    if s != [] {
      NoPointSplit(s[1..]);
      assert [s[0]] + s[1..] == s;
    }
  }

  /** Splitting at the first point recovers a whole part that has no point in it. */
  lemma {:induction false} SplitAtPointOf(whole: string, fraction: string)
    requires '.' !in whole
    ensures SplitAtPoint(whole + "." + fraction) == (whole, Some(fraction))
  {
    var s := whole + "." + fraction;
    if whole != [] {
      assert s[1..] == whole[1..] + "." + fraction;
      SplitAtPointOf(whole[1..], fraction);
      assert [whole[0]] + whole[1..] == whole;
    } else {
      assert s[1..] == fraction;
    }
  }

  /** Multiplying by ten times a power is multiplying by the power, then by ten. */
  lemma ScaleByTen(a: nat, q: nat)
    ensures a * (10 * q) == (a * q) * 10
  {
  }

  /** Removing trailing zeros divides the value by ten once per zero removed. */
  lemma {:induction false} TrimValue(s: string)
    requires IsDigits(s)
    ensures IsDigits(TrimTrailingZeros(s))
    ensures DigitsValue(TrimTrailingZeros(s)) * Pow10(|s| - |TrimTrailingZeros(s)|) == DigitsValue(s)
  {
    if s != [] && s[|s| - 1] == '0' {
      var p := s[..|s| - 1];
      assert s == p + "0";
      TrimValue(p);
      AppendZero(p);
      var t := TrimTrailingZeros(p);
      assert t == TrimTrailingZeros(s);
      var a, k := DigitsValue(t), |p| - |t|;
      Pow10Succ(k);
      assert |s| - |t| == k + 1;
      ScaleByTen(a, Pow10(k));
    }
  }

  /** Leading zeros do not change the value. */
  lemma {:induction false} PadLeftValue(s: string, n: nat)
    requires IsDigits(s)
    ensures IsDigits(PadLeft(s, n)) && DigitsValue(PadLeft(s, n)) == DigitsValue(s)
    decreases n - |s|
  {
    if |s| < n {
      PrependZero(s);
      PadLeftValue("0" + s, n);
    }
  }

  /** Text made only of digits and at least one long parses as its value scaled by 10^decimals. */
  lemma ParseWhole(s: string, decimals: nat)
    requires s != [] && IsDigits(s)
    ensures ParseUnits(s, decimals) == Some(DigitsValue(s) * Pow10(decimals))
  {
    assert IsDecimalText(s);
    DigitsHaveNoPoint(s);
    NoPointSplit(s);
  }

  /** formatUnits and parseUnits are inverse: formatting an amount and parsing the text gives the amount back. */
  lemma ParseFormatRoundTrip(value: nat, decimals: nat)
    ensures ParseUnits(FormatUnits(value, decimals), decimals) == Some(value)
  {
    var scale := Pow10(decimals);
    var parts := DivMod(value, scale);
    var whole := NatToString(parts.0);
    NatToStringRoundTrip(parts.0);
    if decimals == 0 {
      assert FormatUnits(value, decimals) == whole;
      ParseWhole(whole, decimals);
    } else {
      FractionRoundTrip(parts.1, decimals, scale);
      var fraction := TrimFraction(PadLeft(NatToString(parts.1), decimals));
      assert FormatUnits(value, decimals) == whole + "." + fraction;
      ParseJoined(whole, fraction, decimals);
    }
  }

  /** The fraction digits formatUnits writes for a remainder below 10^decimals denote that remainder. */
  lemma FractionRoundTrip(remainder: nat, decimals: nat, scale: nat)
    requires decimals > 0 && scale == Pow10(decimals) && remainder < scale
    ensures IsDigits(TrimFraction(PadLeft(NatToString(remainder), decimals)))
    ensures var significant := TrimTrailingZeros(TrimFraction(PadLeft(NatToString(remainder), decimals)));
      IsDigits(significant) && |significant| <= decimals &&
      DigitsValue(significant) * Pow10(decimals - |significant|) == remainder
  {
    var padded := PadLeft(NatToString(remainder), decimals);
    PaddedRemainder(remainder, decimals, scale);
    FractionDigits(padded);
    TrimFractionThenTrim(padded);
    TrimValue(padded);
  }

  /** The remainder, padded to `decimals` digits, keeps its value. */
  lemma PaddedRemainder(remainder: nat, decimals: nat, scale: nat)
    requires decimals > 0 && scale == Pow10(decimals) && remainder < scale
    ensures var padded := PadLeft(NatToString(remainder), decimals);
      IsDigits(padded) && |padded| == decimals && DigitsValue(padded) == remainder
  {
    NatToStringLength(remainder, decimals, scale);
    NatToStringRoundTrip(remainder);
    PadLeftValue(NatToString(remainder), decimals);
  }

  /** Trimming trailing zeros after TrimFraction is the same as trimming them directly. */
  lemma TrimFractionThenTrim(s: string)
    ensures TrimTrailingZeros(TrimFraction(s)) == TrimTrailingZeros(s)
  {
  }

  /** parseUnits of "whole.fraction" with digit parts: the whole scaled plus the significant fraction digits scaled. */
  lemma ParseJoined(whole: string, fraction: string, decimals: nat)
    requires IsDigits(whole) && whole != [] && IsDigits(fraction)
    requires var significant := TrimTrailingZeros(fraction);
      IsDigits(significant) && |significant| <= decimals
    ensures var significant := TrimTrailingZeros(fraction);
      ParseUnits(whole + "." + fraction, decimals)
        == Some(DigitsValue(whole) * Pow10(decimals) + DigitsValue(significant) * Pow10(decimals - |significant|))
  {
    JoinDecimal(whole, fraction);
    SplitAtPointOf(whole, fraction);
  }
}
