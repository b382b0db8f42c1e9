/**
 * Decimal numerals, as they arrive in query parameters.
 *
 * `ParseInt` accepts exactly the plain integer literals: a non-empty run of
 * decimal digits, optionally preceded by one `-`. Leading zeros are allowed.
 */
module Numerals {
  import opened Wrappers

  predicate IsDigit(c: char) {
    '0' <= c <= '9'
  }

  predicate AllDigits(s: string) {
    forall i :: 0 <= i < |s| ==> IsDigit(s[i])
  }

  /** A non-empty string of decimal digits. */
  predicate IsNumeral(s: string) {
    |s| > 0 && AllDigits(s)
  }

  function DigitValue(c: char): (d: nat)
    requires IsDigit(c)
    ensures d < 10
  {
    c as int - '0' as int
  }

  function DigitChar(d: nat): (c: char)
    requires d < 10
    ensures IsDigit(c) && DigitValue(c) == d
  {
    ('0' as int + d) as char
  }

  /** The value of a digit string, most significant digit first. */
  function NumeralValue(s: string): nat
    requires AllDigits(s)
  {
    if |s| == 0 then 0 else 10 * NumeralValue(s[..|s| - 1]) + DigitValue(s[|s| - 1])
  }

  /** The shortest decimal numeral of `n`. */
  function NatToNumeral(n: nat): (s: string)
    ensures IsNumeral(s)
    decreases n
  {
    if n < 10 then [DigitChar(n)] else NatToNumeral(n / 10) + [DigitChar(n % 10)]
  }

  lemma {:induction false} NumeralValueOfNatToNumeral(n: nat)
    ensures NumeralValue(NatToNumeral(n)) == n
    decreases n
  {
    if n >= 10 {
      var s := NatToNumeral(n / 10) + [DigitChar(n % 10)];
      assert s[..|s| - 1] == NatToNumeral(n / 10);
      NumeralValueOfNatToNumeral(n / 10);
    }
  }

  function Pow10(k: nat): (p: nat)
    ensures p >= 1
  {
    if k == 0 then 1 else 10 * Pow10(k - 1)
  }

  /** A numeral has at most `k` digits exactly when its value is below 10^k. */
  lemma {:induction false} NumeralLength(n: nat, k: nat)
    requires k >= 1
    ensures |NatToNumeral(n)| <= k <==> n < Pow10(k)
    decreases n
  {
    assert Pow10(k) == 10 * Pow10(k - 1);
    if n >= 10 {
      assert |NatToNumeral(n)| == |NatToNumeral(n / 10)| + 1;
      if k == 1 {
        assert Pow10(0) == 1;
      } else {
        NumeralLength(n / 10, k - 1);
        assert n / 10 < Pow10(k - 1) <==> n < 10 * Pow10(k - 1);
      }
    }
  }

  /** Parse a plain integer literal; anything else is rejected. */
  function ParseInt(s: string): (r: Option<int>)
    ensures r.Some? <==> IsNumeral(s) || (|s| >= 2 && s[0] == '-' && IsNumeral(s[1..]))
  {
    if |s| > 0 && s[0] == '-' then
      if IsNumeral(s[1..]) then Some(-(NumeralValue(s[1..]) as int)) else None
    else if IsNumeral(s) then Some(NumeralValue(s) as int)
    else None
  }

  /** The canonical literal of an integer. */
  function IntToNumeral(i: int): (s: string)
    ensures forall k :: 0 <= k < |s| ==> IsDigit(s[k]) || s[k] == '-'
  {
    if i < 0 then "-" + NatToNumeral(-i) else NatToNumeral(i)
  }

  lemma ParseIntRoundTrip(i: int)
    ensures ParseInt(IntToNumeral(i)) == Some(i)
  {
    if i < 0 {
      var s := IntToNumeral(i);
      assert s[1..] == NatToNumeral(-i);
      NumeralValueOfNatToNumeral(-i);
    } else {
      NumeralValueOfNatToNumeral(i);
    }
  }

  /** A leading zero does not change the value of a digit string. */
  lemma {:induction false} LeadingZeroValue(s: string)
    requires AllDigits(s)
    ensures AllDigits("0" + s) && NumeralValue("0" + s) == NumeralValue(s)
    decreases |s|
  {
    var t := "0" + s;
    if |s| == 0 {
      assert t[..0] == "";
    } else {
      LeadingZeroValue(s[..|s| - 1]);
      assert t[..|t| - 1] == "0" + s[..|s| - 1];
      assert t[|t| - 1] == s[|s| - 1];
    }
  }

  /** Non-canonical literals: `007` parses as `7`, `-007` as `-7`. */
  lemma LeadingZerosIgnored(s: string)
    requires IsNumeral(s)
    ensures ParseInt("0" + s) == ParseInt(s)
    ensures ParseInt("-0" + s) == ParseInt("-" + s)
  {
    LeadingZeroValue(s);
    assert ("-0" + s)[1..] == "0" + s;
    assert ("-" + s)[1..] == s;
  }

  /** `-0` is zero. */
  lemma NegativeZero()
    ensures ParseInt("-0") == Some(0)
  {
    assert "-0"[1..] == "0";
    assert "0"[..0] == "";
  }
}
