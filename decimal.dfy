/**
 * Decimal rendering of integers, as Kotlin's string templates do it for an
 * `Int` (`"${n}"`): an optional leading '-' and the digits of the magnitude,
 * without leading zeros. `ParseDecimal` reads such a string back.
 */
module Decimal {

  import opened Wrappers

  predicate IsDigit(c: char)
  {
    '0' <= c <= '9'
  }

  predicate AllDigits(s: string)
  {
    forall i :: 0 <= i < |s| ==> IsDigit(s[i])
  }

  function DigitValue(c: char): (d: nat)
    requires IsDigit(c)
    ensures d < 10
  {
    c as int - '0' as int
  }

  function DigitChar(d: nat): (c: char)
    requires d < 10
    ensures IsDigit(c) && DigitValue(c) == d
  {
    ('0' as int + d) as char
  }

  function Pow10(k: nat): (p: nat)
    ensures p >= 1
  {
    if k == 0 then 1 else 10 * Pow10(k - 1)
  }

  /** The canonical digits of `n`: never empty, and a leading '0' only for zero itself. */
  function NatToDigits(n: nat): (s: string)
    ensures s != [] && AllDigits(s)
    ensures s[0] == '0' ==> n == 0 && |s| == 1
  {
    if n < 10 then [DigitChar(n)] else NatToDigits(n / 10) + [DigitChar(n % 10)]
  }

  /** Appending a digit to a positive number appends its character to the number's digits. */
  lemma AppendDigit(n: nat, d: nat)
    requires 1 <= n && d < 10
    ensures NatToDigits(10 * n + d) == NatToDigits(n) + [DigitChar(d)]
  {
    assert (10 * n + d) / 10 == n && (10 * n + d) % 10 == d;
  }

  /** The number a string of digits denotes (most significant digit first). */
  function DigitsValue(s: string): nat
    requires AllDigits(s)
  {
    if s == [] then 0 else DigitsValue(s[..|s| - 1]) * 10 + DigitValue(s[|s| - 1])
  }

  /** Kotlin's `Int.toString()`, on unbounded integers. */
  function IntToDecimal(n: int): (s: string)
    ensures s != [] && IsDigit(s[|s| - 1])
    ensures s[0] == '-' <==> n < 0
    ensures forall i :: 0 <= i < |s| ==> IsDigit(s[i]) || (i == 0 && s[i] == '-')
    ensures var magnitude := if n < 0 then s[1..] else s;
      magnitude != [] && (magnitude[0] == '0' ==> n == 0 && |magnitude| == 1)
  {
    if n < 0 then "-" + NatToDigits(-n) else NatToDigits(n)
  }

  /** Reads an optionally signed string of decimal digits. */
  function ParseDecimal(s: string): Option<int>
  {
    if |s| > 1 && s[0] == '-' && AllDigits(s[1..]) then Some(-(DigitsValue(s[1..]) as int))
    else if s != [] && AllDigits(s) then Some(DigitsValue(s))
    else None
  }

  lemma {:induction false} DigitsRoundTrip(n: nat)
    ensures DigitsValue(NatToDigits(n)) == n
  {
    if n >= 10 {
      DigitsRoundTrip(n / 10);
      var s := NatToDigits(n);
      assert s[..|s| - 1] == NatToDigits(n / 10);
    }
  }

  /** Reading back the text of any integer gives that integer. */
  lemma DecimalRoundTrip(n: int)
    ensures ParseDecimal(IntToDecimal(n)) == Some(n)
  {
    var s := IntToDecimal(n);
    if n < 0 {
      assert s[1..] == NatToDigits(-n);
      DigitsRoundTrip(-n);
    } else {
      DigitsRoundTrip(n);
    }
  }

  /** Two integers print the same exactly when they are equal. */
  lemma IntToDecimalInjective(a: int, b: int)
    ensures IntToDecimal(a) == IntToDecimal(b) <==> a == b
  {
    if IntToDecimal(a) == IntToDecimal(b) {
      DecimalRoundTrip(a);
      DecimalRoundTrip(b);
    }
  }

  /** `n` prints in at most `k` digits exactly when it is below 10^k. */
  lemma {:induction false} NatToDigitsLength(n: nat, k: nat)
    requires k >= 1
    ensures |NatToDigits(n)| <= k <==> n < Pow10(k)
  {
    if n >= 10 {
      if k == 1 {
        assert Pow10(1) == 10;
      } else {
        NatToDigitsLength(n / 10, k - 1);
        var p := Pow10(k - 1);
        assert n / 10 < p <==> n < 10 * p;
      }
    } else {
      assert Pow10(k) == 10 * Pow10(k - 1);
    }
  }

  /** A string of digits with value zero is made of zeros only. */
  lemma {:induction false} ZeroValueAllZeros(s: string)
    requires AllDigits(s) && DigitsValue(s) == 0
    ensures forall i :: 0 <= i < |s| ==> s[i] == '0'
  {
    if s != [] {
      var front := s[..|s| - 1];
      ZeroValueAllZeros(front);
      forall i | 0 <= i < |s| ensures s[i] == '0' {
        if i < |s| - 1 {
          assert s[i] == front[i];
        }
      }
    }
  }

  /**
   * Canonical digit strings (non-empty, no leading zero unless the string is
   * "0") are exactly the outputs of `NatToDigits`: printing the value of one
   * gives the same string back. Together with `DigitsRoundTrip`, the digits
   * of every number are therefore unique.
   */
  lemma {:induction false} CanonicalDigitsRoundTrip(s: string)
    requires s != [] && AllDigits(s)
    requires s[0] == '0' ==> |s| == 1
    ensures NatToDigits(DigitsValue(s)) == s
  {
    var front, last := s[..|s| - 1], s[|s| - 1];
    var v := DigitsValue(s);
    if front == [] {
      assert DigitChar(DigitValue(last)) == last;
      assert s == [last];
    } else {
      assert front[0] == s[0];
      if DigitsValue(front) == 0 {
        ZeroValueAllZeros(front);
        assert false;
      }
      assert v / 10 == DigitsValue(front) && v % 10 == DigitValue(last);
      CanonicalDigitsRoundTrip(front);
      assert DigitChar(DigitValue(last)) == last;
      assert s == front + [last];
    }
  }
}
