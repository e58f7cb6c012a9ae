/**
 * Decimal text of integers, as Java's string concatenation and Integer.toString
 * produce it, with the matching parsers used to read a stock URL back.
 */
module Decimal {
  import opened Optional

  predicate IsDigit(c: char) {
    '0' <= c <= '9'
  }

  predicate AllDigits(s: string) {
    forall i :: 0 <= i < |s| ==> IsDigit(s[i])
  }

  function DigitChar(n: int): (c: char)
    requires 0 <= n <= 9
    ensures IsDigit(c) && c as int - '0' as int == n
  {
    ('0' as int + n) as char
  }

  function DigitValue(c: char): (n: int)
    requires IsDigit(c)
    ensures 0 <= n <= 9 && DigitChar(n) == c
  {
    c as int - '0' as int
  }

  /** Decimal digits of n, most significant first, without leading zeros. */
  function NatToString(n: nat): (s: string)
    ensures |s| >= 1 && AllDigits(s)
    ensures |s| > 1 ==> s[0] != '0'
    ensures n < 10 <==> |s| == 1
  {
    if n < 10 then [DigitChar(n)] else NatToString(n / 10) + [DigitChar(n % 10)]
  }

  /** Integer.toString: a minus sign before the digits of a negative number. */
  function IntToString(i: int): (s: string)
    ensures |s| >= 1
    ensures forall k :: 0 <= k < |s| ==> IsDigit(s[k]) || s[k] == '-'
    ensures s[0] == '-' <==> i < 0
    ensures i < 0 ==> |s| >= 2 && AllDigits(s[1..]) && (|s| > 2 ==> s[1] != '0')
    ensures i >= 0 ==> AllDigits(s) && (|s| > 1 ==> s[0] != '0')
  {
    if i < 0 then "-" + NatToString(-i) else NatToString(i)
  }

  /** The value of a non-empty string of digits. */
  function DigitsValue(s: string): nat
    requires |s| >= 1 && AllDigits(s)
  {
    if |s| == 1 then DigitValue(s[0]) else 10 * DigitsValue(s[..|s| - 1]) + DigitValue(s[|s| - 1])
  }

  function ParseNat(s: string): Option<nat> {
    if |s| >= 1 && AllDigits(s) then Some(DigitsValue(s)) else None
  }

  function ParseInt(s: string): Option<int> {
    if |s| >= 1 && s[0] == '-' then
      match ParseNat(s[1..])
      case Some(n) => Some(-(n as int))
      case None => None
    else
      match ParseNat(s)
      case Some(n) => Some(n)
      case None => None
  }

  lemma {:induction false} ParseNatToString(n: nat)
    ensures ParseNat(NatToString(n)) == Some(n)
  {
    var s := NatToString(n);
    if n >= 10 {
      ParseNatToString(n / 10);
      assert s[..|s| - 1] == NatToString(n / 10);
    }
  }

  /** Reading back what Integer.toString wrote gives the same integer. */
  lemma ParseIntToString(i: int)
    ensures ParseInt(IntToString(i)) == Some(i)
  {
    if i < 0 {
      ParseNatToString(-i);
      assert IntToString(i)[1..] == NatToString(-i);
    } else {
      ParseNatToString(i);
    }
  }

  /**
   * The month and day fields of the stock URL: a "0" is put in front of a
   * value below 10, any other value is written as it is, so a field of 0..99
   * starts with "0" exactly when it was padded.
   */
  function Pad(v: int): (s: string)
    ensures 0 <= v < 100 ==> |s| == 2 && AllDigits(s)
    ensures 0 <= v < 10 ==> |s| == 2 && s[0] == '0'
    ensures 10 <= v ==> |s| >= 2 && AllDigits(s) && s[0] != '0'
  {
    if v < 10 then "0" + IntToString(v) else IntToString(v)
  }

  /** A padded field of 0..99 reads back as the same number. */
  lemma PadRoundTrip(v: int)
    requires 0 <= v < 100
    ensures ParseNat(Pad(v)) == Some(v)
  {
    if v >= 10 {
      ParseNatToString(v);
    } else {
      var s := Pad(v);
      assert s == ['0', DigitChar(v)];
      assert s[..1] == ['0'];
      assert DigitsValue(s) == 10 * DigitsValue(['0']) + DigitValue(DigitChar(v));
    }
  }
}
