/**
 * Decimal rendering of integers, as Go's `%d` verb writes them, and its inverse.
 */
module Decimal {
  import opened Wrappers

  function DigitChar(d: nat): (c: char)
    requires d < 10
  {
    (48 + d) as char
  }

  predicate IsDigit(c: char)
  {
    '0' <= c <= '9'
  }

  function DigitValue(c: char): (d: nat)
    requires IsDigit(c)
  {
    c as int - 48
  }

  /** The decimal digits of `n`, most significant first, with no leading zero. */
  function NatToString(n: nat): (s: string)
    ensures |s| > 0
    ensures forall i :: 0 <= i < |s| ==> IsDigit(s[i])
    ensures s[0] == '0' <==> n == 0
    ensures |s| == 1 <==> n < 10
  {
    if n < 10 then [DigitChar(n)] else NatToString(n / 10) + [DigitChar(n % 10)]
  }

  /** `%d`: a minus sign for negative numbers, then the digits of the magnitude. */
  function IntToString(i: int): (s: string)
    ensures |s| > 0 && (s[0] == '-' <==> i < 0)
  {
    if i < 0 then "-" + NatToString(-i) else NatToString(i)
  }

  /** What `%d` writes: an optional minus sign, then at least one digit, with no leading zero. */
  lemma IntToStringDigits(i: int)
    ensures var s, sign := IntToString(i), if i < 0 then 1 else 0;
      && |s| > sign
      && (forall k :: sign <= k < |s| ==> IsDigit(s[k]))
      && (|s| > sign + 1 ==> s[sign] != '0')
      && (i == 0 <==> s == "0")
  {
  }

  /** Reads a non-empty string of decimal digits. */
  function ParseNat(s: string): Option<nat>
  {
    if |s| == 0 || !IsDigit(s[|s| - 1]) then None
    else if |s| == 1 then Some(DigitValue(s[0]))
    else match ParseNat(s[..|s| - 1])
      case None => None
      case Some(high) => Some(high * 10 + DigitValue(s[|s| - 1]))
  }

  /** Reads an optionally negative decimal integer. */
  function ParseInt(s: string): Option<int>
  {
    if |s| > 0 && s[0] == '-' then
      match ParseNat(s[1..])
      case None => None
      case Some(n) => Some(0 - n as int)
    else
      match ParseNat(s)
      case None => None
      case Some(n) => Some(n)
  }

  lemma {:induction false} ParseNatToString(n: nat)
    ensures ParseNat(NatToString(n)) == Some(n)
  {
    if n >= 10 {
      var s := NatToString(n);
      assert s[..|s| - 1] == NatToString(n / 10);
      ParseNatToString(n / 10);
    }
  }

  /** Reading back what `%d` wrote gives the number. */
  lemma ParseIntToString(i: int)
    ensures ParseInt(IntToString(i)) == Some(i)
  {
    if i < 0 {
      var digits := NatToString(-i);
      var s := "-" + digits;
      assert s[0] == '-' && s[1..] == digits;
      ParseNatToString(-i);
      assert ParseInt(s) == Some(0 - (-i));
    } else {
      var digits := NatToString(i);
      assert IsDigit(digits[0]);
      ParseNatToString(i);
      assert ParseInt(digits) == Some(i);
    }
  }

  /** `%d` writes only digits and possibly a leading minus sign, never a colon. */
  lemma NoColon(i: int)
    ensures ':' !in IntToString(i)
  {
    var d := NatToString(if i < 0 then -i else i);
    assert forall k :: 0 <= k < |d| ==> d[k] != ':';
  }
}
