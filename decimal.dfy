/**
 * Decimal rendering of an integer as the C "%d" conversion produces it, and
 * the matching parser. The info page's error text carries the HTTP status in
 * this form.
 */
module Decimal {
  import opened DiscoveryTypes

  predicate IsDigit(c: char) {
    '0' <= c <= '9'
  }

  predicate AllDigits(s: string) {
    forall i :: 0 <= i < |s| ==> IsDigit(s[i])
  }

  function DigitChar(d: nat): (c: char)
    requires d < 10
    ensures IsDigit(c)
  {
    (('0' as int) + d) as char
  }

  function DigitValue(c: char): (d: nat)
    requires IsDigit(c)
    ensures d < 10 && DigitChar(d) == c
  {
    (c as int) - ('0' as int)
  }

  /** The decimal digits of n, most significant first, without leading zeros. */
  function Digits(n: nat): (s: string)
    ensures |s| > 0 && AllDigits(s)
    ensures s[0] == '0' ==> n == 0 && s == "0"
    decreases n
  {
    if n < 10 then [DigitChar(n)] else Digits(n / 10) + [DigitChar(n % 10)]
  }

  /**
   * "%d": a minus sign for negative values, then the digits of the magnitude,
   * with no leading zero (zero itself is the single digit "0").
   */
  function FormatInt(n: int): (s: string)
    ensures |s| > 0
    ensures s[0] == '-' <==> n < 0
    ensures var m := if n < 0 then s[1..] else s;
      |m| > 0 && AllDigits(m) && (m[0] == '0' ==> n == 0 && m == "0")
  {
    if n < 0 then "-" + Digits(-n) else Digits(n)
  }

  function ParseNat(s: string): nat
    requires AllDigits(s)
    decreases |s|
  {
    if s == [] then 0 else ParseNat(s[..|s| - 1]) * 10 + DigitValue(s[|s| - 1])
  }

  /** Reads back what FormatInt writes; None for text that is not an optionally signed decimal. */
  function ParseInt(s: string): Option<int> {
    if |s| > 0 && AllDigits(s) then Some(ParseNat(s))
    else if |s| > 1 && s[0] == '-' && AllDigits(s[1..]) then var m: int := ParseNat(s[1..]); Some(-m)
    else None
  }

  lemma {:induction false} ParseDigits(n: nat)
    ensures ParseNat(Digits(n)) == n
    decreases n
  {
    if n >= 10 {
      var s := Digits(n);
      assert s[..|s| - 1] == Digits(n / 10);
      ParseDigits(n / 10);
    }
  }

  /** Formatting is injective: the status code can be recovered from the text. */
  lemma FormatIntRoundTrip(n: int)
    ensures ParseInt(FormatInt(n)) == Some(n)
  {
    if n < 0 {
      var d := Digits(-n);
      var s := "-" + d;
      assert s == FormatInt(n);
      assert !IsDigit(s[0]);
      assert !AllDigits(s);
      assert s[1..] == d;
      ParseDigits(-n);
    } else {
      assert FormatInt(n) == Digits(n);
      ParseDigits(n);
    }
  }
}
