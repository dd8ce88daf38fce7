/**
 * How a JavaScript integer is written into a template string or by
 * `toString()`: an optional minus sign followed by decimal digits with no
 * leading zero.  `ParseDecimal` is the inverse used to read an identifier
 * back out of a route.
 */
module Decimal {
  import opened Wrappers

  const DigitChars := "0123456789"

  predicate IsDigit(c: char) {
    '0' <= c <= '9'
  }

  function DigitChar(d: nat): (c: char)
    requires d < 10
    ensures IsDigit(c) && (c as int) - ('0' as int) == d
  {
    DigitChars[d]
  }

  /** The digits of a natural number, most significant first. */
  function Digits(n: nat): (s: string)
    ensures |s| >= 1
    ensures forall k | 0 <= k < |s| :: IsDigit(s[k])
    decreases n
  {
    if n < 10 then [DigitChar(n)] else Digits(n / 10) + [DigitChar(n % 10)]
  }

  function Decimal(i: int): (s: string)
    ensures |s| >= 1
    ensures IsDigit(s[0]) || s[0] == '-'
    ensures forall k | 0 <= k < |s| :: IsDigit(s[k]) || s[k] == '-'
  {
    if i < 0 then "-" + Digits(-i) else Digits(i)
  }

  function ParseDigits(s: string): Option<nat>
    decreases |s|
  {
    if s == [] || !IsDigit(s[|s| - 1]) then None
    else
      var d := (s[|s| - 1] as int) - ('0' as int);
      if |s| == 1 then Some(d)
      else match ParseDigits(s[..|s| - 1])
        case None => None
        case Some(n) => Some(10 * n + d)
  }

  function ParseDecimal(s: string): Option<int> {
    if |s| > 0 && s[0] == '-' then
      match ParseDigits(s[1..])
      case None => None
      case Some(n) => Some(0 - n)
    else
      match ParseDigits(s)
      case None => None
      case Some(n) => Some(n)
  }

  lemma {:induction false} DigitsRoundTrip(n: nat)
    ensures ParseDigits(Digits(n)) == Some(n)
    decreases n
  {
    if n >= 10 {
      var s := Digits(n);
      assert s[..|s| - 1] == Digits(n / 10);
      DigitsRoundTrip(n / 10);
    }
  }

  lemma ParseSigned(n: nat)
    ensures ParseDecimal("-" + Digits(n)) == Some(0 - n)
  {
    var digits := Digits(n);
    var s := "-" + digits;
    assert s[0] == '-' && s[1..] == digits;
    DigitsRoundTrip(n);
  }

  lemma ParseUnsigned(n: nat)
    ensures ParseDecimal(Digits(n)) == Some(n)
  {
    assert IsDigit(Digits(n)[0]);
    DigitsRoundTrip(n);
  }

  /** Reading back what `Decimal` wrote gives the same integer. */
  lemma DecimalRoundTrip(i: int)
    ensures ParseDecimal(Decimal(i)) == Some(i)
  {
    if i < 0 {
      ParseSigned(-i);
    } else {
      ParseUnsigned(i);
    }
  }

  /** Two identifiers render alike only if they are equal. */
  lemma DecimalInjective(i: int, j: int)
    ensures Decimal(i) == Decimal(j) <==> i == j
  {
    if Decimal(i) == Decimal(j) {
      DecimalRoundTrip(i);
      DecimalRoundTrip(j);
    }
  }
}
