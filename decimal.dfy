/** Decimal text of numbers, as Go's `fmt` writes them for the verbs `%d`
    and `%.3F`, together with the readers that recover the numbers. */
module Decimal {
  import opened Errors

  predicate IsDigit(c: char) {
    '0' <= c <= '9'
  }

  predicate AllDigits(s: string) {
    forall i :: 0 <= i < |s| ==> IsDigit(s[i])
  }

  /** A character that may appear in the text of a number. */
  predicate IsNumeric(c: char) {
    IsDigit(c) || c == '-' || c == '.'
  }

  /** A character that is not numeric does not occur in numeric text. */
  lemma NotInNumeric(s: string, c: char)
    requires forall i :: 0 <= i < |s| ==> IsNumeric(s[i])
    requires !IsNumeric(c)
    ensures c !in s
  {
  }

  function DigitValue(c: char): nat
    requires IsDigit(c)
  {
    c as int - '0' as int
  }

  function DigitChar(d: nat): (c: char)
    requires d < 10
    ensures IsDigit(c) && DigitValue(c) == d
  {
    ('0' as int + d) as char
  }

  /** Decimal digits of `n`, most significant first, without leading zeros. */
  function NatToString(n: nat): (s: string)
    ensures |s| >= 1 && AllDigits(s)
    ensures s[0] == '0' ==> n == 0
  {
    if n < 10 then [DigitChar(n)] else NatToString(n / 10) + [DigitChar(n % 10)]
  }

  /** The value of a string of digits (0 for the empty string). */
  function DigitsValue(s: string): nat
    requires AllDigits(s)
  {
    if s == [] then 0 else 10 * DigitsValue(s[..|s| - 1]) + DigitValue(s[|s| - 1])
  }

  /** Reads a non-empty string of digits. */
  function ParseNat(s: string): (r: Option<nat>)
    ensures r.Some? <==> |s| > 0 && AllDigits(s)
  {
    if |s| > 0 && AllDigits(s) then Some(DigitsValue(s)) else None
  }

  lemma {:induction false} NatRoundTrip(n: nat)
    ensures ParseNat(NatToString(n)) == Some(n)
  {
    var s := NatToString(n);
    if n < 10 {
      assert s[..|s| - 1] == [];
    } else {
      NatRoundTrip(n / 10);
      assert s[..|s| - 1] == NatToString(n / 10);
      assert DigitsValue(s) == 10 * (n / 10) + n % 10;
    }
  }

  /** `fmt.Sprintf("%d", n)`. */
  function IntToString(n: int): (s: string)
    ensures |s| >= 1 && (n < 0 <==> s[0] == '-')
    ensures forall i :: 0 <= i < |s| ==> IsNumeric(s[i])
  {
    if n < 0 then "-" + NatToString(-n) else NatToString(n)
  }

  /** Reads an optionally negative decimal integer. */
  function ParseInt(s: string): Option<int> {
    if |s| > 0 && s[0] == '-' then
      match ParseNat(s[1..])
      case Some(m) => Some(-(m as int))
      case None => None
    else
      match ParseNat(s)
      case Some(m) => Some(m)
      case None => None
  }

  lemma IntRoundTrip(n: int)
    ensures ParseInt(IntToString(n)) == Some(n)
  {
    if n < 0 {
      NatRoundTrip(-n);
      assert IntToString(n)[1..] == NatToString(-n);
    } else {
      NatRoundTrip(n);
    }
  }

  /** Two numbers print alike exactly when they are equal. */
  lemma IntToStringInjective(a: int, b: int)
    ensures IntToString(a) == IntToString(b) <==> a == b
  {
    IntRoundTrip(a);
    IntRoundTrip(b);
  }

  /** Exactly three decimal digits of a number below 1000, zero-padded. */
  function ThreeDigits(f: nat): (s: string)
    requires f < 1000
    ensures |s| == 3 && AllDigits(s)
  {
    [DigitChar(f / 100), DigitChar(f / 10 % 10), DigitChar(f % 10)]
  }

  lemma ThreeDigitsRoundTrip(f: nat)
    requires f < 1000
    ensures ParseNat(ThreeDigits(f)) == Some(f)
  {
    var s := ThreeDigits(f);
    assert DigitsValue(s[..1]) == f / 100 by {
      assert s[..1][..0] == [];
    }
    assert DigitsValue(s[..2]) == f / 10 by {
      assert s[..2][..1] == s[..1];
    }
    assert s[..|s| - 1] == s[..2];
  }

  /** The digits of `m / 1000`, a point and three decimals. */
  function UnsignedThousandths(m: nat): (s: string)
    ensures |s| >= 5 && s[|s| - 4] == '.' && s[0] != '-'
    ensures forall i :: 0 <= i < |s| ==> IsNumeric(s[i])
  {
    NatToString(m / 1000) + "." + ThreeDigits(m % 1000)
  }

  /** `fmt.Sprintf("%.3F", v)` for the value `v = t / 1000`. */
  function FormatThousandths(t: int): (s: string)
    ensures |s| >= 5 && s[|s| - 4] == '.' && AllDigits(s[|s| - 3..])
    ensures forall i :: 0 <= i < |s| ==> IsNumeric(s[i])
  {
    if t < 0 then "-" + UnsignedThousandths(-t) else UnsignedThousandths(t)
  }

  /** Reads digits, a point and exactly three decimals, as thousandths. */
  function ParseUnsignedThousandths(u: string): Option<nat> {
    if |u| >= 5 && u[|u| - 4] == '.' then
      match (ParseNat(u[..|u| - 4]), ParseNat(u[|u| - 3..]))
      case (Some(whole), Some(frac)) => Some(1000 * whole + frac)
      case _ => None
    else
      None
  }

  /** Reads an optionally negative number with exactly three decimals, as
      thousandths. */
  function ParseThousandths(s: string): Option<int> {
    if |s| > 0 && s[0] == '-' then
      match ParseUnsignedThousandths(s[1..])
      case Some(m) => Some(-(m as int))
      case None => None
    else
      match ParseUnsignedThousandths(s)
      case Some(m) => Some(m as int)
      case None => None
  }

  lemma UnsignedThousandthsRoundTrip(m: nat)
    ensures ParseUnsignedThousandths(UnsignedThousandths(m)) == Some(m)
  {
    var u := UnsignedThousandths(m);
    assert u[..|u| - 4] == NatToString(m / 1000);
    assert u[|u| - 3..] == ThreeDigits(m % 1000);
    NatRoundTrip(m / 1000);
    ThreeDigitsRoundTrip(m % 1000);
  }

  lemma ThousandthsRoundTrip(t: int)
    ensures ParseThousandths(FormatThousandths(t)) == Some(t)
  {
    var s := FormatThousandths(t);
    if t < 0 {
      UnsignedThousandthsRoundTrip(-t);
      assert s[1..] == UnsignedThousandths(-t);
    } else {
      UnsignedThousandthsRoundTrip(t);
    }
  }
}
