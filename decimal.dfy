/**
 * Decimal text of integers as the server writes it (Go's `%d` verb) and
 * reads it (`strconv.Atoi`). `Atoi` accepts an optional sign followed by one
 * or more ASCII digits; its 64-bit range check is not modelled.
 */
module Decimal {
  import opened Wrappers
  import opened Strings

  /** One or more decimal digits and nothing else. */
  predicate AllDigits(s: string) {
    |s| >= 1 && forall i :: 0 <= i < |s| ==> IsDigit(s[i])
  }

  function DigitChar(d: nat): (c: char)
    requires d < 10
    ensures IsDigit(c)
  {
    ('0' as int + d) as char
  }

  function DigitValue(c: char): (d: nat)
    requires IsDigit(c)
    ensures d < 10 && DigitChar(d) == c
  {
    c as int - '0' as int
  }

  /** The digits of `n`, most significant first, with no leading zero. */
  function NatToDigits(n: nat): string {
    if n < 10 then [DigitChar(n)] else NatToDigits(n / 10) + [DigitChar(n % 10)]
  }

  /** `NatToDigits` writes only digits, and a leading `0` only for zero itself. */
  lemma {:induction false} NatToDigitsShape(n: nat)
    ensures AllDigits(NatToDigits(n))
    ensures NatToDigits(n)[0] == '0' ==> n == 0
  {
    if n >= 10 {
      NatToDigitsShape(n / 10);
      assert NatToDigits(n)[0] == NatToDigits(n / 10)[0];
    }
  }

  /** Go `fmt.Sprintf("%d", n)`: a minus sign for negative numbers, then the digits. */
  function FormatInt(n: int): string {
    if n < 0 then "-" + NatToDigits(-n) else NatToDigits(n)
  }

  /** `%d` writes digits only, after a minus sign exactly when the number is negative. */
  lemma FormatIntShape(n: int)
    ensures var r := FormatInt(n); |r| >= 1 && IsDigit(r[|r| - 1])
    ensures n >= 0 <==> AllDigits(FormatInt(n))
    ensures n < 0 <==> FormatInt(n)[0] == '-'
    ensures forall i :: 0 < i < |FormatInt(n)| ==> IsDigit(FormatInt(n)[i])
  {
    if n < 0 {
      NatToDigitsShape(-n);
      var r := FormatInt(n);
      assert r[0] == '-' && r[1..] == NatToDigits(-n);
    } else {
      NatToDigitsShape(n);
    }
  }

  /** The number a string of digits denotes. */
  function DigitsValue(s: string): nat
    requires forall i :: 0 <= i < |s| ==> IsDigit(s[i])
  {
    if s == [] then 0 else DigitsValue(s[..|s| - 1]) * 10 + DigitValue(s[|s| - 1])
  }

  /** Go `strconv.Atoi`, without the range check. */
  function Atoi(s: string): (r: Option<int>)
    ensures r.Some? ==> |s| >= 1 && (AllDigits(s) || ((s[0] == '+' || s[0] == '-') && AllDigits(s[1..])))
    ensures AllDigits(s) ==> r == Some(DigitsValue(s))
  {
    if |s| > 0 && (s[0] == '+' || s[0] == '-') then
      var digits := s[1..];
      if AllDigits(digits) then
        var v: int := DigitsValue(digits);
        Some(if s[0] == '-' then -v else v)
      else None
    else if AllDigits(s) then Some(DigitsValue(s))
    else None
  }

  lemma {:induction false} DigitsValueOfNatToDigits(n: nat)
    ensures AllDigits(NatToDigits(n)) && DigitsValue(NatToDigits(n)) == n
  {
    NatToDigitsShape(n);
    if n >= 10 {
      var r := NatToDigits(n);
      assert r[..|r| - 1] == NatToDigits(n / 10);
      DigitsValueOfNatToDigits(n / 10);
    }
  }

  /** `strconv.Atoi` reads back exactly the number `%d` wrote. */
  lemma AtoiFormatInt(n: int)
    ensures Atoi(FormatInt(n)) == Some(n)
  {
    FormatIntShape(n);
    if n < 0 {
      DigitsValueOfNatToDigits(-n);
      assert FormatInt(n)[1..] == NatToDigits(-n);
    } else {
      DigitsValueOfNatToDigits(n);
    }
  }

  /** A string that starts with anything but a sign or a digit (for one, a `/`) is not a number. */
  lemma AtoiRejectsLeading(s: string)
    requires |s| >= 1 && !IsDigit(s[0]) && s[0] != '+' && s[0] != '-'
    ensures Atoi(s) == None
  {
  }
}
