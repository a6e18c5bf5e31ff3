/**
 * Decimal text of integers: the parse behind CAST(... AS INTEGER) and the
 * rendering used for INTEGER cells and for partition file numbers.
 */
module Decimal {
  import opened Wrappers

  predicate IsDigit(c: char) { '0' <= c <= '9' }

  predicate AllDigits(s: string) { forall i :: 0 <= i < |s| ==> IsDigit(s[i]) }

  function DigitValue(c: char): (d: nat)
    requires IsDigit(c)
    ensures d < 10
  {
    (c as int) - ('0' as int)
  }

  function DigitChar(d: nat): (c: char)
    requires d < 10
    ensures IsDigit(c) && DigitValue(c) == d
  {
    (('0' as int) + d) as char
  }

  /** The value of a string of decimal digits, most significant first. */
  function DigitsValue(s: string): nat
    requires AllDigits(s)
  {
    if s == [] then 0 else DigitsValue(s[..|s| - 1]) * 10 + DigitValue(s[|s| - 1])
  }

  /** The shortest decimal text of a natural number. */
  function RenderNat(n: nat): (s: string)
    ensures |s| > 0 && AllDigits(s)
    ensures |s| > 1 ==> s[0] != '0'
  {
    if n < 10 then [DigitChar(n)] else RenderNat(n / 10) + [DigitChar(n % 10)]
  }

  /** Decimal text of an integer, with a leading '-' when it is negative. */
  function Render(n: int): (s: string)
    ensures |s| > 0
  {
    if n < 0 then "-" + RenderNat(-n) else RenderNat(n)
  }

  /** An optional '+' or '-' followed by one or more decimal digits. */
  function Parse(s: string): (r: Option<int>)
  {
    if |s| > 0 && (s[0] == '-' || s[0] == '+') then
      var digits := s[1..];
      if |digits| > 0 && AllDigits(digits) then
        var v: int := DigitsValue(digits);
        Some(if s[0] == '-' then -v else v)
      else None
    else if |s| > 0 && AllDigits(s) then Some(DigitsValue(s))
    else None
  }

  lemma {:induction false} RenderNatValue(n: nat)
    ensures DigitsValue(RenderNat(n)) == n
  {
    var s := RenderNat(n);
    if n >= 10 {
      RenderNatValue(n / 10);
      assert s[..|s| - 1] == RenderNat(n / 10);
    }
  }

  /** Parsing the rendering gives the number back, so rendering is injective. */
  lemma ParseRender(n: int)
    ensures Parse(Render(n)) == Some(n)
  {
    if n < 0 {
      RenderNatValue(-n);
      assert Render(n)[1..] == RenderNat(-n);
    } else {
      RenderNatValue(n);
    }
  }

  lemma RenderInjective(m: int, n: int)
    requires Render(m) == Render(n)
    ensures m == n
  {
    ParseRender(m);
    ParseRender(n);
  }
}
