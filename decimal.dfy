/**
 * Decimal text of a C++ `int`, as `operator<<` on an output stream writes it:
 * an optional minus sign, then the digits without leading zeros ("0" for zero).
 * `ParseDecimal` reads such text back and is the partner of `IntToDecimal`.
 */
module Decimal {
  import opened Wrappers

  predicate IsDigit(c: char) {
    '0' <= c <= '9'
  }

  predicate AllDigits(s: string) {
    forall k :: 0 <= k < |s| ==> IsDigit(s[k])
  }

  /** Canonical digit string: non-empty, and no leading zero unless it is "0". */
  predicate Canonical(s: string) {
    |s| >= 1 && AllDigits(s) && (s[0] == '0' ==> |s| == 1)
  }

  function DigitChar(d: nat): (c: char)
    requires d < 10
    ensures IsDigit(c) && (c as int) - ('0' as int) == d
  {
    (('0' as int) + d) as char
  }

  function DigitValue(c: char): (d: nat)
    requires IsDigit(c)
    ensures d < 10 && DigitChar(d) == c
  {
    (c as int) - ('0' as int)
  }

  /** Digits of a natural number, most significant first. */
  function NatToDecimal(n: nat): (s: string)
    ensures Canonical(s)
    ensures s[0] == '0' <==> n == 0
  {
    if n < 10 then [DigitChar(n)] else NatToDecimal(n / 10) + [DigitChar(n % 10)]
  }

  /** The text `out << n` writes for an integer `n`. */
  function IntToDecimal(n: int): (s: string)
    ensures |s| >= 1
    ensures s[0] == '-' <==> n < 0
    ensures n >= 0 ==> Canonical(s)
    ensures n < 0 ==> Canonical(s[1..])
  {
    if n < 0 then "-" + NatToDecimal(-n) else NatToDecimal(n)
  }

  /** Value of a digit string, most significant digit first. */
  function DigitsValue(s: string): nat
    requires AllDigits(s)
  {
    if s == [] then 0 else 10 * DigitsValue(s[..|s| - 1]) + DigitValue(s[|s| - 1])
  }

  /**
   * Reads canonical decimal text with an optional leading minus sign. It
   * accepts exactly the texts `IntToDecimal` writes.
   */
  function ParseDecimal(s: string): (r: Option<int>)
    ensures r.Some? ==> IntToDecimal(r.value) == s
  {
    if |s| >= 2 && s[0] == '-' && Canonical(s[1..]) && s[1] != '0' then
      CanonicalDigitsRoundTrip(s[1..]);
      assert s == "-" + s[1..];
      Some(0 - DigitsValue(s[1..]) as int)
    else if Canonical(s) then
      CanonicalDigitsRoundTrip(s);
      Some(DigitsValue(s))
    else None
  }

  /** Canonical digits are the decimal text of their own value. */
  lemma {:induction false} CanonicalDigitsRoundTrip(s: string)
    requires Canonical(s)
    ensures NatToDecimal(DigitsValue(s)) == s
    decreases |s|
  {
    if |s| == 1 {
      assert s[..0] == [];
    } else {
      var front := s[..|s| - 1];
      assert front[0] == s[0];
      CanonicalDigitsRoundTrip(front);
      var v := DigitsValue(front);
      var d := DigitValue(s[|s| - 1]);
      assert v != 0;
      var n := 10 * v + d;
      assert n / 10 == v && n % 10 == d;
      assert s == front + [s[|s| - 1]];
    }
  }

  lemma {:induction false} NatToDecimalValue(n: nat)
    ensures DigitsValue(NatToDecimal(n)) == n
  {
    if n >= 10 {
      var s := NatToDecimal(n);
      assert s[..|s| - 1] == NatToDecimal(n / 10);
      NatToDecimalValue(n / 10);
    }
  }

  /** Writing an integer and reading the text back gives the integer. */
  lemma IntToDecimalRoundTrip(n: int)
    ensures ParseDecimal(IntToDecimal(n)) == Some(n)
  {
    var s := IntToDecimal(n);
    if n < 0 {
      var digits := NatToDecimal(-n);
      NatToDecimalValue(-n);
      assert s == "-" + digits;
      assert s[1..] == digits;
      assert ParseDecimal(s) == Some(0 - DigitsValue(digits));
    } else {
      NatToDecimalValue(n);
      assert !(|s| >= 2 && s[0] == '-');
    }
  }

  /** Distinct integers are written as distinct texts. */
  lemma IntToDecimalInjective(m: int, n: int)
    ensures IntToDecimal(m) == IntToDecimal(n) ==> m == n
  {
    IntToDecimalRoundTrip(m);
    IntToDecimalRoundTrip(n);
  }
}
