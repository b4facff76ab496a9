/**
 * Decimal rendering of integers, as Go's `strconv.Itoa` produces it:
 * an optional minus sign followed by the digits of the magnitude, most
 * significant first, with no leading zeros ("0" for zero).
 *
 * `DecodeInt` is an independent reading of such strings; the lemmas at the
 * end prove that the two are inverse bijections between `int` and the set
 * of strings `Itoa` can produce.
 */
module Decimal {

  predicate IsDigit(c: char) {
    '0' <= c <= '9'
  }

  predicate AllDigits(s: string) {
    forall i :: 0 <= i < |s| ==> IsDigit(s[i])
  }

  /** A non-empty digit string without a leading zero (except "0" itself). */
  predicate IsCanonicalNat(s: string) {
    |s| >= 1 && AllDigits(s) && (s[0] == '0' ==> |s| == 1)
  }

  /** The strings `Itoa` can return: a canonical magnitude, negated unless it is zero. */
  predicate IsItoaImage(s: string) {
    IsCanonicalNat(s) || (|s| >= 2 && s[0] == '-' && IsCanonicalNat(s[1..]) && s[1] != '0')
  }

  function DigitChar(d: nat): (c: char)
    requires d < 10
    ensures IsDigit(c)
    ensures c as int - '0' as int == d
  {
    ('0' as int + d) as char
  }

  function DigitValue(c: char): (d: nat)
    requires IsDigit(c)
    ensures d < 10 && DigitChar(d) == c
  {
    c as int - '0' as int
  }

  /** Digits of `n`, most significant first. */
  function NatToDecimal(n: nat): (s: string)
    ensures IsCanonicalNat(s)
    ensures (s[0] == '0') == (n == 0)
    decreases n
  {
    if n < 10 then [DigitChar(n)] else NatToDecimal(n / 10) + [DigitChar(n % 10)]
  }

  /** Go's `strconv.Itoa`. */
  function Itoa(n: int): (s: string)
    ensures IsItoaImage(s)
    ensures (s[0] == '-') == (n < 0)
  {
    if n < 0 then "-" + NatToDecimal(-n) else NatToDecimal(n)
  }

  /** Value of a digit string, read most significant digit first. */
  function ParseNat(s: string): nat
    requires AllDigits(s)
    decreases |s|
  {
    if s == [] then 0 else ParseNat(s[..|s| - 1]) * 10 + DigitValue(s[|s| - 1])
  }

  function DecodeInt(s: string): int
    requires IsItoaImage(s)
  {
    if s[0] == '-' then -(ParseNat(s[1..]) as int) else ParseNat(s)
  }

  lemma {:induction false} ParseNatToDecimal(n: nat)
    ensures ParseNat(NatToDecimal(n)) == n
    decreases n
  {
    var s := NatToDecimal(n);
    if n >= 10 {
      ParseNatToDecimal(n / 10);
      assert s[..|s| - 1] == NatToDecimal(n / 10);
    }
  }

  lemma {:induction false} NatToDecimalParse(s: string)
    requires IsCanonicalNat(s)
    ensures NatToDecimal(ParseNat(s)) == s
    decreases |s|
  {
    var p, c := s[..|s| - 1], s[|s| - 1];
    var n := ParseNat(s);
    if |s| == 1 {
      assert p == [];
    } else {
      assert IsCanonicalNat(p);
      NatToDecimalParse(p);
      assert n / 10 == ParseNat(p) && n % 10 == DigitValue(c);
      assert s == p + [c];
    }
  }

  /** Reading back what `Itoa` wrote gives the original integer. */
  lemma DecodeItoa(n: int)
    ensures DecodeInt(Itoa(n)) == n
  {
    if n < 0 {
      assert Itoa(n)[1..] == NatToDecimal(-n);
      ParseNatToDecimal(-n);
    } else {
      ParseNatToDecimal(n);
    }
  }

  /** Every string of `Itoa`'s form is what `Itoa` writes for its value. */
  lemma ItoaDecode(s: string)
    requires IsItoaImage(s)
    ensures Itoa(DecodeInt(s)) == s
  {
    if s[0] == '-' {
      NatToDecimalParse(s[1..]);
      assert s == "-" + s[1..];
    } else {
      NatToDecimalParse(s);
    }
  }

  /** Distinct project ids are rendered as distinct strings. */
  lemma ItoaInjective(a: int, b: int)
    requires Itoa(a) == Itoa(b)
    ensures a == b
  {
    DecodeItoa(a);
    DecodeItoa(b);
  }
}
