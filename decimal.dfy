/** Decimal text of integers, as Python's `str(int)` writes it, and its inverse. */
module Decimal {

  datatype Option<+T> = None | Some(value: T)

  predicate IsDigit(c: char) {
    '0' <= c <= '9'
  }

  predicate AllDigits(s: string) {
    forall i :: 0 <= i < |s| ==> IsDigit(s[i])
  }

  function DigitChar(d: nat): (c: char)
    requires d < 10
    ensures IsDigit(c) && c as int - '0' as int == d
  {
    ('0' as int + d) as char
  }

  function DigitValue(c: char): (d: nat)
    requires IsDigit(c)
    ensures d < 10 && DigitChar(d) == c
  {
    c as int - '0' as int
  }

  /** The shortest decimal numeral of `n`: digits only, no leading zero. */
  function NatToString(n: nat): (s: string)
    ensures |s| >= 1 && AllDigits(s)
    ensures (|s| == 1) == (n < 10)
    ensures (s[0] == '0') == (n == 0)
    decreases n
  {
    if n < 10 then [DigitChar(n)] else NatToString(n / 10) + [DigitChar(n % 10)]
  }

  /** `str(n)` for a Python int: a minus sign before the numeral of |n|. */
  function IntToString(n: int): (s: string)
    ensures |s| >= 1
    ensures s[0] == '-' <==> n < 0
    ensures n < 0 ==> |s| >= 2
    ensures AllDigits(if n < 0 then s[1..] else s)
  {
    if n < 0 then "-" + NatToString(-n) else NatToString(n)
  }

  /** A numeral without a superfluous leading zero. */
  predicate IsCanonicalNumeral(s: string) {
    |s| >= 1 && AllDigits(s) && (|s| > 1 ==> s[0] != '0')
  }

  /** The value of a string of digits, read most significant digit first. */
  function DigitsValue(s: string): nat
    requires AllDigits(s)
    decreases |s|
  {
    if s == [] then 0 else DigitsValue(s[..|s| - 1]) * 10 + DigitValue(s[|s| - 1])
  }

  function ParseNat(s: string): Option<nat> {
    if IsCanonicalNumeral(s) then Some(DigitsValue(s)) else None
  }

  function ParseInt(s: string): Option<int> {
    if |s| > 0 && s[0] == '-' then
      match ParseNat(s[1..])
      case Some(m) => if m != 0 then Some(-(m as int)) else None
      case None => None
    else ParseNat(s)
  }

  lemma {:induction false} NatToStringValue(n: nat)
    ensures DigitsValue(NatToString(n)) == n
    decreases n
  {
    var s := NatToString(n);
    if n >= 10 {
      NatToStringValue(n / 10);
      assert s[..|s| - 1] == NatToString(n / 10);
    }
  }

  /** Reading the numeral of `n` back gives `n`. */
  lemma NatRoundTrip(n: nat)
    ensures ParseNat(NatToString(n)) == Some(n)
  {
    NatToStringValue(n);
  }

  lemma {:induction false} DigitsValueZero(s: string)
    requires AllDigits(s) && DigitsValue(s) == 0
    ensures forall i :: 0 <= i < |s| ==> s[i] == '0'
    decreases |s|
  {
    if s != [] {
      DigitsValueZero(s[..|s| - 1]);
      assert forall i :: 0 <= i < |s| - 1 ==> s[i] == s[..|s| - 1][i];
    }
  }

  lemma {:induction false} CanonicalIsNatToString(s: string)
    requires IsCanonicalNumeral(s)
    ensures NatToString(DigitsValue(s)) == s
    decreases |s|
  {
    var n := DigitsValue(s);
    if |s| == 1 {
      assert s == [s[0]];
    } else {
      var p := s[..|s| - 1];
      assert s == p + [s[|s| - 1]];
      assert p[0] == s[0];
      CanonicalIsNatToString(p);
      if DigitsValue(p) == 0 {
        DigitsValueZero(p);
        assert false;
      }
      assert n / 10 == DigitsValue(p) && n % 10 == DigitValue(s[|s| - 1]);
    }
  }

  /** The numerals `ParseNat` accepts are exactly the ones `NatToString` writes. */
  lemma ParseNatIsInverse(s: string, n: nat)
    ensures ParseNat(s) == Some(n) <==> s == NatToString(n)
  {
    NatRoundTrip(n);
    if ParseNat(s) == Some(n) {
      CanonicalIsNatToString(s);
    }
  }

  /** `str(n)` read back is `n`, for every integer including 0 and negatives. */
  lemma IntRoundTrip(n: int)
    ensures ParseInt(IntToString(n)) == Some(n)
  {
    if n < 0 {
      var m: nat := -n;
      var digits := NatToString(m);
      var s := "-" + digits;
      assert IntToString(n) == s;
      assert s[0] == '-' && s[1..] == digits;
      NatRoundTrip(m);
    } else {
      NatRoundTrip(n);
    }
  }
}
