/**
 * `format_number`: the short display form of a metric. Below one thousand the
 * number is written in full; from there on it is scaled to thousands, millions
 * or billions, written with one decimal and followed by "K", "M" or "B".
 */
module NumberFormat {
  import opened Decimal

  const Thousand: nat := 1000
  const Million: nat := 1000000
  const Billion: nat := 1000000000

  /**
   * `n / unit` in tenths, rounded to the nearest tenth (half a tenth rounds up):
   * the integer behind the `:.1f` rendering of `n / unit`.
   */
  function ScaledTenths(n: nat, unit: nat): nat
    requires unit > 0 && unit % 2 == 0
  {
    (10 * n + unit / 2) / unit
  }

  /** The rounded tenths are within half a tenth of `n / unit`. */
  lemma ScaledTenthsBounds(n: nat, unit: nat)
    requires unit > 0 && unit % 2 == 0
    ensures var t := ScaledTenths(n, unit);
      2 * (t * unit) <= 20 * n + unit < 2 * (t * unit) + 2 * unit
  {
  }

  /** One-decimal text of `n / unit`: the whole part, a point, the tenths digit. */
  function Mantissa(n: nat, unit: nat): string
    requires unit > 0 && unit % 2 == 0
  {
    var t := ScaledTenths(n, unit);
    NatToString(t / 10) + "." + [DigitChar(t % 10)]
  }

  /**
   * `format_number`: below one thousand the decimal text of the number, above
   * it one decimal of thousands, millions or billions and a suffix. The last
   * character tells the band the number fell in; the bands are disjoint and
   * cover all integers.
   */
  function FormatNumber(n: int): (r: string)
    ensures |r| >= 1
    ensures IsDigit(Last(r)) <==> n < Thousand
    ensures Last(r) == 'K' <==> Thousand <= n < Million
    ensures Last(r) == 'M' <==> Million <= n < Billion
    ensures Last(r) == 'B' <==> Billion <= n
  {
    if n < Thousand then IntToString(n)
    else if n < Million then Mantissa(n, Thousand) + "K"
    else if n < Billion then Mantissa(n, Million) + "M"
    else Mantissa(n, Billion) + "B"
  }

  function Last(s: string): char
    requires |s| >= 1
  {
    s[|s| - 1]
  }

  /** The unit a magnitude suffix stands for. */
  function SuffixUnit(c: char): Option<nat> {
    if c == 'K' then Some(Thousand)
    else if c == 'M' then Some(Million)
    else if c == 'B' then Some(Billion)
    else None
  }

  /**
   * Reads a scaled display string back: the suffix's unit and the number of
   * tenths of that unit the digits before it denote.
   */
  function ReadScaled(r: string): Option<(nat, nat)> {
    if |r| < 4 then None
    else
      match SuffixUnit(Last(r))
      case None => None
      case Some(unit) =>
        var body := r[..|r| - 1];
        var whole := body[..|body| - 2];
        if body[|body| - 2] != '.' || !IsDigit(Last(body)) then None
        else
          match ParseNat(whole)
          case None => None
          case Some(w) => Some((w * 10 + DigitValue(Last(body)), unit))
  }

  /** Below one thousand, including 0 and negatives, the text is exactly `str(n)`. */
  lemma FormatSmallIsDecimal(n: int)
    requires n < Thousand
    ensures ParseInt(FormatNumber(n)) == Some(n)
  {
    IntRoundTrip(n);
  }

  /** A numeral, a point, a digit and a suffix read back as tenths of the suffix's unit. */
  lemma ReadOneDecimal(whole: string, w: nat, d: nat, c: char, unit: nat)
    requires ParseNat(whole) == Some(w) && d < 10 && SuffixUnit(c) == Some(unit)
    ensures ReadScaled(whole + "." + [DigitChar(d)] + [c]) == Some((w * 10 + d, unit))
  {
    var r := whole + "." + [DigitChar(d)] + [c];
    var body := r[..|r| - 1];
    assert Last(r) == c;
    assert body == whole + "." + [DigitChar(d)];
    assert body[..|body| - 2] == whole;
    assert Last(body) == DigitChar(d);
  }

  lemma ReadMantissa(n: nat, unit: nat, c: char)
    requires unit > 0 && unit % 2 == 0 && SuffixUnit(c) == Some(unit)
    ensures ReadScaled(Mantissa(n, unit) + [c]) == Some((ScaledTenths(n, unit), unit))
    ensures var t := ScaledTenths(n, unit);
      2 * (t * unit) <= 20 * n + unit < 2 * (t * unit) + 2 * unit
  {
    var t := ScaledTenths(n, unit);
    NatRoundTrip(t / 10);
    ReadOneDecimal(NatToString(t / 10), t / 10, t % 10, c, unit);
    ScaledTenthsBounds(n, unit);
  }

  /**
   * From one thousand on, the text denotes `n` to within half a displayed tenth:
   * reading back `t` tenths of `unit`, `|t * unit / 10 - n| <= unit / 20`, and
   * the unit is the one the band of `n` calls for.
   */
  lemma ScaledIsClose(n: int)
    requires n >= Thousand
    ensures ReadScaled(FormatNumber(n)).Some?
    ensures var (t, unit) := ReadScaled(FormatNumber(n)).value;
      && unit == (if n < Million then Thousand else if n < Billion then Million else Billion)
      && -(unit as int) <= 2 * (t * unit) - 20 * n <= unit
  {
    if n < Million {
      ReadMantissa(n, Thousand, 'K');
    } else if n < Billion {
      ReadMantissa(n, Million, 'M');
    } else {
      ReadMantissa(n, Billion, 'B');
    }
  }
}
