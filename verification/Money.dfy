/** `parse_minor_units`: decimal amounts as exact integer minor units. */
module Money {
  import opened Prelude
  import opened Decimal

  /** The position of the first point, or the length. */
  function PointAt(text: string): (n: nat)
    ensures n <= |text| && '.' !in text[..n]
    ensures n < |text| ==> text[n] == '.'
  {
    if text == "" || text[0] == '.' then 0 else
      var n := 1 + PointAt(text[1..]);
      assert text[..n] == [text[0]] + text[1..][..n - 1];
      n
  }

  function Scaled(fraction: string): nat
    requires AllDigits(fraction) && |fraction| <= 2
  {
    if |fraction| == 1 then 10 * ValueOf(fraction) else ValueOf(fraction)
  }

  function ParseMinorUnits(text: string): Option<u64> {
    var point := PointAt(text);
    var whole, fraction := text[..point], if point < |text| then text[point + 1..] else "";
    if whole == "" || !AllDigits(whole) || |fraction| > 2 || !AllDigits(fraction) then None
    else if ValueOf(whole) > U64_MAX then None
    else
      var units := 100 * ValueOf(whole) + Scaled(fraction);
      if units <= U64_MAX then Some(units) else None
  }

  /** Digits, optionally followed by a point and at most two digits, and 100 times the number they denote. */
  predicate Spells(text: string, whole: string, fraction: string, n: nat) {
    && whole != "" && AllDigits(whole) && AllDigits(fraction) && |fraction| <= 2
    && (text == whole + "." + fraction || (text == whole && fraction == ""))
    && n == 100 * ValueOf(whole) + Scaled(fraction)
  }

  /** `text` is digits, optionally followed by a point and at most two digits, and 100 times
      the number it denotes is `n`. */
  ghost predicate DenotesMinorUnits(text: string, n: nat) {
    exists whole, fraction :: Spells(text, whole, fraction, n)
  }

  lemma {:induction false} PointAfter(whole: string, fraction: string)
    requires AllDigits(whole)
    ensures PointAt(whole + "." + fraction) == |whole|
    ensures PointAt(whole) == |whole|
  {
    if whole == "" {
      assert whole + "." + fraction == "." + fraction;
    } else {
      assert (whole + "." + fraction)[1..] == whole[1..] + "." + fraction;
      PointAfter(whole[1..], fraction);
    }
  }

  lemma ParsedIsSpelled(text: string, n: nat)
    requires ParseMinorUnits(text) == Some(n)
    ensures DenotesMinorUnits(text, n) && n <= U64_MAX
  {
    hide PointAt, ValueOf, Scaled;
    var point := PointAt(text);
    var whole, fraction := text[..point], if point < |text| then text[point + 1..] else "";
    assert text == whole + "." + fraction || (text == whole && fraction == "");
    assert Spells(text, whole, fraction, n);
  }

  lemma SpelledParses(text: string, whole: string, fraction: string, n: nat)
    requires Spells(text, whole, fraction, n) && n <= U64_MAX
    ensures ParseMinorUnits(text) == Some(n)
  {
    hide PointAt, ValueOf, Scaled;
    PointAfter(whole, fraction);
    assert text[..|whole|] == whole;
    assert |whole| < |text| ==> text[|whole| + 1..] == fraction;
  }

  /** The parser accepts exactly the decimal amounts that fit in 64 bits, and is exact on them. */
  lemma ParsesExactly(text: string, n: nat)
    ensures ParseMinorUnits(text) == Some(n) <==> DenotesMinorUnits(text, n) && n <= U64_MAX
  {
    hide ParseMinorUnits, Spells;
    if ParseMinorUnits(text) == Some(n) { ParsedIsSpelled(text, n); }
    if DenotesMinorUnits(text, n) && n <= U64_MAX {
      var whole, fraction :| Spells(text, whole, fraction, n);
      SpelledParses(text, whole, fraction, n);
    }
  }

  /** An amount written with two fraction digits. */
  function FormatMinorUnits(n: u64): string {
    Numeral(n / 100) + "." + [DigitChar(n / 10 % 10), DigitChar(n % 10)]
  }

  lemma TwoDigits(a: nat, b: nat)
    requires a <= 9 && b <= 9
    ensures ValueOf([DigitChar(a), DigitChar(b)]) == 10 * a + b
  {
    var s := [DigitChar(a), DigitChar(b)];
    assert s[..1] == [DigitChar(a)];
    assert s[..1][..0] == "";
    assert ValueOf(s[..1]) == a;
  }

  /** Every 64-bit amount survives formatting and parsing. */
  lemma FormatParses(n: u64)
    ensures ParseMinorUnits(FormatMinorUnits(n)) == Some(n)
  {
    hide ParseMinorUnits, PointAt, ValueOf, Numeral;
    var whole := Numeral(n / 100);
    var fraction := [DigitChar(n / 10 % 10), DigitChar(n % 10)];
    ValueOfNumeral(n / 100);
    TwoDigits(n / 10 % 10, n % 10);
    assert n == 100 * (n / 100) + 10 * (n / 10 % 10) + n % 10;
    assert FormatMinorUnits(n) == whole + "." + fraction;
    assert Spells(FormatMinorUnits(n), whole, fraction, n);
    ParsesExactly(FormatMinorUnits(n), n);
  }
}
