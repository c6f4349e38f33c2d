/** Unsigned decimal numerals: printing, reading, and Rust's `str::parse::<u64>`. */
module Decimal {
  import opened Prelude

  predicate IsDigit(c: char) {
    '0' <= c <= '9'
  }

  predicate AllDigits(text: string) {
    forall i | 0 <= i < |text| :: IsDigit(text[i])
  }

  function DigitValue(c: char): (d: nat)
    requires IsDigit(c)
    ensures d <= 9
  {
    c as int - '0' as int
  }

  function DigitChar(d: nat): (c: char)
    requires d <= 9
    ensures IsDigit(c) && DigitValue(c) == d
  {
    (d + '0' as int) as char
  }

  /** The number a digit string denotes. */
  function ValueOf(digits: string): nat
    requires AllDigits(digits)
  {
    if digits == "" then 0
    else 10 * ValueOf(digits[..|digits| - 1]) + DigitValue(digits[|digits| - 1])
  }

  /** The decimal numeral of a number, as `to_string` prints it. */
  function Numeral(n: nat): (digits: string)
    ensures digits != "" && AllDigits(digits)
    ensures n > 0 ==> digits[0] != '0'
  {
    if n < 10 then [DigitChar(n)]
    else Numeral(n / 10) + [DigitChar(n % 10)]
  }

  lemma {:induction false} ValueOfNumeral(n: nat)
    ensures ValueOf(Numeral(n)) == n
    ensures |Numeral(n)| == 1 || n >= 10
  {
    if n < 10 {
      assert Numeral(n)[..0] == "";
    } else {
      ValueOfNumeral(n / 10);
      assert Numeral(n)[..|Numeral(n)| - 1] == Numeral(n / 10);
    }
  }

  /** The length of the longest prefix made of digits. */
  function DigitRun(text: string): (n: nat)
    ensures n <= |text| && AllDigits(text[..n])
    ensures n < |text| ==> !IsDigit(text[n])
  {
    if text == "" || !IsDigit(text[0]) then 0 else
      var n := 1 + DigitRun(text[1..]);
      assert forall i | 0 < i < n :: text[..n][i] == text[1..][..n - 1][i - 1];
      n
  }

  lemma {:induction false} DigitRunOf(digits: string, rest: string)
    requires AllDigits(digits)
    requires rest == "" || !IsDigit(rest[0])
    ensures DigitRun(digits + rest) == |digits|
  {
    if digits == "" {
      assert digits + rest == rest;
    } else {
      assert (digits + rest)[1..] == digits[1..] + rest;
      DigitRunOf(digits[1..], rest);
    }
  }

  /** `text.parse::<u64>()`: an optional plus sign, at least one digit, no overflow. */
  function ParseU64(text: string): (r: Option<u64>)
  {
    var digits := if text != "" && text[0] == '+' then text[1..] else text;
    if digits == "" || !AllDigits(digits) || ValueOf(digits) > U64_MAX then None
    else Some(ValueOf(digits))
  }
}
