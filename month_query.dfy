/**
 * The `month` query parameter of the monthly views: a string "YYYY-MM"
 * that the request schema checks against `^\d{4}-(0[1-9]|1[0-2])$` and
 * that the handlers split at '-' into a year and a zero-based month
 * (`Number(month.split('-')[1]) - 1`).
 */
module MonthQuery {
  import opened Common

  predicate IsDigit(c: char) {
    '0' <= c <= '9'
  }

  predicate AllDigits(s: string) {
    forall i :: 0 <= i < |s| ==> IsDigit(s[i])
  }

  function Pow10(k: nat): (p: nat)
    ensures p >= 1
  {
    if k == 0 then 1 else Pow10(k - 1) * 10
  }

  /** `Number(s)` on a string of decimal digits. */
  function Number(s: string): (n: nat)
    requires AllDigits(s)
    ensures n < Pow10(|s|)
  {
    if s == [] then 0
    else Number(s[..|s| - 1]) * 10 + (s[|s| - 1] as int - '0' as int)
  }

  /** The request schema's month pattern `^\d{4}-(0[1-9]|1[0-2])$`. */
  predicate MatchesMonthPattern(s: string) {
    && |s| == 7
    && AllDigits(s[..4])
    && s[4] == '-'
    && ((s[5] == '0' && '1' <= s[6] <= '9') || (s[5] == '1' && '0' <= s[6] <= '2'))
  }

  /**
   * The year and zero-based month of a "YYYY-MM" string, or None when the
   * string does not match the pattern (the request is then refused).
   */
  function ParseMonth(s: string): (r: Option<(int, int)>)
    ensures r.Some? <==> MatchesMonthPattern(s)
    ensures r.Some? ==> 0 <= r.value.0 <= 9999 && 0 <= r.value.1 < 12
  {
    if !MatchesMonthPattern(s) then None
    else
      NumberOfTwo(s[5], s[6]);
      assert s[5..7] == [s[5], s[6]];
      assert Pow10(4) == 10000 by { assert Pow10(2) == 100; }
      Some((Number(s[..4]), Number(s[5..7]) - 1))
  }

  function DigitChar(d: int): (c: char)
    requires 0 <= d < 10
    ensures IsDigit(c)
  {
    ('0' as int + d) as char
  }

  /** The "YYYY-MM" string of a year in 0..9999 and a zero-based month. */
  function FormatMonth(y: int, m0: int): (s: string)
    requires 0 <= y <= 9999 && 0 <= m0 < 12
    ensures |s| == 7
  {
    var (a, b, c, d) := YearDigits(y);
    [DigitChar(a), DigitChar(b), DigitChar(c), DigitChar(d),
     '-', DigitChar((m0 + 1) / 10), DigitChar((m0 + 1) % 10)]
  }

  /** The four decimal digits of a year in 0..9999, most significant first. */
  function YearDigits(y: int): (r: (int, int, int, int))
    requires 0 <= y <= 9999
    ensures 0 <= r.0 < 10 && 0 <= r.1 < 10 && 0 <= r.2 < 10 && 0 <= r.3 < 10
    ensures y == r.0 * 1000 + r.1 * 100 + r.2 * 10 + r.3
  {
    var r1 := y % 1000;
    var r2 := r1 % 100;
    (y / 1000, r1 / 100, r2 / 10, r2 % 10)
  }

  /** Digits are determined by the number they spell. */
  lemma DigitsUnique(a: int, b: int, c: int, d: int, a': int, b': int, c': int, d': int)
    requires 0 <= a < 10 && 0 <= b < 10 && 0 <= c < 10 && 0 <= d < 10
    requires 0 <= a' < 10 && 0 <= b' < 10 && 0 <= c' < 10 && 0 <= d' < 10
    requires a * 1000 + b * 100 + c * 10 + d == a' * 1000 + b' * 100 + c' * 10 + d'
    ensures a == a' && b == b' && c == c' && d == d'
  {
  }

  lemma NumberOfTwo(a: char, b: char)
    requires IsDigit(a) && IsDigit(b)
    ensures Number([a, b]) == (a as int - '0' as int) * 10 + (b as int - '0' as int)
  {
    assert [a, b][..1] == [a];
    assert [a][..0] == [];
  }

  lemma NumberOfFour(s: string)
    requires |s| == 4 && AllDigits(s)
    ensures Number(s) == (s[0] as int - '0' as int) * 1000 + (s[1] as int - '0' as int) * 100
                         + (s[2] as int - '0' as int) * 10 + (s[3] as int - '0' as int)
  {
    assert s[..3][..2] == [s[0], s[1]];
    assert s[..3] == [s[0], s[1], s[2]];
    NumberOfTwo(s[0], s[1]);
  }

  /** Every month the views accept reads back as the year and month that produced it. */
  lemma {:induction false} ParseFormat(y: int, m0: int)
    requires 0 <= y <= 9999 && 0 <= m0 < 12
    ensures ParseMonth(FormatMonth(y, m0)) == Some((y, m0))
  {
    var s := FormatMonth(y, m0);
    assert MatchesMonthPattern(s);
    NumberOfFour(s[..4]);
    NumberOfTwo(s[5], s[6]);
    assert s[5..7] == [s[5], s[6]];
  }

  /** A matching month string is the formatting of the year and month it parses to. */
  lemma {:induction false} FormatParse(s: string)
    requires ParseMonth(s).Some?
    ensures FormatMonth(ParseMonth(s).value.0, ParseMonth(s).value.1) == s
  {
    NumberOfFour(s[..4]);
    NumberOfTwo(s[5], s[6]);
    assert s[5..7] == [s[5], s[6]];
    var (y, m0) := ParseMonth(s).value;
    var (a, b, c, d) := YearDigits(y);
    DigitsUnique(a, b, c, d, s[0] as int - '0' as int, s[1] as int - '0' as int,
                 s[2] as int - '0' as int, s[3] as int - '0' as int);
    var f := FormatMonth(y, m0);
    forall i | 0 <= i < 7 ensures f[i] == s[i] {
    }
  }

  /** The query string "2025-02" names February 2025 (month index 1). */
  lemma February2025()
    ensures ParseMonth("2025-02") == Some((2025, 1))
  {
    ParseFormat(2025, 1);
    assert FormatMonth(2025, 1) == "2025-02";
  }
}
