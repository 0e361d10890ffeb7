/**
 * Calendar dates as `Date.prototype.toISOString().split('T')[0]` renders
 * them: "YYYY-MM-DD" for years 0 to 9999, and a sign with six year digits
 * outside that range. Which day "today" and "thirty days ago" are is an
 * input (a Clock): the clock, the time zone and the day arithmetic are not
 * modelled.
 */
module Dates {
  import opened Decimal

  /** The years a JavaScript Date can hold. */
  type Year = y: int | -271821 <= y <= 275760
  type Month = m: int | 1 <= m <= 12 witness 1
  type Day = d: int | 1 <= d <= 31 witness 1

  datatype Date = Date(year: Year, month: Month, day: Day)

  /** The two instants the transaction-window defaults read from the clock. */
  datatype Clock = Clock(today: Date, thirtyDaysAgo: Date)

  function Pow10(n: nat): (r: nat)
    ensures r >= 1
  {
    if n == 0 then 1 else 10 * Pow10(n - 1)
  }

  /** `n` in decimal, left-padded with zeros to `width` digits. */
  function Padded(n: nat, width: nat): (s: string)
    requires n < Pow10(width)
    ensures |s| == width
    ensures forall i :: 0 <= i < |s| ==> IsDigit(s[i])
  {
    if width == 0 then "" else Padded(n / 10, width - 1) + [Digit(n % 10)]
  }

  /** Reading the padded digits back gives the number. */
  lemma {:induction false} PaddedValue(n: nat, width: nat)
    requires n < Pow10(width)
    ensures DecimalValue(Padded(n, width)) == n
  {
    if width > 0 {
      var s := Padded(n, width);
      PaddedValue(n / 10, width - 1);
      assert s[..|s| - 1] == Padded(n / 10, width - 1);
      assert s[|s| - 1] == Digit(n % 10);
      assert DecimalValue(s) == 10 * (n / 10) + n % 10;
    }
  }

  function YearText(y: Year): string
  {
    if 0 <= y <= 9999 then Padded(y, 4)
    else if y < 0 then "-" + Padded(-y, 6)
    else "+" + Padded(y, 6)
  }

  /** `date.toISOString().split('T')[0]`. */
  function IsoDate(d: Date): string
  {
    YearText(d.year) + "-" + Padded(d.month, 2) + "-" + Padded(d.day, 2)
  }

  /**
   * For a four-digit year the text has the YYYY-MM-DD shape and the year,
   * month and day can be read back from it.
   */
  lemma IsoDateShape(d: Date)
    requires 0 <= d.year <= 9999
    ensures var s := IsoDate(d);
      && |s| == 10 && s[4] == '-' && s[7] == '-'
      && (forall i :: 0 <= i < 10 && i != 4 && i != 7 ==> IsDigit(s[i]))
      && DecimalValue(s[..4]) == d.year
      && DecimalValue(s[5..7]) == d.month
      && DecimalValue(s[8..]) == d.day
  {
    var s := IsoDate(d);
    assert s[..4] == Padded(d.year, 4);
    assert s[5..7] == Padded(d.month, 2);
    assert s[8..] == Padded(d.day, 2);
    PaddedValue(d.year, 4);
    PaddedValue(d.month, 2);
    PaddedValue(d.day, 2);
  }
}
