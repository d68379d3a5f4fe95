/** Calendar dates in the year-month-day form. */
module Dates {
  import opened Common
  import opened Text

  datatype Date = Date(year: int, month: int, day: int)

  predicate Leap(year: int) {
    year % 4 == 0 && (year % 100 != 0 || year % 400 == 0)
  }

  function DaysIn(year: int, month: int): int {
    if month == 2 then (if Leap(year) then 29 else 28)
    else if month in {4, 6, 9, 11} then 30 else 31
  }

  predicate InCalendar(d: Date) {
    1 <= d.month <= 12 && 1 <= d.day <= DaysIn(d.year, d.month)
  }

  function DigitOf(n: nat): (c: char)
    requires n < 10
    ensures Digit(c) && c as int - '0' as int == n
  {
    (('0' as int) + n) as char
  }

  function TwoDigits(n: nat): (s: string)
    requires n < 100
    ensures AllDigits(s) && |s| == 2 && Number(s) == n
  {
    var s := [DigitOf(n / 10), DigitOf(n % 10)];
    assert Number(s[..1]) == n / 10 by {
      assert s[..1][..0] == "";
    }
    s
  }

  function FourDigits(n: nat): (s: string)
    requires n < 10000
    ensures AllDigits(s) && |s| == 4 && Number(s) == n
  {
    var s := TwoDigits(n / 100) + TwoDigits(n % 100);
    assert s[..3][..2] == TwoDigits(n / 100);
    assert Number(s[..3]) == 10 * (n / 100) + n % 100 / 10;
    s
  }

  /** `Format("2006-01-02")` for years of four digits. */
  function Format(d: Date): string
    requires InCalendar(d) && 0 <= d.year < 10000
  {
    FourDigits(d.year) + "-" + TwoDigits(d.month) + "-" + TwoDigits(d.day)
  }

  lemma FourDigitsAreBounded(s: string)
    requires AllDigits(s) && |s| == 4
    ensures 0 <= Number(s) < 10000
  {
    NumberIsBounded(s);
    assert Pow10(4) == 10000;
  }

  /** `Parse("2006-01-02", s)`. */
  function Parse(s: string): (date: Option<Date>)
    ensures date.Some? ==> InCalendar(date.value) && 0 <= date.value.year < 10000
  {
    if |s| != 10 || s[4] != '-' || s[7] != '-' || !AllDigits(s[..4]) || !AllDigits(s[5..7]) || !AllDigits(s[8..]) then None
    else
      var d := Date(Number(s[..4]), Number(s[5..7]), Number(s[8..]));
      FourDigitsAreBounded(s[..4]);
      if InCalendar(d) then Some(d) else None
  }

  lemma ParseInvertsFormat(d: Date)
    requires InCalendar(d) && 0 <= d.year < 10000
    ensures |Format(d)| == 10 && Digit(Format(d)[0]) && Parse(Format(d)) == Some(d)
  {
    var s := Format(d);
    assert s[..4] == FourDigits(d.year) && s[5..7] == TwoDigits(d.month) && s[8..] == TwoDigits(d.day);
  }
}
