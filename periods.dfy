/**
 * The period keys of the leaderboard tables: the Monday that starts the
 * current week (`get_week_start`) and the `YYYY-MM` text of the current
 * month (`get_month_year`).
 *
 * Dates are Python date ordinals: day 1 is 0001-01-01, which is a Monday.
 */
module Periods {
  import opened JsonValues

  type DayNumber = d: int | 1 <= d witness 1

  /** Python's `date.weekday()`: Monday is 0, Sunday is 6. */
  function Weekday(d: DayNumber): (w: int)
    ensures 0 <= w < 7
  {
    (d + 6) % 7
  }

  /** `today - timedelta(days=today.weekday())` */
  function WeekStart(today: DayNumber): (monday: DayNumber)
    ensures today - 6 <= monday <= today
    ensures Weekday(monday) == 0
  {
    today - Weekday(today)
  }

  /** Any Monday at most six days back is the week start: the week key is unique. */
  lemma WeekStartUnique(today: DayNumber, monday: DayNumber)
    requires today - 6 <= monday <= today
    requires Weekday(monday) == 0
    ensures monday == WeekStart(today)
  {
    var w: int, m: int := WeekStart(today), monday;
    assert (m + 6) % 7 == 0 && (w + 6) % 7 == 0;
    assert -6 <= m - w <= 6;
    assert m - w == 7 * ((m + 6) / 7 - (w + 6) / 7);
  }

  /** Two days share a week key exactly when the second falls in the seven days the first's key starts. */
  lemma SameWeek(a: DayNumber, b: DayNumber)
    ensures WeekStart(a) == WeekStart(b) <==> WeekStart(a) <= b < WeekStart(a) + 7
  {
    var m := WeekStart(a);
    if m <= b < m + 7 {
      WeekStartUnique(b, m);
    }
  }

  function Digit(d: int): (c: char)
    requires 0 <= d <= 9
    ensures '0' <= c <= '9'
  {
    (('0' as int) + d) as char
  }

  predicate IsDigit(c: char) {
    '0' <= c <= '9'
  }

  function DigitValue(c: char): int
    requires IsDigit(c)
  {
    c as int - '0' as int
  }

  /** `%Y`: the year as four digits, zero-padded. */
  function FourDigits(n: int): (s: string)
    requires 0 <= n <= 9999
    ensures |s| == 4 && forall i :: 0 <= i < 4 ==> IsDigit(s[i])
  {
    [Digit(n / 1000), Digit(n / 100 % 10), Digit(n / 10 % 10), Digit(n % 10)]
  }

  /** `%m`: the month as two digits, zero-padded. */
  function TwoDigits(n: int): (s: string)
    requires 0 <= n <= 99
    ensures |s| == 2 && IsDigit(s[0]) && IsDigit(s[1])
  {
    [Digit(n / 10), Digit(n % 10)]
  }

  /** `datetime.now().strftime('%Y-%m')` */
  function MonthKey(year: int, month: int): (key: string)
    requires 1 <= year <= 9999 && 1 <= month <= 12
    ensures |key| == 7 && key[4] == '-'
    ensures forall i :: 0 <= i < 7 && i != 4 ==> IsDigit(key[i])
  {
    FourDigits(year) + "-" + TwoDigits(month)
  }

  /** Reads a `YYYY-MM` key back into its year and month. */
  function MonthKeyFields(key: string): Option<(int, int)> {
    if |key| == 7 && key[4] == '-' && forall i :: 0 <= i < 7 && i != 4 ==> IsDigit(key[i]) then
      Some((1000 * DigitValue(key[0]) + 100 * DigitValue(key[1]) + 10 * DigitValue(key[2]) + DigitValue(key[3]),
            10 * DigitValue(key[5]) + DigitValue(key[6])))
    else
      None
  }

  lemma FourDigitsValue(n: int)
    requires 0 <= n <= 9999
    ensures var s := FourDigits(n);
      1000 * DigitValue(s[0]) + 100 * DigitValue(s[1]) + 10 * DigitValue(s[2]) + DigitValue(s[3]) == n
  {
    var a, r1 := n / 1000, n % 1000;
    var b, r2 := r1 / 100, r1 % 100;
    var c, d := r2 / 10, r2 % 10;
    assert n == 100 * (10 * a + b) + r2;
    assert n / 100 == 10 * a + b;
    assert n == 10 * (100 * a + 10 * b + c) + d;
    assert n / 10 == 100 * a + 10 * b + c;
    assert n / 100 % 10 == b;
    assert n / 10 % 10 == c;
    assert n % 10 == d;
  }

  /** The month key reads back as the year and month it was made from. */
  lemma MonthKeyRoundTrip(year: int, month: int)
    requires 1 <= year <= 9999 && 1 <= month <= 12
    ensures MonthKeyFields(MonthKey(year, month)) == Some((year, month))
  {
    var key := MonthKey(year, month);
    assert key[..4] == FourDigits(year);
    assert key[5..] == TwoDigits(month);
    FourDigitsValue(year);
  }

  /** Distinct months never share a key, so `UNIQUE(member_id, month_year)` keeps one row per member and month. */
  lemma MonthKeyInjective(y1: int, m1: int, y2: int, m2: int)
    requires 1 <= y1 <= 9999 && 1 <= m1 <= 12
    requires 1 <= y2 <= 9999 && 1 <= m2 <= 12
    ensures MonthKey(y1, m1) == MonthKey(y2, m2) <==> y1 == y2 && m1 == m2
  {
    MonthKeyRoundTrip(y1, m1);
    MonthKeyRoundTrip(y2, m2);
  }
}
