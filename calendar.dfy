/**
 * The proleptic Gregorian calendar over day numbers, shared by the browser
 * side (JavaScript `Date`) and the email service (Python `datetime`).
 *
 * A day number `n` counts the days since 0001-01-01, so it is Python's
 * `date.toordinal() - 1`. That day was a Monday, which gives both weekday
 * conventions: JavaScript's `getDay()` (Sunday is 0) and Python's
 * `weekday()` (Monday is 0).
 */
module Calendar {
  import opened Text

  predicate IsLeap(y: int) {
    y % 4 == 0 && (y % 100 != 0 || y % 400 == 0)
  }

  function DaysInYear(y: int): nat {
    if IsLeap(y) then 366 else 365
  }

  function DaysInMonth(y: int, m: int): nat
    requires 1 <= m <= 12
  {
    if m == 2 then (if IsLeap(y) then 29 else 28)
    else if m == 4 || m == 6 || m == 9 || m == 11 then 30
    else 31
  }

  /** Days from 0001-01-01 to the first of January of year `y`, year by year. */
  function DaysBeforeYear(y: int): nat
    requires y >= 1
  {
    if y == 1 then 0 else DaysBeforeYear(y - 1) + DaysInYear(y - 1)
  }

  /** The year-by-year count is the familiar closed form with its three leap-year corrections. */
  lemma {:induction false} DaysBeforeYearClosed(y: int)
    requires y >= 1
    ensures var p := y - 1; DaysBeforeYear(y) == 365 * p + p / 4 - p / 100 + p / 400
  {
    if y > 1 {
      DaysBeforeYearClosed(y - 1);
      QuotientStep4(y - 1);
      QuotientStep100(y - 1);
      QuotientStep400(y - 1);
      LeapDivisors(y - 1);
    }
  }

  /** Days from the first of January to the first of month `m` (`m == 13` gives the whole year). */
  function DaysBeforeMonth(y: int, m: int): nat
    requires 1 <= m <= 13
  {
    var common :=
      if m == 1 then 0 else if m == 2 then 31 else if m == 3 then 59
      else if m == 4 then 90 else if m == 5 then 120 else if m == 6 then 151
      else if m == 7 then 181 else if m == 8 then 212 else if m == 9 then 243
      else if m == 10 then 273 else if m == 11 then 304 else if m == 12 then 334
      else 365;
    common + (if m > 2 && IsLeap(y) then 1 else 0)
  }

  lemma YearStep(y: int)
    requires y >= 1
    ensures DaysBeforeYear(y + 1) == DaysBeforeYear(y) + DaysInYear(y)
  {
  }

  /** A multiple of 400 is a multiple of 100, and a multiple of 100 is a multiple of 4. */
  lemma LeapDivisors(y: int)
    ensures y % 400 == 0 ==> y % 100 == 0
    ensures y % 100 == 0 ==> y % 4 == 0
  {
  }

  lemma QuotientStep4(y: int)
    requires y >= 1
    ensures y / 4 == (y - 1) / 4 + (if y % 4 == 0 then 1 else 0)
  {
  }

  lemma QuotientStep100(y: int)
    requires y >= 1
    ensures y / 100 == (y - 1) / 100 + (if y % 100 == 0 then 1 else 0)
  {
  }

  lemma QuotientStep400(y: int)
    requires y >= 1
    ensures y / 400 == (y - 1) / 400 + (if y % 400 == 0 then 1 else 0)
  {
  }

  lemma MonthStep(y: int, m: int)
    requires 1 <= m <= 12
    ensures DaysBeforeMonth(y, m + 1) == DaysBeforeMonth(y, m) + DaysInMonth(y, m)
    ensures DaysBeforeMonth(y, m + 1) <= DaysBeforeMonth(y, 13) == DaysInYear(y)
  {
  }

  /** Each year has at least 365 days, so later years start at least 365 days later. */
  lemma {:induction false} YearMonotonic(a: int, b: int)
    requires 1 <= a <= b
    ensures DaysBeforeYear(a) + 365 * (b - a) <= DaysBeforeYear(b)
    decreases b - a
  {
    if a < b {
      YearMonotonic(a, b - 1);
      YearStep(b - 1);
    }
  }

  datatype Date = Date(year: int, month: int, day: int)

  /** A calendar date of year 1 or later. */
  predicate ValidDate(d: Date) {
    d.year >= 1 && 1 <= d.month <= 12 && 1 <= d.day <= DaysInMonth(d.year, d.month)
  }

  /** The day number of a date. */
  function DayNumber(d: Date): nat
    requires ValidDate(d)
  {
    DaysBeforeYear(d.year) + DaysBeforeMonth(d.year, d.month) + d.day - 1
  }

  /** The month containing day `r` of year `y`, searching upwards from month `m`. */
  function MonthOf(y: int, r: nat, m: int): (res: int)
    requires 1 <= m <= 12 && DaysBeforeMonth(y, m) <= r < DaysInYear(y)
    ensures m <= res <= 12 && DaysBeforeMonth(y, res) <= r < DaysBeforeMonth(y, res + 1)
    decreases 12 - m
  {
    MonthStep(y, m);
    if r < DaysBeforeMonth(y, m + 1) then m else MonthOf(y, r, m + 1)
  }

  /** The date of day `n`, searching upwards from year `y`. */
  function DateFrom(n: nat, y: int): (d: Date)
    requires y >= 1 && DaysBeforeYear(y) <= n
    ensures d.year >= y && 1 <= d.month <= 12 && 1 <= d.day <= 31
    decreases n - DaysBeforeYear(y)
  {
    YearStep(y);
    if n < DaysBeforeYear(y + 1) then
      var r := n - DaysBeforeYear(y);
      var m := MonthOf(y, r, 1);
      MonthStep(y, m);
      Date(y, m, r - DaysBeforeMonth(y, m) + 1)
    else
      DateFrom(n, y + 1)
  }

  /** The date found from any starting year at or before it is a valid date with day number `n`. */
  lemma {:induction false} DateFromSpec(n: nat, y: int)
    requires y >= 1 && DaysBeforeYear(y) <= n
    ensures ValidDate(DateFrom(n, y)) && DayNumber(DateFrom(n, y)) == n
    decreases n - DaysBeforeYear(y)
  {
    YearStep(y);
    if n < DaysBeforeYear(y + 1) {
      MonthStep(y, MonthOf(y, n - DaysBeforeYear(y), 1));
    } else {
      DateFromSpec(n, y + 1);
    }
  }

  /** A valid date is what the search finds for its day number, from any year at or before it. */
  lemma {:induction false} DateFromUnique(n: nat, y0: int, d: Date)
    requires ValidDate(d) && DayNumber(d) == n
    requires 1 <= y0 <= d.year && DaysBeforeYear(y0) <= n
    ensures DateFrom(n, y0) == d
    decreases d.year - y0
  {
    if y0 < d.year {
      YearMonotonic(y0 + 1, d.year);
      DayNumberBounds(d);
      DateFromNextYear(n, y0);
      DateFromUnique(n, y0 + 1, d);
    } else {
      DateFromInYear(n, d);
    }
  }

  /** A day past the end of year `y` is found from year `y + 1` on. */
  lemma DateFromNextYear(n: nat, y: int)
    requires y >= 1 && DaysBeforeYear(y + 1) <= n
    ensures DaysBeforeYear(y) <= n && DateFrom(n, y) == DateFrom(n, y + 1)
  {
    YearStep(y);
  }

  lemma DateFromInYear(n: nat, d: Date)
    requires ValidDate(d) && DayNumber(d) == n
    ensures DateFrom(n, d.year) == d
  {
    var r := n - DaysBeforeYear(d.year);
    DayNumberBounds(d);
    MonthOfUnique(d.year, r, 1, d.month);
  }

  /** A date's day number lies within its month, and so within its year. */
  lemma DayNumberBounds(d: Date)
    requires ValidDate(d)
    ensures DaysBeforeYear(d.year) + DaysBeforeMonth(d.year, d.month) <= DayNumber(d)
    ensures DayNumber(d) < DaysBeforeYear(d.year) + DaysBeforeMonth(d.year, d.month + 1)
    ensures DayNumber(d) < DaysBeforeYear(d.year + 1)
  {
    MonthStep(d.year, d.month);
    YearStep(d.year);
  }

  /** The calendar date of day `n`. */
  function FromDayNumber(n: nat): (d: Date)
    ensures d.year >= 1 && 1 <= d.month <= 12 && 1 <= d.day <= 31
  {
    DateFrom(n, 1)
  }

  /** The date of day `n` is a valid date whose day number is `n`. */
  lemma FromDayNumberSpec(n: nat)
    ensures ValidDate(FromDayNumber(n)) && DayNumber(FromDayNumber(n)) == n
  {
    DateFromSpec(n, 1);
  }

  lemma {:induction false} MonthOfUnique(y: int, r: nat, m0: int, m: int)
    requires 1 <= m0 <= m <= 12 && DaysBeforeMonth(y, m0) <= r < DaysInYear(y)
    requires DaysBeforeMonth(y, m) <= r < DaysBeforeMonth(y, m + 1)
    ensures MonthOf(y, r, m0) == m
    decreases m - m0
  {
    MonthStep(y, m0);
    if m0 < m {
      MonthOfUnique(y, r, m0 + 1, m);
    }
  }

  /** Every valid date is the date of its own day number: the two conversions are inverse. */
  lemma DateRoundTrip(d: Date)
    requires ValidDate(d)
    ensures FromDayNumber(DayNumber(d)) == d
  {
    DateFromUnique(DayNumber(d), 1, d);
  }

  /** Day numbers of distinct days are distinct dates. */
  lemma FromDayNumberInjective(a: nat, b: nat)
    requires FromDayNumber(a) == FromDayNumber(b)
    ensures a == b
  {
    FromDayNumberSpec(a);
    FromDayNumberSpec(b);
  }

  /** JavaScript `Date.prototype.getDay()`: 0 is Sunday. */
  function JsWeekday(n: nat): (w: nat)
    ensures w < 7
  {
    (n + 1) % 7
  }

  /** Python `date.weekday()`: 0 is Monday. */
  function PyWeekday(n: nat): (w: nat)
    ensures w < 7
  {
    n % 7
  }

  /** The two conventions name the same day: a JavaScript Sunday is a Python Sunday (6). */
  lemma SundayAgrees(n: nat)
    ensures JsWeekday(n) == 0 <==> PyWeekday(n) == 6
  {
  }

  /** Day number of 1970-01-01, the origin of JavaScript time values. */
  const UnixEpochDay: nat := 719162

  /** The last day a JavaScript `Date` can hold: 100,000,000 days after the epoch. */
  const JsMaxDay: nat := UnixEpochDay + 100000000

  /** 1970-01-01 is day `UnixEpochDay`, and it is a Thursday, as JavaScript's calendar has it. */
  lemma UnixEpochIsThursday(epoch: Date)
    requires epoch == Date(1970, 1, 1)
    ensures ValidDate(epoch) && DayNumber(epoch) == UnixEpochDay
    ensures JsWeekday(DayNumber(epoch)) == 4
  {
    DaysBeforeYearClosed(1970);
    assert 1969 / 4 == 492 && 1969 / 100 == 19 && 1969 / 400 == 4;
    assert DaysBeforeYear(1970) == UnixEpochDay;
  }

  /** Years of JavaScript dates fit in the six digits of the expanded ISO year format. */
  lemma JsYearBound(n: nat)
    requires n <= JsMaxDay
    ensures FromDayNumber(n).year < 1000000
  {
    FromDayNumberSpec(n);
    var y := FromDayNumber(n).year;
    YearMonotonic(1, y);
    assert DaysBeforeYear(y) <= n;
  }

  /** The year part of `Date.prototype.toISOString()`: four digits, or a sign and six digits past 9999. */
  function IsoYear(y: nat): string
  {
    if y <= 9999 then Digits(y, 4) else "+" + Digits(y, 6)
  }

  /** The year is four digits up to 9999, and a plus sign and six digits after. */
  lemma IsoYearShape(y: nat)
    ensures y <= 9999 ==> |IsoYear(y)| == 4 && AllDigits(IsoYear(y))
    ensures y > 9999 ==> |IsoYear(y)| == 7 && IsoYear(y)[0] == '+' && AllDigits(IsoYear(y)[1..])
  {
    if y > 9999 {
      assert IsoYear(y)[1..] == Digits(y, 6);
    }
  }

  /** `toISOString().split('T')[0]`: the YYYY-MM-DD part of the UTC timestamp of day `n`. */
  function IsoDate(n: nat): (s: string)
    requires n <= JsMaxDay
  {
    var d := FromDayNumber(n);
    IsoYear(d.year) + "-" + Digits(d.month, 2) + "-" + Digits(d.day, 2)
  }

  /** The pieces of a string built as `a + "-" + b + "-" + c` can be read back by position. */
  lemma DashedParts(a: string, b: string, c: string)
    ensures var s := a + "-" + b + "-" + c;
      |s| == |a| + |b| + |c| + 2 && s[..|a|] == a && s[|a|] == '-' &&
      s[|a| + 1..|a| + 1 + |b|] == b && s[|a| + 1 + |b|] == '-' && s[|a| + 2 + |b|..] == c
  {
  }

  /** Up to year 9999 the ISO date is ten characters: four digits, a dash, two digits, a dash, two digits. */
  lemma IsoDateShape(n: nat)
    requires n <= JsMaxDay && FromDayNumber(n).year <= 9999
    ensures var s := IsoDate(n);
      |s| == 10 && AllDigits(s[..4]) && s[4] == '-' && AllDigits(s[5..7]) && s[7] == '-' && AllDigits(s[8..])
    ensures var s := IsoDate(n); var d := FromDayNumber(n);
      DigitsValue(s[..4]) == d.year && DigitsValue(s[5..7]) == d.month && DigitsValue(s[8..]) == d.day
  {
    var d := FromDayNumber(n);
    var ys, ms, ds := Digits(d.year, 4), Digits(d.month, 2), Digits(d.day, 2);
    assert IsoDate(n) == ys + "-" + ms + "-" + ds;
    DashedParts(ys, ms, ds);
    DigitsRoundTrip(d.year, 4);
    DigitsRoundTrip(d.month, 2);
    DigitsRoundTrip(d.day, 2);
  }

  lemma DashedInjective(a: string, b: string, c: string, a': string, b': string, c': string)
    requires |b| == |b'| && |c| == |c'|
    requires a + "-" + b + "-" + c == a' + "-" + b' + "-" + c'
    ensures a == a' && b == b' && c == c'
  {
    DashedParts(a, b, c);
    DashedParts(a', b', c');
  }

  lemma IsoYearInjective(x: nat, y: nat)
    requires x < 1000000 && y < 1000000 && IsoYear(x) == IsoYear(y)
    ensures x == y
  {
    if x <= 9999 {
      DigitsInjective(x, y, 4);
    } else {
      assert IsoYear(x)[1..] == Digits(x, 6) && IsoYear(y)[1..] == Digits(y, 6);
      DigitsInjective(x, y, 6);
    }
  }

  /** Different days give different ISO date strings. */
  lemma IsoDateInjective(a: nat, b: nat)
    requires a <= JsMaxDay && b <= JsMaxDay
    requires IsoDate(a) == IsoDate(b)
    ensures a == b
  {
    var da, db := FromDayNumber(a), FromDayNumber(b);
    JsYearBound(a);
    JsYearBound(b);
    DashedInjective(IsoYear(da.year), Digits(da.month, 2), Digits(da.day, 2),
                    IsoYear(db.year), Digits(db.month, 2), Digits(db.day, 2));
    IsoYearInjective(da.year, db.year);
    DigitsInjective(da.month, db.month, 2);
    DigitsInjective(da.day, db.day, 2);
    FromDayNumberInjective(a, b);
  }
}
