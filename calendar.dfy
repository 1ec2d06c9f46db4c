/**
 * Calendar arithmetic standing in for the JavaScript `Date` calls of the
 * core: ISO dates `YYYY-MM-DD` are (year, month, day) triples compared in
 * string order, a billing cursor is a (year, month) pair, and the number of
 * days in a month is what `new Date(year, month, 0).getDate()` returns.
 */
module Calendar {
  import opened Money

  /** A calendar date; `month` is 1-based as in the ISO string. */
  datatype Date = Date(year: int, month: int, day: int)

  /** A billing month, as the `YYYY-MM` label of a schedule entry. */
  datatype YearMonth = YearMonth(year: int, month: int)

  predicate IsLeapYear(y: int) {
    (y % 4 == 0 && y % 100 != 0) || y % 400 == 0
  }

  function DaysInMonth(y: int, m: int): (n: int)
    requires 1 <= m <= 12
    ensures 28 <= n <= 31
    ensures n == 29 <==> m == 2 && IsLeapYear(y)
  {
    if m == 2 then (if IsLeapYear(y) then 29 else 28)
    else if m == 4 || m == 6 || m == 9 || m == 11 then 30
    else 31
  }

  function DaysInYear(y: int): int {
    if IsLeapYear(y) then 366 else 365
  }

  predicate ValidMonth(c: YearMonth) {
    1 <= c.month <= 12
  }

  predicate ValidDate(d: Date) {
    1 <= d.month <= 12 && 1 <= d.day <= DaysInMonth(d.year, d.month)
  }

  /** The order of the ISO strings `YYYY-MM-DD` (four-digit years). */
  predicate DateLe(a: Date, b: Date) {
    a.year < b.year
    || (a.year == b.year && a.month < b.month)
    || (a.year == b.year && a.month == b.month && a.day <= b.day)
  }

  function MonthOf(d: Date): YearMonth {
    YearMonth(d.year, d.month)
  }

  // ---------------------------------------------------------------------
  // Day numbers: what `(d2 - d1) / 86400000` measures between two
  // midnight instants of the proleptic Gregorian calendar.

  /** Days from 0001-01-01 to January 1st of year `y`. */
  function DaysBeforeYear(y: int): int {
    var p := y - 1;
    365 * p + p / 4 - p / 100 + p / 400
  }

  /** Days from January 1st to the first day of month `m` of year `y`. */
  function DaysBeforeMonth(y: int, m: int): (n: int)
    requires 1 <= m <= 13
    ensures 0 <= n <= DaysInYear(y)
  {
    var leap := if IsLeapYear(y) && m > 2 then 1 else 0;
    (if m == 1 then 0 else if m == 2 then 31 else if m == 3 then 59
     else if m == 4 then 90 else if m == 5 then 120 else if m == 6 then 151
     else if m == 7 then 181 else if m == 8 then 212 else if m == 9 then 243
     else if m == 10 then 273 else if m == 11 then 304 else if m == 12 then 334
     else 365) + leap
  }

  function DayNumber(d: Date): int
    requires 1 <= d.month <= 12
  {
    DaysBeforeYear(d.year) + DaysBeforeMonth(d.year, d.month) + d.day - 1
  }

  lemma MonthSteps(y: int, m: int)
    requires 1 <= m <= 12
    ensures DaysBeforeMonth(y, m + 1) == DaysBeforeMonth(y, m) + DaysInMonth(y, m)
  {
  }

  lemma YearStep(y: int)
    ensures DaysBeforeYear(y + 1) == DaysBeforeYear(y) + DaysInYear(y)
  {
    QuotientStep(y, 4);
    QuotientStep(y, 100);
    QuotientStep(y, 400);
    DivisorChain(y);
    if y % 400 == 0 {
      assert DaysInYear(y) == 366;
    } else if y % 100 == 0 {
      assert DaysInYear(y) == 365;
    } else if y % 4 == 0 {
      assert DaysInYear(y) == 366;
    } else {
      assert DaysInYear(y) == 365;
    }
  }

  /** A multiple of 400 is a multiple of 100, and a multiple of 100 a multiple of 4. */
  lemma DivisorChain(y: int)
    ensures y % 400 == 0 ==> y % 100 == 0
    ensures y % 100 == 0 ==> y % 4 == 0
  {
    if y % 400 == 0 {
      MultipleOf(y, 400, 100);
    }
    if y % 100 == 0 {
      MultipleOf(y, 100, 4);
    }
  }

  lemma MultipleOf(y: int, k: int, d: int)
    requires (k == 400 && d == 100) || (k == 100 && d == 4)
    requires y % k == 0
    ensures y % d == 0
  {
    var q := y / k;
    assert y == k * q;
    if k == 400 {
      assert y == 100 * (4 * q);
    } else {
      assert y == 4 * (25 * q);
    }
  }

  /** Going from `y - 1` to `y` adds one to `y / k` exactly when `k` divides `y`. */
  lemma QuotientStep(y: int, k: int)
    requires k == 4 || k == 100 || k == 400
    ensures y / k == (y - 1) / k + (if y % k == 0 then 1 else 0)
  {
    if k == 4 {
      assert y / 4 == (y - 1) / 4 + (if y % 4 == 0 then 1 else 0);
    } else if k == 100 {
      assert y / 100 == (y - 1) / 100 + (if y % 100 == 0 then 1 else 0);
    } else {
      assert y / 400 == (y - 1) / 400 + (if y % 400 == 0 then 1 else 0);
    }
  }

  lemma {:induction false} YearsGrow(a: int, b: int)
    requires a <= b
    ensures DaysBeforeYear(a) + 365 * (b - a) <= DaysBeforeYear(b)
    decreases b - a
  {
    if a < b {
      YearsGrow(a, b - 1);
      YearStep(b - 1);
    }
  }

  lemma {:induction false} MonthsGrow(y: int, m: int, n: int)
    requires 1 <= m <= n <= 13
    ensures DaysBeforeMonth(y, m) + 28 * (n - m) <= DaysBeforeMonth(y, n)
    decreases n - m
  {
    if m < n {
      MonthsGrow(y, m, n - 1);
      MonthSteps(y, n - 1);
    }
  }

  /** Later dates have larger day numbers: day counting agrees with the string order. */
  lemma DayNumberIncreasing(a: Date, b: Date)
    requires ValidDate(a) && ValidDate(b)
    requires DateLe(a, b) && a != b
    ensures DayNumber(a) < DayNumber(b)
  {
    MonthSteps(a.year, a.month);
    if a.year < b.year {
      YearStep(a.year);
      MonthsGrow(a.year, a.month + 1, 13);
      YearsGrow(a.year + 1, b.year);
    } else if a.month < b.month {
      MonthsGrow(a.year, a.month + 1, b.month);
    }
  }

  /**
   * `daysBetween(date1, date2)`: whole days from `d1` to `d2`, clamped at
   * zero when `d2` comes first.
   */
  function DaysBetween(d1: Date, d2: Date): (n: nat)
    requires 1 <= d1.month <= 12 && 1 <= d2.month <= 12
    ensures DayNumber(d1) < DayNumber(d2) ==> DayNumber(d1) + n == DayNumber(d2)
    ensures DayNumber(d2) <= DayNumber(d1) ==> n == 0
  {
    var diff := DayNumber(d2) - DayNumber(d1);
    if diff > 0 then diff else 0
  }

  /** `daysBetween` is zero exactly when the second date is not after the first. */
  lemma DaysBetweenZero(d1: Date, d2: Date)
    requires ValidDate(d1) && ValidDate(d2)
    ensures DaysBetween(d1, d2) == 0 <==> DateLe(d2, d1)
  {
    if DateLe(d2, d1) && d1 != d2 {
      DayNumberIncreasing(d2, d1);
    } else if !DateLe(d2, d1) {
      DayNumberIncreasing(d1, d2);
    }
  }

  /** Consecutive days are one day apart, also across month and year ends. */
  lemma DaysBetweenNextDay(d: Date)
    requires ValidDate(d)
    ensures DaysBetween(d, NextDay(d)) == 1
  {
    if d.day == DaysInMonth(d.year, d.month) {
      MonthSteps(d.year, d.month);
      if d.month == 12 {
        YearStep(d.year);
      }
    }
  }

  function NextDay(d: Date): (r: Date)
    requires ValidDate(d)
    ensures ValidDate(r) && DateLe(d, r) && r != d
  {
    if d.day < DaysInMonth(d.year, d.month) then Date(d.year, d.month, d.day + 1)
    else if d.month < 12 then Date(d.year, d.month + 1, 1)
    else Date(d.year + 1, 1, 1)
  }

  // ---------------------------------------------------------------------
  // Month cursors.

  /** Months since January of year 0; the cursor's position on a month line. */
  function MonthIndex(c: YearMonth): int {
    12 * c.year + c.month - 1
  }

  /** The month `k` months after `c` (before it when `k < 0`). */
  function AddMonths(c: YearMonth, k: int): (r: YearMonth)
    requires ValidMonth(c)
    ensures ValidMonth(r) && MonthIndex(r) == MonthIndex(c) + k
  {
    var i := MonthIndex(c) + k;
    YearMonth(i / 12, i % 12 + 1)
  }

  /** `currentDate.setMonth(currentDate.getMonth() + 1)` on a cursor that has no day. */
  function NextMonth(c: YearMonth): (r: YearMonth)
    requires ValidMonth(c)
    ensures r == AddMonths(c, 1)
  {
    if c.month == 12 then YearMonth(c.year + 1, 1) else YearMonth(c.year, c.month + 1)
  }

  /** `i - 1` months after the next month is `i` months after this one. */
  lemma AddMonthsAfterNext(c: YearMonth, i: int)
    requires ValidMonth(c)
    ensures AddMonths(NextMonth(c), i - 1) == AddMonths(c, i)
  {
    var n := NextMonth(c);
    assert MonthIndex(n) + (i - 1) == MonthIndex(c) + i;
  }

  /** Zero months after a month is that month. */
  lemma AddMonthsZero(c: YearMonth)
    requires ValidMonth(c)
    ensures AddMonths(c, 0) == c
  {
    assert MonthIndex(c) == 12 * c.year + (c.month - 1);
  }

  function FirstDay(c: YearMonth): (d: Date)
    requires ValidMonth(c)
    ensures ValidDate(d)
  {
    Date(c.year, c.month, 1)
  }

  function LastDay(c: YearMonth): (d: Date)
    requires ValidMonth(c)
    ensures ValidDate(d)
  {
    Date(c.year, c.month, DaysInMonth(c.year, c.month))
  }

  /**
   * `new Date(y, m, 0).getDate()` is the day before the first of the next
   * month: the month's length is the day count between two first days.
   */
  lemma MonthLength(c: YearMonth)
    requires ValidMonth(c)
    ensures DaysBetween(FirstDay(c), FirstDay(NextMonth(c))) == DaysInMonth(c.year, c.month)
  {
    MonthSteps(c.year, c.month);
    if c.month == 12 {
      YearStep(c.year);
    }
  }

  /** A valid date lies between the first and last day of a month iff it is in that month. */
  lemma InMonthRange(c: YearMonth, d: Date)
    requires ValidMonth(c) && ValidDate(d)
    ensures DateLe(FirstDay(c), d) && DateLe(d, LastDay(c)) <==> MonthOf(d) == c
  {
  }

  /**
   * `date.setMonth(date.getMonth() + k)` as JavaScript runs it: the month
   * moves by `k` and a day past the end of the target month rolls over
   * into the month after it (January 31st plus one month is March 3rd or
   * March 2nd).
   */
  function SetMonthJs(d: Date, k: int): (r: Date)
    requires ValidDate(d)
    ensures ValidDate(r)
  {
    var t := AddMonths(MonthOf(d), k);
    var n := DaysInMonth(t.year, t.month);
    if d.day <= n then Date(t.year, t.month, d.day)
    else
      var u := NextMonth(t);
      Date(u.year, u.month, d.day - n)
  }
}
