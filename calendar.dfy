/** Civil (proleptic Gregorian) dates as JavaScript's `Date` treats a local midnight: a year, a month
    1..12 and a day of the month, numbered by days since 1970-01-01, with the roll-over rules that
    `setDate` and `setMonth` apply to out-of-range values. */
module Calendar {

  datatype YMD = YMD(year: int, month: int, day: int)

  predicate IsLeap(y: int) {
    y % 4 == 0 && (y % 100 != 0 || y % 400 == 0)
  }

  function YearLength(y: int): int {
    if IsLeap(y) then 366 else 365
  }

  function DaysInMonth(y: int, m: int): int
    requires 1 <= m <= 12
  {
    if m == 2 then (if IsLeap(y) then 29 else 28)
    else if m == 4 || m == 6 || m == 9 || m == 11 then 30
    else 31
  }

  predicate ValidYMD(d: YMD) {
    1 <= d.month <= 12 && 1 <= d.day <= DaysInMonth(d.year, d.month)
  }

  /** A calendar date that exists. */
  type Date = d: YMD | ValidYMD(d) witness YMD(1970, 1, 1)

  /** Days of a common year before the first of each month. */
  const MonthStarts: seq<int> := [0, 31, 59, 90, 120, 151, 181, 212, 243, 273, 304, 334]

  function DaysBeforeMonth(y: int, m: int): int
    requires 1 <= m <= 12
  {
    MonthStarts[m - 1] + (if m > 2 && IsLeap(y) then 1 else 0)
  }

  /** Leap years among the years 1 .. y-1 (counted with floor division, so also for y <= 0). */
  function LeapYearsBefore(y: int): int {
    (y - 1) / 4 - (y - 1) / 100 + (y - 1) / 400
  }

  /** Days from 1970-01-01 to the first of January of year y (477 leap years precede 1970). */
  function DaysBeforeYear(y: int): int {
    365 * (y - 1970) + LeapYearsBefore(y) - 477
  }

  /** The day number of a date: 0 for 1970-01-01, one more for each later day. */
  function DayNumber(d: Date): int {
    DaysBeforeYear(d.year) + DaysBeforeMonth(d.year, d.month) + d.day - 1
  }

  /** JavaScript's `getDay()`: 0 for Sunday .. 6 for Saturday (1970-01-01 was a Thursday). */
  function DayOfWeek(d: Date): (w: int)
    ensures 0 <= w < 7
  {
    (DayNumber(d) + 4) % 7
  }

  /** Floor division by a constant steps up by one exactly at its multiples. */
  lemma DivStep4(y: int)
    ensures y / 4 - (y - 1) / 4 == if y % 4 == 0 then 1 else 0
  {
  }

  lemma DivStep100(y: int)
    ensures y / 100 - (y - 1) / 100 == if y % 100 == 0 then 1 else 0
  {
  }

  lemma DivStep400(y: int)
    ensures y / 400 - (y - 1) / 400 == if y % 400 == 0 then 1 else 0
  {
  }

  /** Multiples of 100 are multiples of 4. */
  lemma Multiple100(y: int)
    requires y % 100 == 0
    ensures y % 4 == 0
  {
    var k, q := y / 100, y / 4;
    assert y == 100 * k;
    assert y % 4 == 4 * (25 * k - q);
  }

  /** Multiples of 400 are multiples of 100. */
  lemma Multiple400(y: int)
    requires y % 400 == 0
    ensures y % 100 == 0
  {
    var k, q := y / 400, y / 100;
    assert y == 400 * k;
    assert y % 100 == 100 * (4 * k - q);
  }

  lemma LeapYearsStep(y: int)
    ensures LeapYearsBefore(y + 1) == LeapYearsBefore(y) + (if IsLeap(y) then 1 else 0)
  {
    DivStep4(y);
    DivStep100(y);
    DivStep400(y);
    if y % 400 == 0 {
      Multiple400(y);
    }
    if y % 100 == 0 {
      Multiple100(y);
    }
  }

  lemma YearStep(y: int)
    ensures DaysBeforeYear(y + 1) == DaysBeforeYear(y) + YearLength(y)
  {
    LeapYearsStep(y);
  }

  /** The day after, as `d.setDate(d.getDate() + 1)` computes it. */
  function NextDay(d: Date): Date {
    if d.day < DaysInMonth(d.year, d.month) then YMD(d.year, d.month, d.day + 1)
    else if d.month < 12 then YMD(d.year, d.month + 1, 1)
    else YMD(d.year + 1, 1, 1)
  }

  /** The day after has the next day number, also across month and year ends. */
  lemma NextDayNumber(d: Date)
    ensures DayNumber(NextDay(d)) == DayNumber(d) + 1
  {
    if d.day == DaysInMonth(d.year, d.month) && d.month == 12 {
      YearStep(d.year);
    }
  }

  /** `getDay()` is 4 (Thursday) on 1970-01-01. */
  lemma DayOfWeekEpoch()
    ensures DayOfWeek(YMD(1970, 1, 1)) == 4
  {
  }

  /** The weekday of the day after is the next one, Saturday (6) wrapping to Sunday (0). */
  lemma DayOfWeekNext(d: Date)
    ensures DayOfWeek(NextDay(d)) == (DayOfWeek(d) + 1) % 7
  {
    NextDayNumber(d);
    WeekStep(DayNumber(d), DayNumber(NextDay(d)));
  }

  lemma WeekStep(a: int, b: int)
    requires b == a + 1
    ensures (b + 4) % 7 == ((a + 4) % 7 + 1) % 7
  {
    var q := (a + 4) / 7;
    assert a + 4 == 7 * q + (a + 4) % 7;
  }

  /** The day before, as `d.setDate(d.getDate() - 1)` computes it. */
  function PrevDay(d: Date): Date {
    if d.day > 1 then YMD(d.year, d.month, d.day - 1)
    else if d.month > 1 then YMD(d.year, d.month - 1, DaysInMonth(d.year, d.month - 1))
    else YMD(d.year - 1, 12, 31)
  }

  /** The day before has the previous day number. */
  lemma PrevDayNumber(d: Date)
    ensures DayNumber(PrevDay(d)) == DayNumber(d) - 1
  {
    if d.day == 1 && d.month == 1 {
      YearStep(d.year - 1);
    }
  }

  /** The date k days after d (before it when k < 0). */
  function AddDays(d: Date, k: int): Date
    decreases if k >= 0 then k else -k
  {
    if k == 0 then d
    else if k > 0 then AddDays(NextDay(d), k - 1)
    else AddDays(PrevDay(d), k + 1)
  }

  lemma {:induction false} AddDaysForward(d: Date, k: nat)
    ensures DayNumber(AddDays(d, k)) == DayNumber(d) + k
    decreases k
  {
    if k > 0 {
      var next := NextDay(d);
      assert AddDays(d, k) == AddDays(next, k - 1);
      NextDayNumber(d);
      AddDaysForward(next, k - 1);
    }
  }

  lemma {:induction false} AddDaysBackward(d: Date, k: nat)
    ensures DayNumber(AddDays(d, -(k as int))) == DayNumber(d) - k
    decreases k
  {
    if k > 0 {
      var prev := PrevDay(d);
      assert AddDays(d, -(k as int)) == AddDays(prev, -(k as int - 1));
      PrevDayNumber(d);
      AddDaysBackward(prev, k - 1);
    }
  }

  /** Moving by k days moves the day number by k. */
  lemma AddDaysNumber(d: Date, k: int)
    ensures DayNumber(AddDays(d, k)) == DayNumber(d) + k
  {
    if k >= 0 {
      AddDaysForward(d, k);
    } else {
      AddDaysBackward(d, -k);
    }
  }

  lemma {:induction false} AddDaysSucc(d: Date, k: nat)
    ensures AddDays(d, k + 1) == NextDay(AddDays(d, k))
    decreases k
  {
    if k > 0 {
      AddDaysSucc(NextDay(d), k - 1);
    }
  }

  /** Within a month, adding days only moves the day of the month. */
  lemma {:induction false} AddDaysInMonth(y: int, m: int, j: nat)
    requires 1 <= m <= 12 && j < DaysInMonth(y, m)
    ensures AddDays(YMD(y, m, 1), j) == YMD(y, m, 1 + j)
  {
    if j > 0 {
      AddDaysInMonth(y, m, j - 1);
      AddDaysSucc(YMD(y, m, 1), j - 1);
    }
  }

  /** JavaScript's `d.setDate(k)`: day k of d's month, rolling into neighbouring months when k is
      out of range (k = 0 is the last day of the previous month). */
  function SetDate(d: Date, k: int): (r: Date)
    ensures 1 <= k <= DaysInMonth(d.year, d.month) ==> r == YMD(d.year, d.month, k)
  {
    assert 1 <= k <= DaysInMonth(d.year, d.month) ==> AddDays(YMD(d.year, d.month, 1), k - 1) == YMD(d.year, d.month, k) by {
      if 1 <= k <= DaysInMonth(d.year, d.month) { AddDaysInMonth(d.year, d.month, k - 1); }
    }
    AddDays(YMD(d.year, d.month, 1), k - 1)
  }

  /** `setDate(k)` counts k days from the day before the first of the month. */
  lemma SetDateNumber(d: Date, k: int)
    ensures DayNumber(SetDate(d, k)) == DayNumber(d) - d.day + k
  {
    AddDaysNumber(YMD(d.year, d.month, 1), k - 1);
  }

  /** `d.setDate(d.getDate() + 1)` is the day after d, also on the last day of a month or year. */
  lemma SetDateForward(d: Date)
    ensures SetDate(d, d.day + 1) == NextDay(d)
  {
    AddDaysInMonth(d.year, d.month, d.day - 1);
    AddDaysSucc(YMD(d.year, d.month, 1), d.day - 1);
  }

  /** JavaScript's `d.setMonth(i)` for a zero-based month index i that may leave 0..11: the year moves
      by floor(i / 12), the day of the month is kept and rolls into the next month when too large. */
  function SetMonth(d: Date, i: int): (r: Date)
    ensures d.day <= DaysInMonth(d.year + i / 12, i % 12 + 1) ==> r == YMD(d.year + i / 12, i % 12 + 1, d.day)
  {
    var first: Date := YMD(d.year + i / 12, i % 12 + 1, 1);
    assert d.day <= DaysInMonth(first.year, first.month) ==> AddDays(first, d.day - 1) == YMD(first.year, first.month, d.day) by {
      if d.day <= DaysInMonth(first.year, first.month) { AddDaysInMonth(first.year, first.month, d.day - 1); }
    }
    AddDays(first, d.day - 1)
  }

  /** `setMonth(i)` lands d.day - 1 days after the first of month i, counted from January of d's year. */
  lemma SetMonthNumber(d: Date, i: int)
    ensures DayNumber(SetMonth(d, i)) == DayNumber(YMD(d.year + i / 12, i % 12 + 1, 1)) + d.day - 1
  {
    AddDaysNumber(YMD(d.year + i / 12, i % 12 + 1, 1), d.day - 1);
  }
}
