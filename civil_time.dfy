/** Calendar arithmetic the screens get from JavaScript's `Date`: proleptic Gregorian dates,
    month lengths, weekdays, month navigation with year rollover, and instants in milliseconds
    since the Unix epoch. Local time is taken to be UTC. */
module CivilTime {

  const MS_PER_DAY: int := 86400000
  const MS_PER_HOUR: int := 3600000

  /** A calendar date; `month` runs 1..12 as in an ISO `YYYY-MM-DD` string. */
  datatype CivilDate = CivilDate(year: int, month: int, day: int)

  predicate IsLeapYear(year: int) {
    year % 4 == 0 && (year % 100 != 0 || year % 400 == 0)
  }

  /** The Gregorian month lengths. */
  function DaysInMonth(year: int, month: int): (n: int)
    requires 1 <= month <= 12
    ensures 28 <= n <= 31
    ensures month == 2 ==> (n == 29 <==> IsLeapYear(year))
    ensures month != 2 ==> n >= 30
  {
    if month == 2 then (if IsLeapYear(year) then 29 else 28)
    else if month == 4 || month == 6 || month == 9 || month == 11 then 30
    else 31
  }

  predicate ValidDate(d: CivilDate) {
    1 <= d.month <= 12 && 1 <= d.day <= DaysInMonth(d.year, d.month)
  }

  /** Days from 0001-01-01 to the 1st of January of `year` (Euclidean division is floor division
      for a positive divisor, so this holds for years before 1 as well). */
  function DaysBeforeYear(year: int): int {
    var y := year - 1;
    365 * y + y / 4 - y / 100 + y / 400
  }

  /** Days from the 1st of January to the 1st of `month` in `year`. */
  function DaysBeforeMonth(year: int, month: int): int
    requires 1 <= month <= 12
    decreases month
  {
    if month == 1 then 0 else DaysBeforeMonth(year, month - 1) + DaysInMonth(year, month - 1)
  }

  /** Days since 0001-01-01. */
  function DayNumber(d: CivilDate): int
    requires 1 <= d.month <= 12
  {
    DaysBeforeYear(d.year) + DaysBeforeMonth(d.year, d.month) + d.day - 1
  }

  /** `DayNumber` of 1970-01-01, the Unix epoch. */
  const EPOCH_DAY: int := 719162

  /** Midnight at the start of `d`, in milliseconds since the Unix epoch. */
  function DayStart(d: CivilDate): int
    requires 1 <= d.month <= 12
  {
    (DayNumber(d) - EPOCH_DAY) * MS_PER_DAY
  }

  /** `Date.prototype.getDay`: 0 is Sunday; 0001-01-01 was a Monday. */
  function Weekday(d: CivilDate): (w: int)
    requires 1 <= d.month <= 12
    ensures 0 <= w < 7
  {
    (DayNumber(d) + 1) % 7
  }

  /** The weekday is anchored at the Unix epoch, a Thursday, and advances by one with each day:
      two dates differ in weekday by their distance in days, modulo seven. */
  lemma WeekdayPinned(a: CivilDate, b: CivilDate)
    requires 1 <= a.month <= 12 && 1 <= b.month <= 12
    ensures Weekday(CivilDate(1970, 1, 1)) == 4
    ensures (Weekday(b) - Weekday(a)) % 7 == (DayNumber(b) - DayNumber(a)) % 7
  {
    assert DaysBeforeYear(1970) == EPOCH_DAY;
    ShiftBySevens(DayNumber(a), DayNumber(b));
  }

  /** Residues modulo seven of `x + 1` and `y + 1` differ, modulo seven, as `x` and `y` do. */
  lemma ShiftBySevens(x: int, y: int)
    ensures ((y + 1) % 7 - (x + 1) % 7) % 7 == (y - x) % 7
  {
    var qx, rx := (x + 1) / 7, (x + 1) % 7;
    var qy, ry := (y + 1) / 7, (y + 1) % 7;
    var qd, rd := (ry - rx) / 7, (ry - rx) % 7;
    assert y - x == 7 * (qd + qy - qx) + rd;
    assert 0 <= rd < 7;
  }

  /** Months counted from January of year 0, the quantity month navigation changes. */
  function MonthIndex(d: CivilDate): int {
    d.year * 12 + (d.month - 1)
  }

  /** `new Date(d.getFullYear(), d.getMonth() + delta, 1)`: the 1st of the month `delta` months
      away, the month overflowing into the year as `Date` normalises it. */
  function ShiftMonth(d: CivilDate, delta: int): (r: CivilDate)
    ensures r.day == 1 && 1 <= r.month <= 12 && ValidDate(r)
    ensures MonthIndex(r) == MonthIndex(d) + delta
  {
    var t := MonthIndex(d) + delta;
    CivilDate(t / 12, t % 12 + 1, 1)
  }

  /** The 1st of the month of `d`. */
  function FirstOfMonth(d: CivilDate): CivilDate {
    CivilDate(d.year, d.month, 1)
  }

  /** A month is determined by its index. */
  lemma MonthIndexInjective(a: CivilDate, b: CivilDate)
    requires 1 <= a.month <= 12 && 1 <= b.month <= 12
    requires MonthIndex(a) == MonthIndex(b)
    ensures a.year == b.year && a.month == b.month
  {
  }

  /** Moving one month forward is a step to the next month of the same year, or to January of the
      next year from December. */
  lemma NextMonthRollover(d: CivilDate)
    requires 1 <= d.month <= 12
    ensures ShiftMonth(d, 1) == if d.month == 12 then CivilDate(d.year + 1, 1, 1)
                                else CivilDate(d.year, d.month + 1, 1)
  {
    var e := if d.month == 12 then CivilDate(d.year + 1, 1, 1) else CivilDate(d.year, d.month + 1, 1);
    MonthIndexInjective(ShiftMonth(d, 1), e);
  }

  /** Moving one month back is a step to the previous month of the same year, or to December of
      the previous year from January. */
  lemma PreviousMonthRollover(d: CivilDate)
    requires 1 <= d.month <= 12
    ensures ShiftMonth(d, -1) == if d.month == 1 then CivilDate(d.year - 1, 12, 1)
                                 else CivilDate(d.year, d.month - 1, 1)
  {
    var e := if d.month == 1 then CivilDate(d.year - 1, 12, 1) else CivilDate(d.year, d.month - 1, 1);
    MonthIndexInjective(ShiftMonth(d, -1), e);
  }

  /** Forward and back undo each other, landing on the 1st of the original month. */
  lemma ShiftMonthUndo(d: CivilDate)
    requires 1 <= d.month <= 12
    ensures ShiftMonth(ShiftMonth(d, 1), -1) == FirstOfMonth(d)
    ensures ShiftMonth(ShiftMonth(d, -1), 1) == FirstOfMonth(d)
  {
    MonthIndexInjective(ShiftMonth(ShiftMonth(d, 1), -1), FirstOfMonth(d));
    MonthIndexInjective(ShiftMonth(ShiftMonth(d, -1), 1), FirstOfMonth(d));
  }

  /** A year has 366 days exactly when it is a leap year. */
  lemma YearLength(year: int)
    ensures DaysBeforeYear(year + 1) - DaysBeforeYear(year)
         == if IsLeapYear(year) then 366 else 365
  {
    Step4(year);
    Step100(year);
    Step400(year);
  }

  /** Each year adds one to `y / 4` exactly when it is a multiple of 4, and likewise for 100
      and 400; a multiple of 400 is one of 100, and a multiple of 100 one of 4. */
  lemma Step4(year: int)
    ensures year / 4 - (year - 1) / 4 == if year % 4 == 0 then 1 else 0
  {
    var q, r := (year - 1) / 4, (year - 1) % 4;
    var q', r' := year / 4, year % 4;
    assert year - 1 == 4 * q + r && 0 <= r < 4;
    assert year == 4 * q' + r' && 0 <= r' < 4;
    if r == 3 {
      assert q' == q + 1 && r' == 0;
    } else {
      assert q' == q && r' == r + 1;
    }
  }

  lemma Step100(year: int)
    ensures year / 100 - (year - 1) / 100 == if year % 100 == 0 then 1 else 0
    ensures year % 100 == 0 ==> year % 4 == 0
  {
    var q, r := (year - 1) / 100, (year - 1) % 100;
    var q', r' := year / 100, year % 100;
    assert year - 1 == 100 * q + r && 0 <= r < 100;
    assert year == 100 * q' + r' && 0 <= r' < 100;
    if r == 99 {
      assert q' == q + 1 && r' == 0;
      var q4, r4 := year / 4, year % 4;
      assert year == 4 * q4 + r4 && 0 <= r4 < 4;
      assert r4 == 4 * (25 * q' - q4);
      assert r4 == 0;
    } else {
      assert q' == q && r' == r + 1;
    }
  }

  lemma Step400(year: int)
    ensures year / 400 - (year - 1) / 400 == if year % 400 == 0 then 1 else 0
    ensures year % 400 == 0 ==> year % 100 == 0
  {
    var q, r := (year - 1) / 400, (year - 1) % 400;
    var q', r' := year / 400, year % 400;
    assert year - 1 == 400 * q + r && 0 <= r < 400;
    assert year == 400 * q' + r' && 0 <= r' < 400;
    if r == 399 {
      assert q' == q + 1 && r' == 0;
      var q1, r1 := year / 100, year % 100;
      assert year == 100 * q1 + r1 && 0 <= r1 < 100;
      assert r1 == 100 * (4 * q' - q1);
      assert r1 == 0;
    } else {
      assert q' == q && r' == r + 1;
    }
  }

  lemma DaysBeforeDecember(year: int)
    ensures DaysBeforeMonth(year, 12) == if IsLeapYear(year) then 335 else 334
  {
    var feb := DaysInMonth(year, 2);
    assert DaysBeforeMonth(year, 3) == 31 + feb;
    assert DaysBeforeMonth(year, 5) == 31 + feb + 31 + 30;
    assert DaysBeforeMonth(year, 7) == 31 + feb + 31 + 30 + 31 + 30;
    assert DaysBeforeMonth(year, 9) == 31 + feb + 31 + 30 + 31 + 30 + 31 + 31;
    assert DaysBeforeMonth(year, 11) == 31 + feb + 31 + 30 + 31 + 30 + 31 + 31 + 30 + 31;
  }

  /** `new Date(y, m + 1, 0).getDate()` is `DaysInMonth`: the day before the 1st of the next
      month is the `DaysInMonth`-th day of this one. */
  lemma MonthLength(d: CivilDate)
    requires 1 <= d.month <= 12
    ensures DayNumber(ShiftMonth(d, 1)) - DayNumber(FirstOfMonth(d)) == DaysInMonth(d.year, d.month)
  {
    NextMonthRollover(d);
    if d.month == 12 {
      YearLength(d.year);
      DaysBeforeDecember(d.year);
    }
  }

  /** The days of a month occupy consecutive day numbers. */
  lemma DaysBeforeMonthIncreasing(year: int, m1: int, m2: int)
    requires 1 <= m1 < m2 <= 12
    ensures DaysBeforeMonth(year, m1) + DaysInMonth(year, m1) <= DaysBeforeMonth(year, m2)
    decreases m2
  {
    if m1 < m2 - 1 {
      DaysBeforeMonthIncreasing(year, m1, m2 - 1);
    }
  }

  /** Every day of `year` has a day number inside that year's range. */
  lemma DayNumberInYear(d: CivilDate)
    requires ValidDate(d)
    ensures DaysBeforeYear(d.year) <= DayNumber(d) < DaysBeforeYear(d.year + 1)
  {
    YearLength(d.year);
    DaysBeforeDecember(d.year);
    if d.month < 12 {
      DaysBeforeMonthIncreasing(d.year, d.month, 12);
    }
  }

  /** Year, then month, then day: the order of ISO `YYYY-MM-DD` strings when the years have four
      digits (0000 to 9999). */
  predicate DateLe(a: CivilDate, b: CivilDate) {
    a.year < b.year
    || (a.year == b.year && (a.month < b.month || (a.month == b.month && a.day <= b.day)))
  }

  /** Within one year, day numbers follow month then day. */
  lemma SameYearOrder(a: CivilDate, b: CivilDate)
    requires ValidDate(a) && ValidDate(b) && a.year == b.year
    ensures DateLe(a, b) <==> DayNumber(a) <= DayNumber(b)
  {
    if a.month < b.month {
      DaysBeforeMonthIncreasing(a.year, a.month, b.month);
    } else if b.month < a.month {
      DaysBeforeMonthIncreasing(a.year, b.month, a.month);
    }
  }

  /** Every day of an earlier year comes before every day of a later one. */
  lemma EarlierYearFirst(a: CivilDate, b: CivilDate)
    requires ValidDate(a) && ValidDate(b) && a.year < b.year
    ensures DayNumber(a) < DayNumber(b)
  {
    DayNumberInYear(a);
    DayNumberInYear(b);
    DaysBeforeYearMonotone(a.year + 1, b.year);
  }

  /** For valid dates, year-month-day order (the text order of four-digit-year ISO strings) is
      chronological order. */
  lemma DateLeIsChronological(a: CivilDate, b: CivilDate)
    requires ValidDate(a) && ValidDate(b)
    ensures DateLe(a, b) <==> DayNumber(a) <= DayNumber(b)
  {
    if a.year < b.year {
      EarlierYearFirst(a, b);
    } else if b.year < a.year {
      EarlierYearFirst(b, a);
    } else {
      SameYearOrder(a, b);
    }
  }

  lemma DaysBeforeYearMonotone(y1: int, y2: int)
    requires y1 <= y2
    ensures DaysBeforeYear(y1) <= DaysBeforeYear(y2)
    decreases y2 - y1
  {
    if y1 < y2 {
      YearLength(y1);
      DaysBeforeYearMonotone(y1 + 1, y2);
    }
  }

  /** The device clock: today's local date and the milliseconds elapsed since its midnight. */
  datatype Clock = Clock(date: CivilDate, msOfDay: int)

  predicate ValidClock(c: Clock) {
    ValidDate(c.date) && 0 <= c.msOfDay < MS_PER_DAY
  }

  /** `new Date().getTime()`. */
  function NowMs(c: Clock): int
    requires ValidClock(c)
  {
    DayStart(c.date) + c.msOfDay
  }

  /** `new Date().getHours()`. */
  function Hour(c: Clock): (h: int)
    requires ValidClock(c)
    ensures 0 <= h < 24
  {
    c.msOfDay / MS_PER_HOUR
  }

  /** `new Date(now.getFullYear(), now.getMonth(), now.getDate())`. */
  function TodayStart(c: Clock): int
    requires ValidClock(c)
  {
    DayStart(c.date)
  }

  /** `new Date(now.getFullYear(), now.getMonth(), 1)`. */
  function MonthStart(c: Clock): int
    requires ValidClock(c)
  {
    DayStart(FirstOfMonth(c.date))
  }

  /** The 1st of this month at midnight is never after today's midnight, which is never after
      now; and seven days before now is before today's midnight. */
  lemma PeriodStartsOrdered(c: Clock)
    requires ValidClock(c)
    ensures MonthStart(c) <= TodayStart(c) <= NowMs(c)
    ensures NowMs(c) - 7 * MS_PER_DAY < TodayStart(c)
  {
  }
}
