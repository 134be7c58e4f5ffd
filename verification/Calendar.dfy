/**
 * Days to dates (src/clock.cpp): the closed-form conversion against the proleptic Gregorian calendar,
 * which is given by its leap rule, its month lengths and its successor day.
 */
module Calendar {
  datatype Date = Date(year: int, month: int, day: int)

  predicate IsLeap(y: int) { y % 4 == 0 && (y % 100 != 0 || y % 400 == 0) }

  function DaysInMonth(y: int, m: int): int {
    if m == 2 then (if IsLeap(y) then 29 else 28)
    else if m == 4 || m == 6 || m == 9 || m == 11 then 30
    else 31
  }

  predicate IsDate(d: Date) { 1 <= d.month <= 12 && 1 <= d.day <= DaysInMonth(d.year, d.month) }

  function NextDay(d: Date): Date {
    if d.day < DaysInMonth(d.year, d.month) then d.(day := d.day + 1)
    else if d.month < 12 then Date(d.year, d.month + 1, 1)
    else Date(d.year + 1, 1, 1)
  }

  const EPOCH := Date(1970, 1, 1)

  // ------------------------------------------------- the code

  /** Division that rounds toward zero, as C++ divides. */
  function TruncDiv(a: int, b: int): int
    requires b > 0
  {
    if a >= 0 then a / b else -(-a / b)
  }

  function Era(z: int): int { TruncDiv(if z >= 0 then z else z - 146096, 146097) }

  function YearOfEra(doe: int): int { (doe - doe / 1460 + doe / 36524 - doe / 146096) / 365 }

  /** Days before a year that starts in March, within its era. */
  function DaysBefore(yoe: int): int { 365 * yoe + yoe / 4 - yoe / 100 }

  /** The civil date of day `doy` of the year that starts in March of `y`. */
  function MarchDate(y: int, doy: int): Date {
    var mp := (5 * doy + 2) / 153;
    var d := doy - (153 * mp + 2) / 5 + 1;
    var m := if mp < 10 then mp + 3 else mp - 9;
    Date(if m <= 2 then y + 1 else y, m, d)
  }

  function CivilFromDays(days: int): Date {
    var z := days + 719468;
    var era := Era(z);
    var doe := z - era * 146097;
    var yoe := YearOfEra(doe);
    MarchDate(era * 400 + yoe, doe - DaysBefore(yoe))
  }

  lemma EraIsFloor(z: int)
    ensures Era(z) == z / 146097 && z - Era(z) * 146097 == z % 146097
  {
  }

  /** Length of the March year `yoe`, whose last month is the February of the next civil year. */
  predicate LongYear(yoe: int) { (yoe + 1) % 4 == 0 && ((yoe + 1) % 100 != 0 || yoe == 399) }

  lemma YearLength(yoe: int)
    requires 0 <= yoe < 399
    ensures DaysBefore(yoe + 1) - DaysBefore(yoe) == if LongYear(yoe) then 366 else 365
  {
    var a, b := yoe / 4, yoe / 100;
    assert (yoe + 1) / 4 == a + (if (yoe + 1) % 4 == 0 then 1 else 0);
    assert (yoe + 1) / 100 == b + (if (yoe + 1) % 100 == 0 then 1 else 0);
  }

  /** The three quotients of the closed form, for day `r` of the March year `y`. */
  lemma Quotients(y: int, r: int)
    requires 0 <= y < 400 && 0 <= r <= 365 && (r == 365 ==> LongYear(y))
    ensures var doe := DaysBefore(y) + r;
            && doe / 36524 == y / 100 + (if y % 100 == 99 && r == 365 then 1 else 0)
            && doe / 146096 == (if y == 399 && r == 365 then 1 else 0)
            && doe / 1460 == y / 4 + (if 365 * (y % 4) + y / 4 - y / 100 + r >= 1460 then 1 else 0)
  {
    var a, s, b, t := y / 4, y % 4, y / 100, y % 100;
    var doe := DaysBefore(y) + r;
    assert doe == 1460 * a + (365 * s + a - b + r) && 0 <= a - b <= 96;
    assert a == 25 * b + t / 4;
    assert doe == 36524 * b + (365 * t + t / 4 + r);
  }

  lemma YearsLeft(y: int, r: int, a: int, b: int, e1: int, e2: int, e3: int)
    requires 0 <= e1 <= 1 && e2 == e3 && 0 <= e2 <= 1 && 0 <= r <= 365
    requires e1 == 1 ==> r > 0
    requires r == 365 ==> e1 == 1
    ensures 365 * y <= 365 * y + a - b + r - (a + e1) + (b + e2) - e3 <= 365 * y + 364
  {
  }

  lemma YearOfEraIs(y: int, r: int)
    requires 0 <= y < 400 && 0 <= r <= 365 && (r == 365 ==> LongYear(y))
    ensures YearOfEra(DaysBefore(y) + r) == y
  {
    Quotients(y, r);
    var e1 := if 365 * (y % 4) + y / 4 - y / 100 + r >= 1460 then 1 else 0;
    var e2 := if y == 399 && r == 365 then 1 else 0;
    assert r == 365 && y % 100 == 99 ==> y == 399;
    assert 0 <= y / 4 - y / 100 <= 96;
    YearsLeft(y, r, y / 4, y / 100, e1, e2, e2);
  }

  /** Every day of an era lies in some March year. */
  lemma SplitEra(doe: int) returns (y: int, r: int)
    requires 0 <= doe < 146097
    ensures 0 <= y < 400 && 0 <= r <= 365 && (r == 365 ==> LongYear(y)) && doe == DaysBefore(y) + r
  {
    y := 0;
    while y < 399 && doe >= DaysBefore(y + 1)
      invariant 0 <= y <= 399 && DaysBefore(y) <= doe
      decreases 399 - y
    {
      y := y + 1;
    }
    r := doe - DaysBefore(y);
    if y < 399 {
      YearLength(y);
    }
  }

  // ------------------------------------------------- the day count

  /** Days of the years from year 1 up to `y`. */
  function DaysBeforeYear(y: int): int { 365 * (y - 1) + (y - 1) / 4 - (y - 1) / 100 + (y - 1) / 400 }

  function DaysBeforeMonth(y: int, m: int): int
    decreases m
  {
    if m <= 1 then 0 else DaysBeforeMonth(y, m - 1) + DaysInMonth(y, m - 1)
  }

  /** Days from 1970-01-01 to a date. */
  function DayNumber(d: Date): int {
    DaysBeforeYear(d.year) + DaysBeforeMonth(d.year, d.month) + d.day - 1 - 719162
  }

  /** A quotient goes up exactly at the multiples. */
  lemma Steps4(y: int)
    ensures y / 4 == (y - 1) / 4 + if y % 4 == 0 then 1 else 0
  {
  }

  lemma Steps100(y: int)
    ensures y / 100 == (y - 1) / 100 + if y % 100 == 0 then 1 else 0
  {
  }

  lemma Steps400(y: int)
    ensures y / 400 == (y - 1) / 400 + if y % 400 == 0 then 1 else 0
  {
  }

  lemma Multiples(y: int)
    ensures (y % 400 == 0 ==> y % 100 == 0) && (y % 100 == 0 ==> y % 4 == 0)
  {
  }

  lemma CivilYearLength(y: int)
    ensures DaysBeforeYear(y + 1) - DaysBeforeYear(y) == if IsLeap(y) then 366 else 365
  {
    Steps4(y);
    Steps100(y);
    Steps400(y);
    Multiples(y);
  }

  lemma MonthTable(y: int)
    ensures var k := if IsLeap(y) then 1 else 0;
            && DaysBeforeMonth(y, 1) == 0 && DaysBeforeMonth(y, 2) == 31 && DaysBeforeMonth(y, 3) == 59 + k
            && DaysBeforeMonth(y, 4) == 90 + k && DaysBeforeMonth(y, 5) == 120 + k && DaysBeforeMonth(y, 6) == 151 + k
            && DaysBeforeMonth(y, 7) == 181 + k && DaysBeforeMonth(y, 8) == 212 + k && DaysBeforeMonth(y, 9) == 243 + k
            && DaysBeforeMonth(y, 10) == 273 + k && DaysBeforeMonth(y, 11) == 304 + k && DaysBeforeMonth(y, 12) == 334 + k
            && DaysBeforeMonth(y, 13) == 365 + k
  {
    assert DaysBeforeMonth(y, 2) == 31;
    assert DaysBeforeMonth(y, 4) == 90 + if IsLeap(y) then 1 else 0;
    assert DaysBeforeMonth(y, 6) == 151 + if IsLeap(y) then 1 else 0;
    assert DaysBeforeMonth(y, 8) == 212 + if IsLeap(y) then 1 else 0;
    assert DaysBeforeMonth(y, 10) == 273 + if IsLeap(y) then 1 else 0;
    assert DaysBeforeMonth(y, 12) == 334 + if IsLeap(y) then 1 else 0;
  }

  /** The count is the calendar's: it starts at the epoch and goes up by one with each successor day. */
  lemma DayNumberCounts(d: Date)
    requires IsDate(d)
    ensures DayNumber(EPOCH) == 0
    ensures IsDate(NextDay(d)) && DayNumber(NextDay(d)) == DayNumber(d) + 1
  {
    MonthTable(1970);
    MonthTable(d.year);
    MonthTable(d.year + 1);
    CivilYearLength(d.year);
  }

  // ------------------------------------------------- the closed form is its inverse

  lemma MarchYearStart(era: int, yoe: int)
    requires 0 <= yoe < 400
    ensures DaysBeforeYear(era * 400 + yoe + 1) == era * 146097 + DaysBefore(yoe)
  {
    var y := era * 400 + yoe;
    assert y / 4 == era * 100 + yoe / 4;
    assert y / 100 == era * 4 + yoe / 100;
    assert y / 400 == era;
  }

  lemma MultipleOf4(q: int, n: int)
    ensures (4 * q + n) % 4 == n % 4
  {
  }

  lemma MultipleOf100(q: int, n: int)
    ensures (100 * q + n) % 100 == n % 100
  {
  }

  lemma MultipleOf400(q: int, n: int)
    ensures (400 * q + n) % 400 == n % 400
  {
  }

  lemma EraRemainders(era: int, n: int)
    ensures (era * 400 + n) % 4 == n % 4 && (era * 400 + n) % 100 == n % 100 && (era * 400 + n) % 400 == n % 400
  {
    MultipleOf4(100 * era, n);
    MultipleOf100(4 * era, n);
    MultipleOf400(era, n);
  }

  lemma LongMeansLeap(era: int, yoe: int)
    requires 0 <= yoe < 400
    ensures LongYear(yoe) <==> IsLeap(era * 400 + yoe + 1)
  {
    EraRemainders(era, yoe + 1);
    assert (yoe + 1) % 400 == 0 <==> yoe == 399;
  }

  /** Month number within a March year, and that the day lies in that month. */
  lemma MarchMonth(r: int) returns (mp: int)
    requires 0 <= r <= 365
    ensures mp == (5 * r + 2) / 153 && 0 <= mp <= 11
    ensures (153 * mp + 2) / 5 <= r && (mp < 11 ==> r < (153 * (mp + 1) + 2) / 5)
  {
    mp := (5 * r + 2) / 153;
    assert mp == 0 || mp == 1 || mp == 2 || mp == 3 || mp == 4 || mp == 5
        || mp == 6 || mp == 7 || mp == 8 || mp == 9 || mp == 10 || mp == 11;
  }

  /** March to December. */
  lemma SameYearCounts(y: int, mp: int, day: int)
    requires 0 <= mp <= 9 && 1 <= day <= (153 * (mp + 1) + 2) / 5 - (153 * mp + 2) / 5
    ensures var date := Date(y, mp + 3, day);
            IsDate(date) && DayNumber(date) == DaysBeforeYear(y + 1) + (153 * mp + 2) / 5 + day - 1 - 719468
  {
    CivilYearLength(y);
    MonthTable(y);
    assert mp == 0 || mp == 1 || mp == 2 || mp == 3 || mp == 4 || mp == 5 || mp == 6 || mp == 7 || mp == 8 || mp == 9;
  }

  /** January and February. */
  lemma NextYearCounts(y: int, mp: int, day: int)
    requires (mp == 10 && 1 <= day <= 31) || (mp == 11 && 1 <= day <= (if IsLeap(y + 1) then 29 else 28))
    ensures var date := Date(y + 1, mp - 9, day);
            IsDate(date) && DayNumber(date) == DaysBeforeYear(y + 1) + (153 * mp + 2) / 5 + day - 1 - 719468
  {
    MonthTable(y + 1);
  }

  /** A day of a March year, dated and counted back. */
  lemma MarchDateCounts(y: int, r: int)
    requires 0 <= r <= 365 && (r == 365 ==> IsLeap(y + 1))
    ensures IsDate(MarchDate(y, r)) && DayNumber(MarchDate(y, r)) == DaysBeforeYear(y + 1) + r - 719468
  {
    var mp := MarchMonth(r);
    var day := r - (153 * mp + 2) / 5 + 1;
    if mp < 10 {
      SameYearCounts(y, mp, day);
    } else {
      NextYearCounts(y, mp, day);
    }
  }

  lemma CivilWith(days: int, era: int, yoe: int, r: int)
    requires days + 719468 == era * 146097 + DaysBefore(yoe) + r
    requires Era(days + 719468) == era && YearOfEra(DaysBefore(yoe) + r) == yoe
    ensures CivilFromDays(days) == MarchDate(era * 400 + yoe, r)
  {
    assert days + 719468 - era * 146097 == DaysBefore(yoe) + r;
  }

  /** Era, March year and day of a day number, and what the closed form makes of them. */
  lemma CivilParts(days: int) returns (era: int, yoe: int, r: int)
    ensures 0 <= yoe < 400 && 0 <= r <= 365 && (r == 365 ==> LongYear(yoe))
    ensures days + 719468 == era * 146097 + DaysBefore(yoe) + r
    ensures CivilFromDays(days) == MarchDate(era * 400 + yoe, r)
  {
    var z := days + 719468;
    EraIsFloor(z);
    era := z / 146097;
    yoe, r := SplitEra(z % 146097);
    YearOfEraIs(yoe, r);
    CivilWith(days, era, yoe, r);
  }

  lemma PartsCount(era: int, yoe: int, r: int)
    requires 0 <= yoe < 400 && 0 <= r <= 365 && (r == 365 ==> LongYear(yoe))
    ensures var date := MarchDate(era * 400 + yoe, r);
            IsDate(date) && DayNumber(date) == era * 146097 + DaysBefore(yoe) + r - 719468
  {
    MarchYearStart(era, yoe);
    LongMeansLeap(era, yoe);
    MarchDateCounts(era * 400 + yoe, r);
  }

  /** For every day, past or future, the closed form gives a valid date with that very day number. */
  lemma CivilIsInverse(days: int)
    ensures IsDate(CivilFromDays(days)) && DayNumber(CivilFromDays(days)) == days
  {
    var era, yoe, r := CivilParts(days);
    PartsCount(era, yoe, r);
  }

  // ------------------------------------------------- and the only one

  predicate Before(a: Date, b: Date) {
    a.year < b.year || (a.year == b.year && (a.month < b.month || (a.month == b.month && a.day < b.day)))
  }

  lemma {:induction false} YearsGrow(a: int, b: int)
    requires a < b
    ensures DaysBeforeYear(a) + DaysBeforeMonth(a, 13) <= DaysBeforeYear(b)
    decreases b - a
  {
    CivilYearLength(a);
    MonthTable(a);
    if a + 1 < b {
      YearsGrow(a + 1, b);
      MonthTable(a + 1);
    }
  }

  lemma {:induction false} MonthsGrow(y: int, m: int, n: int)
    requires 1 <= m < n
    ensures DaysBeforeMonth(y, m) + DaysInMonth(y, m) <= DaysBeforeMonth(y, n)
    decreases n
  {
    if m + 1 < n {
      MonthsGrow(y, m, n - 1);
    }
  }

  /** Day numbers follow the order of dates. */
  lemma DayNumberGrows(a: Date, b: Date)
    requires IsDate(a) && IsDate(b) && Before(a, b)
    ensures DayNumber(a) < DayNumber(b)
  {
    if a.year < b.year {
      YearsGrow(a.year, b.year);
      MonthsGrow(a.year, a.month, 13);
      MonthTable(b.year);
    } else if a.month < b.month {
      MonthsGrow(a.year, a.month, b.month);
    }
  }

  lemma SameDayNumber(a: Date, b: Date)
    requires IsDate(a) && IsDate(b) && DayNumber(a) == DayNumber(b)
    ensures a == b
  {
    if Before(a, b) {
      DayNumberGrows(a, b);
    } else if Before(b, a) {
      DayNumberGrows(b, a);
    }
  }

  /** The date of a valid date's day number is that date; in particular day 0 is the epoch. */
  lemma NumberIsInverse(d: Date)
    requires IsDate(d)
    ensures CivilFromDays(DayNumber(d)) == d
  {
    var back := CivilFromDays(DayNumber(d));
    CivilIsInverse(DayNumber(d));
    SameDayNumber(back, d);
  }

  /** Consecutive days have consecutive dates. */
  lemma CivilFollowsCalendar(days: int)
    ensures CivilFromDays(days + 1) == NextDay(CivilFromDays(days))
  {
    CivilIsInverse(days);
    CivilIsInverse(days + 1);
    var today, tomorrow := CivilFromDays(days), CivilFromDays(days + 1);
    DayNumberCounts(today);
    SameDayNumber(tomorrow, NextDay(today));
  }
}
