/** Day numbers to Gregorian dates: `civil_from_days` of the file picker's `model.rs`. */
module Calendar {

  datatype Date = Date(year: int, month: int, day: int)

  // ----- The calendar, stated by its own rules

  predicate IsLeap(y: int) {
    y % 4 == 0 && (y % 100 != 0 || y % 400 == 0)
  }

  function DaysInMonth(y: int, m: int): int
    requires 1 <= m <= 12
  {
    if m == 2 then (if IsLeap(y) then 29 else 28)
    else if m == 4 || m == 6 || m == 9 || m == 11 then 30
    else 31
  }

  predicate IsDate(x: Date) {
    1 <= x.month <= 12 && 1 <= x.day <= DaysInMonth(x.year, x.month)
  }

  function NextDay(x: Date): Date
    requires IsDate(x)
  {
    if x.day < DaysInMonth(x.year, x.month) then Date(x.year, x.month, x.day + 1)
    else if x.month < 12 then Date(x.year, x.month + 1, 1)
    else Date(x.year + 1, 1, 1)
  }

  // ----- The day number of a date, 0 being 1970-01-01

  /** Days from 0001-01-01 to the first day of year y. */
  function DaysBeforeYear(y: int): int {
    365 * (y - 1) + (y - 1) / 4 - (y - 1) / 100 + (y - 1) / 400
  }

  function DaysBeforeMonth(y: int, m: int): int
    requires 1 <= m <= 13
    decreases m
  {
    if m == 1 then 0 else DaysBeforeMonth(y, m - 1) + DaysInMonth(y, m - 1)
  }

  function DayNumber(x: Date): int
    requires IsDate(x)
  {
    DaysBeforeYear(x.year) + DaysBeforeMonth(x.year, x.month) + x.day - 1 - 719_162
  }

  // ----- The algorithm

  function YearOfEra(doe: int): int {
    (doe - doe / 1460 + doe / 36_524 - doe / 146_096) / 365
  }

  /** Days of the era in front of year y, years counted from March. */
  function DaysBeforeYearOfEra(y: int): int {
    365 * y + y / 4 - y / 100
  }

  function CivilFromDays(days: int): Date {
    var z := days + 719_468;
    var era := z / 146_097;
    var doe := z % 146_097;
    var yoe := YearOfEra(doe);
    var doy := doe - DaysBeforeYearOfEra(yoe);
    var mp := (5 * doy + 2) / 153;
    var d := doy - (153 * mp + 2) / 5 + 1;
    var m := if mp < 10 then mp + 3 else mp - 9;
    var y := yoe + era * 400;
    Date(if m <= 2 then y + 1 else y, m, d)
  }

  // ----- Inside a 400-year era

  lemma CenturyOfEra(doe: int)
    requires 0 <= doe < 146_097
    ensures 0 <= YearOfEra(doe) < 400
    ensures YearOfEra(doe) / 100 == if doe == 146_096 then 3 else doe / 36_524
  {
    var b := doe / 36_524;
    if b == 0 {} else if b == 1 {} else if b == 2 {} else if b == 3 {} else {}
  }

  lemma YearOfEraHasBegun(doe: int)
    requires 0 <= doe < 146_097
    ensures DaysBeforeYearOfEra(YearOfEra(doe)) <= doe
  {
    CenturyOfEra(doe);
    var b := doe / 36_524;
    if b == 0 {} else if b == 1 {} else if b == 2 {} else if b == 3 {} else {}
  }

  lemma YearOfEraHasNotEnded(doe: int)
    requires 0 <= doe < 146_097
    ensures YearOfEra(doe) < 399 ==> doe < DaysBeforeYearOfEra(YearOfEra(doe) + 1)
  {
    CenturyOfEra(doe);
    var a, b, yoe := doe / 1460, doe / 36_524, YearOfEra(doe);
    if yoe < 399 && yoe % 100 < 99 {
      LeapDaysCounted(doe, a, b, yoe);
      assert (yoe + 1) / 100 == b;
    } else if yoe < 399 {
      assert yoe == 99 || yoe == 199 || yoe == 299;
    }
  }

  /** The correction subtracted from the day count never exceeds the leap days of the years so far. */
  lemma LeapDaysCounted(doe: int, a: int, b: int, yoe: int)
    requires 0 <= doe < 146_096 && 0 <= b < 4
    requires 1460 * a <= doe < 1460 * a + 1460 && 36_524 * b <= doe < 36_524 * b + 36_524
    requires 365 * yoe <= doe - a + b < 365 * yoe + 365
    ensures a <= (yoe + 1) / 4
  {
    var k := (yoe + 1) / 4;
    assert doe < 1460 * k + 1095 + a - b;
  }

  lemma YearOfEraLength(y: int)
    requires 0 <= y < 400
    ensures DaysBeforeYearOfEra(y + 1) - DaysBeforeYearOfEra(y) == if IsLeap(y + 1) && y != 399 then 366 else 365
  {
  }

  // ----- Months, counted from March

  /** Days from the first of March to the first day of the month mp months later. */
  function MarchMonthStart(mp: int): int {
    (153 * mp + 2) / 5
  }

  lemma {:induction false} MarchMonths(y: int, m: int)
    requires 1 <= m <= 12
    ensures m >= 3 ==> DaysBeforeMonth(y, m) == MarchMonthStart(m - 3) + (if IsLeap(y) then 60 else 59)
    ensures m <= 2 ==> DaysBeforeMonth(y, m) == MarchMonthStart(m + 9) - 306
  {
    hide IsLeap;
    if m > 1 {
      MarchMonths(y, m - 1);
    }
  }

  lemma MarchMonthOfDay(doy: int)
    requires 0 <= doy < 366
    ensures var mp := (5 * doy + 2) / 153;
      0 <= mp < 12 && MarchMonthStart(mp) <= doy && (mp < 11 ==> doy < MarchMonthStart(mp + 1))
  {
  }

  lemma YearLength(y: int)
    ensures DaysBeforeYear(y + 1) == DaysBeforeYear(y) + (if IsLeap(y) then 366 else 365)
  {
    var q := y / 400;
    assert (y - 1) / 4 == (if y % 4 == 0 then y / 4 - 1 else y / 4);
    assert (y - 1) / 100 == (if y % 100 == 0 then y / 100 - 1 else y / 100);
    assert (y - 1) / 400 == (if y % 400 == 0 then q - 1 else q);
  }

  lemma RepeatsBy4(k: int, y: int)
    ensures (4 * k + y) % 4 == y % 4
  {
    assert 4 * k + y == 4 * (k + y / 4) + y % 4;
  }

  lemma RepeatsBy100(k: int, y: int)
    ensures (100 * k + y) % 100 == y % 100
  {
    assert 100 * k + y == 100 * (k + y / 100) + y % 100;
  }

  lemma RepeatsBy400(k: int, y: int)
    ensures (400 * k + y) % 400 == y % 400
  {
    assert 400 * k + y == 400 * (k + y / 400) + y % 400;
  }

  lemma LeapYearsRepeat(era: int, y: int)
    ensures IsLeap(400 * era + y) == IsLeap(y)
  {
    RepeatsBy4(100 * era, y);
    RepeatsBy100(4 * era, y);
    RepeatsBy400(era, y);
  }

  lemma EraStart(era: int, yoe: int)
    requires 0 <= yoe < 400
    ensures DaysBeforeYear(400 * era + yoe + 1) == 146_097 * era + DaysBeforeYearOfEra(yoe)
  {
    var y := 400 * era + yoe;
    assert y / 4 == 100 * era + yoe / 4;
    assert y / 100 == 4 * era + yoe / 100;
    assert y / 400 == era;
  }

  /** A day of the March-based year, spelled as a date. */
  lemma MarchDay(y: int, doy: int)
    requires 0 <= doy <= (if IsLeap(y + 1) then 365 else 364)
    ensures var mp := (5 * doy + 2) / 153;
      var m := if mp < 10 then mp + 3 else mp - 9;
      var x := Date(if m <= 2 then y + 1 else y, m, doy - MarchMonthStart(mp) + 1);
      IsDate(x) && DayNumber(x) == DaysBeforeYear(y + 1) - 306 + doy - 719_162
  {
    hide IsLeap, DaysBeforeYear;
    var mp := (5 * doy + 2) / 153;
    MarchMonthOfDay(doy);
    if mp < 10 {
      MarchMonths(y, mp + 3);
      YearLength(y);
    } else {
      MarchMonths(y + 1, mp - 9);
    }
  }

  // ----- Both directions

  lemma DayOfYearInRange(doe: int)
    requires 0 <= doe < 146_097
    ensures 0 <= YearOfEra(doe) < 400
    ensures 0 <= doe - DaysBeforeYearOfEra(YearOfEra(doe)) <= (if IsLeap(YearOfEra(doe) + 1) then 365 else 364)
  {
    hide IsLeap;
    CenturyOfEra(doe);
    YearOfEraHasBegun(doe);
    YearOfEraHasNotEnded(doe);
    YearOfEraLength(YearOfEra(doe));
    if YearOfEra(doe) == 399 {
      assert IsLeap(400) by { IsLeap400(); }
    }
  }

  lemma IsLeap400()
    ensures IsLeap(400)
  {
  }

  /** Every day number has a date, and that date has that day number. */
  lemma CivilHasDayNumber(days: int)
    ensures IsDate(CivilFromDays(days)) && DayNumber(CivilFromDays(days)) == days
  {
    hide IsLeap, IsDate, DayNumber, YearOfEra, DaysBeforeYearOfEra, DaysBeforeYear;
    var z := days + 719_468;
    var era, doe := z / 146_097, z % 146_097;
    DayOfYearInRange(doe);
    var yoe := YearOfEra(doe);
    EraStart(era, yoe);
    LeapYearsRepeat(era, yoe + 1);
    MarchDay(era * 400 + yoe, doe - DaysBeforeYearOfEra(yoe));
  }

  lemma {:induction false} YearsApart(y: int, y': int)
    requires y <= y'
    ensures DaysBeforeYear(y') >= DaysBeforeYear(y) + 365 * (y' - y)
    decreases y' - y
  {
    hide DaysBeforeYear;
    if y < y' {
      YearsApart(y, y' - 1);
      YearLength(y' - 1);
    }
  }

  lemma {:induction false} MonthsApart(y: int, m: int, m': int)
    requires 1 <= m < m' <= 13
    ensures DaysBeforeMonth(y, m') >= DaysBeforeMonth(y, m) + DaysInMonth(y, m)
    decreases m'
  {
    if m + 1 < m' {
      MonthsApart(y, m, m' - 1);
    }
  }

  lemma DateInYear(x: Date)
    requires IsDate(x)
    ensures DaysBeforeYear(x.year) <= DayNumber(x) + 719_162 < DaysBeforeYear(x.year + 1)
  {
    hide DaysBeforeYear, DaysBeforeMonth;
    YearLength(x.year);
    MonthsApart(x.year, x.month, 13);
    YearTotal(x.year);
    MonthsFromJanuary(x.year, x.month);
  }

  lemma {:induction false} MonthsFromJanuary(y: int, m: int)
    requires 1 <= m <= 13
    ensures DaysBeforeMonth(y, m) >= 0
  {
    if m > 1 {
      MonthsFromJanuary(y, m - 1);
    }
  }

  lemma YearTotal(y: int)
    ensures DaysBeforeMonth(y, 13) == if IsLeap(y) then 366 else 365
  {
    MarchMonths(y, 12);
  }

  /** Dates with one day number are one date. */
  lemma DayNumberIsInjective(a: Date, b: Date)
    requires IsDate(a) && IsDate(b) && DayNumber(a) == DayNumber(b)
    ensures a == b
  {
    hide DaysBeforeYear, DaysBeforeMonth;
    DateInYear(a);
    DateInYear(b);
    if a.year < b.year {
      YearsApart(a.year + 1, b.year);
    } else if b.year < a.year {
      YearsApart(b.year + 1, a.year);
    } else if a.month < b.month {
      MonthsApart(a.year, a.month, b.month);
    } else if b.month < a.month {
      MonthsApart(a.year, b.month, a.month);
    }
  }

  /** The algorithm inverts day numbering on every date. */
  lemma CivilInvertsDayNumber(x: Date)
    requires IsDate(x)
    ensures CivilFromDays(DayNumber(x)) == x
  {
    hide CivilFromDays, IsDate, DayNumber;
    CivilHasDayNumber(DayNumber(x));
    DayNumberIsInjective(CivilFromDays(DayNumber(x)), x);
  }

  lemma NextDayNumber(x: Date)
    requires IsDate(x)
    ensures IsDate(NextDay(x)) && DayNumber(NextDay(x)) == DayNumber(x) + 1
  {
    hide DaysBeforeYear;
    YearLength(x.year);
    YearTotal(x.year);
  }

  lemma Epoch()
    ensures CivilFromDays(0) == Date(1970, 1, 1)
  {
    assert 719_468 / 146_097 == 4 && 719_468 % 146_097 == 135_080;
    assert 135_080 / 1460 == 92 && 135_080 / 36_524 == 3 && 135_080 / 146_096 == 0;
    assert YearOfEra(135_080) == 369 && DaysBeforeYearOfEra(369) == 134_774;
  }

  /** Day by day, the algorithm walks the calendar, and it starts at the epoch. */
  lemma CivilFollowsCalendar(days: int)
    ensures CivilFromDays(0) == Date(1970, 1, 1)
    ensures IsDate(CivilFromDays(days)) && CivilFromDays(days + 1) == NextDay(CivilFromDays(days))
  {
    hide CivilFromDays, DayNumber, IsDate, NextDay;
    Epoch();
    CivilHasDayNumber(days);
    NextDayNumber(CivilFromDays(days));
    CivilInvertsDayNumber(NextDay(CivilFromDays(days)));
  }
}
