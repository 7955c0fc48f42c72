/** The Gregorian conversion behind the `created` time stamp of a container.

    `CivilFromUnix` is the arithmetic of the runtime. Everything else here is an independent
    account of the proleptic Gregorian calendar (month lengths, leap rule, the day after a date,
    the number of days since the epoch counted year by year) against which it is proved. */
module Calendar {

  const SECONDS_PER_DAY := 86_400

  datatype Date = Date(year: int, month: int, day: int)

  datatype Civil = Civil(date: Date, hour: int, minute: int, second: int)

  // ---- The calendar, stated independently of the conversion --------------------------------

  predicate IsLeap(year: int) {
    year % 4 == 0 && (year % 100 != 0 || year % 400 == 0)
  }

  function DaysInMonth(year: int, month: int): int {
    if month == 2 then (if IsLeap(year) then 29 else 28)
    else if month == 4 || month == 6 || month == 9 || month == 11 then 30
    else 31
  }

  predicate ValidDate(date: Date) {
    1 <= date.month <= 12 && 1 <= date.day <= DaysInMonth(date.year, date.month)
  }

  predicate ValidTime(c: Civil) {
    0 <= c.hour < 24 && 0 <= c.minute < 60 && 0 <= c.second < 60
  }

  /** The date after `date`. */
  function NextDate(date: Date): Date {
    if date.day < DaysInMonth(date.year, date.month) then date.(day := date.day + 1)
    else if date.month < 12 then Date(date.year, date.month + 1, 1)
    else Date(date.year + 1, 1, 1)
  }

  function YearLength(year: int): int {
    if IsLeap(year) then 366 else 365
  }

  /** Days from 1970-01-01 to the first of January of `year`, counted one year at a time. */
  function DaysBeforeYear(year: int): int
    decreases if year < 1970 then 1970 - year else year - 1970
  {
    if year == 1970 then 0
    else if year > 1970 then DaysBeforeYear(year - 1) + YearLength(year - 1)
    else DaysBeforeYear(year + 1) - YearLength(year)
  }

  /** Days from the first of January to the first of `month`, counted one month at a time. */
  function DaysBeforeMonth(year: int, month: int): int
    requires 1 <= month <= 12
    decreases month
  {
    if month == 1 then 0 else DaysBeforeMonth(year, month - 1) + DaysInMonth(year, month - 1)
  }

  function DayNumber(date: Date): int
    requires ValidDate(date)
  {
    DaysBeforeYear(date.year) + DaysBeforeMonth(date.year, date.month) + date.day - 1
  }

  function UnixFromCivil(c: Civil): int
    requires ValidDate(c.date)
  {
    DayNumber(c.date) * 86_400 + c.hour * 3_600 + c.minute * 60 + c.second
  }

  predicate DateBefore(a: Date, b: Date) {
    a.year < b.year
    || (a.year == b.year && (a.month < b.month || (a.month == b.month && a.day < b.day)))
  }

  // ---- The conversion of the runtime --------------------------------------------------------

  function YearOfEra(doe: int): int {
    (doe - doe / 1_460 + doe / 36_524 - doe / 146_096) / 365
  }

  /** Days from the first of March that opens an era to the first of March of its year `yoe`. */
  function EraYearStart(yoe: int): int {
    365 * yoe + yoe / 4 - yoe / 100
  }

  /** The date of day `doy` of the March year `y`, as the runtime computes it. */
  function MarchDate(y: int, doy: int): Date {
    var mp := (5 * doy + 2) / 153;
    var d := doy - (153 * mp + 2) / 5 + 1;
    var m := if mp < 10 then mp + 3 else mp - 9;
    Date(if m <= 2 then y + 1 else y, m, d)
  }

  /** The date of day `doe` of an era. */
  function EraDate(era: int, doe: int): Date {
    var yoe := YearOfEra(doe);
    var y := yoe + era * 400;
    MarchDate(y, doe - EraYearStart(yoe))
  }

  function DateFromDays(days: int): Date {
    var z := days + 719_468;
    EraDate(z / 146_097, z % 146_097)
  }

  function CivilFromUnix(secs: int): Civil {
    var days := secs / SECONDS_PER_DAY;
    var rem := secs % SECONDS_PER_DAY;
    Civil(DateFromDays(days), rem / 3_600, rem % 3_600 / 60, rem % 60)
  }

  // ---- The year of the era ------------------------------------------------------------------

  /** A day of the era, split into centuries of 36524 days (the last has one more), cycles of
      1461 days (the last of a century may have one less) and years of 365. */
  predicate EraSplit(doe: int, c: int, q: int, p: int, doy: int) {
    && 0 <= c <= 3 && 0 <= q <= 24 && 0 <= p <= 3
    && 0 <= doy <= 365
    && (doy == 365 ==> p == 3 && (q < 24 || c == 3))
    && doe == 36_524 * c + 1_461 * q + 365 * p + doy
  }

  lemma SplitEra(doe: int) returns (c: int, q: int, p: int, doy: int)
    requires 0 <= doe < 146_097
    ensures EraSplit(doe, c, q, p, doy)
  {
    c := if doe == 146_096 then 3 else doe / 36_524;
    var inCentury := doe - 36_524 * c;
    q := inCentury / 1_461;
    var inCycle := inCentury - 1_461 * q;
    p := if inCycle == 1_460 then 3 else inCycle / 365;
    doy := inCycle - 365 * p;
  }

  lemma YearOfEraOfSplit(doe: int, c: int, q: int, p: int, doy: int)
    requires EraSplit(doe, c, q, p, doy)
    ensures YearOfEra(doe) == 100 * c + 4 * q + p
  {
    var r := 365 * p + doy;
    var e := (24 * c + q + r) / 1_460;
    assert doe / 1_460 == 25 * c + q + e by {
      assert doe == 1_460 * (25 * c + q) + (24 * c + q + r);
    }
    var f := if doe == 146_096 then 1 else 0;
    assert doe / 36_524 == c + f;
    assert doe / 146_096 == f;
    assert doe - doe / 1_460 + doe / 36_524 - doe / 146_096 == 365 * (100 * c + 4 * q + p) + (doy - e);
    assert 0 <= e <= 1;
    assert 0 <= doy - e < 365;
  }

  lemma EraYearStartOfSplit(c: int, q: int, p: int)
    requires 0 <= c <= 3 && 0 <= q <= 24 && 0 <= p <= 3
    ensures EraYearStart(100 * c + 4 * q + p) == 36_524 * c + 1_461 * q + 365 * p
  {
    assert (100 * c + 4 * q + p) / 4 == 25 * c + q;
    assert (100 * c + 4 * q + p) / 100 == c;
  }

  /** The year of the era is the one whose March-to-March span contains the day, and the day of
      year 365 exists only in a span that closes with 29 February. */
  lemma YearOfEraIsExact(doe: int)
    requires 0 <= doe < 146_097
    ensures 0 <= YearOfEra(doe) < 400
    ensures 0 <= doe - EraYearStart(YearOfEra(doe)) <= 365
    ensures doe - EraYearStart(YearOfEra(doe)) == 365 ==> IsLeap(YearOfEra(doe) + 1)
  {
    var c, q, p, doy := SplitEra(doe);
    YearOfEraOfSplit(doe, c, q, p, doy);
    EraYearStartOfSplit(c, q, p);
    if doy == 365 {
      LastYearOfCycleIsLeap(c, q);
    }
  }

  lemma LastYearOfCycleIsLeap(c: int, q: int)
    requires 0 <= c <= 3 && 0 <= q <= 24 && (q < 24 || c == 3)
    ensures IsLeap(100 * c + 4 * q + 4)
  {
    var y := 100 * c + 4 * q + 4;
    assert y % 4 == 0 by { assert y == 4 * (25 * c + q + 1); }
    if q < 24 {
      assert y % 100 == 4 * q + 4;
    } else {
      assert y == 400;
    }
  }

  // ---- Days before a year, in closed form ----------------------------------------------------

  /** Leap years in 1..year, extended to every integer. */
  function LeapsThrough(year: int): int {
    year / 4 - year / 100 + year / 400
  }

  lemma LeapsThroughStep(year: int)
    ensures LeapsThrough(year) == LeapsThrough(year - 1) + (if IsLeap(year) then 1 else 0)
  {
    QuotientStepBy4(year);
    QuotientStepBy100(year);
    QuotientStepBy400(year);
    MultiplesNest(year);
  }

  lemma QuotientStepBy4(n: int)
    ensures n / 4 == (n - 1) / 4 + (if n % 4 == 0 then 1 else 0)
  {
  }

  lemma QuotientStepBy100(n: int)
    ensures n / 100 == (n - 1) / 100 + (if n % 100 == 0 then 1 else 0)
  {
  }

  lemma QuotientStepBy400(n: int)
    ensures n / 400 == (n - 1) / 400 + (if n % 400 == 0 then 1 else 0)
  {
  }

  lemma MultiplesNest(n: int)
    ensures n % 400 == 0 ==> n % 100 == 0
    ensures n % 100 == 0 ==> n % 4 == 0
  {
    MultipleOf100(4 * (n / 400));
    MultipleOf4(25 * (n / 100));
  }

  lemma MultipleOf100(j: int)
    ensures 100 * j % 100 == 0
  {
  }

  lemma MultipleOf4(j: int)
    ensures 4 * j % 4 == 0
  {
  }

  lemma {:induction false} DaysBeforeYearClosed(year: int)
    ensures DaysBeforeYear(year) == 365 * (year - 1970) + LeapsThrough(year - 1) - 477
    decreases if year < 1970 then 1970 - year else year - 1970
  {
    if year > 1970 {
      DaysBeforeYearClosed(year - 1);
      LeapsThroughStep(year - 1);
    } else if year < 1970 {
      DaysBeforeYearClosed(year + 1);
      LeapsThroughStep(year);
    }
  }

  // ---- Months counted from March --------------------------------------------------------------

  function MarchMonth(month: int): int {
    if month > 2 then month - 3 else month + 9
  }

  /** Days before a month in closed form, counted from March. */
  lemma DaysBeforeMonthClosed(year: int, month: int)
    requires 1 <= month <= 12
    ensures month > 2 ==>
      DaysBeforeMonth(year, month) == (153 * MarchMonth(month) + 2) / 5 + (if IsLeap(year) then 60 else 59)
    ensures month <= 2 ==> DaysBeforeMonth(year, month) == (153 * MarchMonth(month) + 2) / 5 - 306
  {
    assert DaysBeforeMonth(year, 1) == 0;
    assert DaysBeforeMonth(year, 2) == 31;
    var l := if IsLeap(year) then 1 else 0;
    assert DaysBeforeMonth(year, 3) == 59 + l;
    assert DaysBeforeMonth(year, 4) == 90 + l;
    assert DaysBeforeMonth(year, 5) == 120 + l;
    assert DaysBeforeMonth(year, 6) == 151 + l;
    assert DaysBeforeMonth(year, 7) == 181 + l;
    assert DaysBeforeMonth(year, 8) == 212 + l;
    assert DaysBeforeMonth(year, 9) == 243 + l;
    assert DaysBeforeMonth(year, 10) == 273 + l;
    assert DaysBeforeMonth(year, 11) == 304 + l;
    assert DaysBeforeMonth(year, 12) == 334 + l;
  }

  /** A day of a March year falls in exactly the month the runtime computes. */
  lemma MonthOfMarchDay(doy: int, leap: bool)
    requires 0 <= doy <= 365 && (doy == 365 ==> leap)
    ensures var mp := (5 * doy + 2) / 153;
            var d := doy - (153 * mp + 2) / 5 + 1;
            var m := if mp < 10 then mp + 3 else mp - 9;
            && 0 <= mp <= 11
            && MarchMonth(m) == mp
            && 1 <= m <= 12
            && 1 <= d <= (if m == 2 then (if leap then 29 else 28)
                          else if m == 4 || m == 6 || m == 9 || m == 11 then 30 else 31)
  {
  }

  /** The day number of a valid date through its March year. */
  lemma DayNumberClosed(date: Date)
    requires ValidDate(date)
    ensures var y := if date.month <= 2 then date.year - 1 else date.year;
            DayNumber(date)
            == 365 * y + LeapsThrough(y) + (153 * MarchMonth(date.month) + 2) / 5 + date.day - 1 - 719_468
  {
    DaysBeforeYearClosed(date.year);
    DaysBeforeMonthClosed(date.year, date.month);
    if date.month > 2 {
      LeapsThroughStep(date.year);
    }
  }

  /** A whole number of eras moves every quotient and no remainder. */
  lemma EraShift(n: int, era: int)
    ensures (n + era * 400) / 4 == n / 4 + 100 * era && (n + era * 400) % 4 == n % 4
    ensures (n + era * 400) / 100 == n / 100 + 4 * era && (n + era * 400) % 100 == n % 100
    ensures (n + era * 400) / 400 == n / 400 + era && (n + era * 400) % 400 == n % 400
  {
  }

  lemma LeapShift(yoe: int, era: int)
    requires 0 <= yoe < 400
    ensures 365 * (yoe + era * 400) + LeapsThrough(yoe + era * 400) == era * 146_097 + EraYearStart(yoe)
    ensures IsLeap(yoe + 1) == IsLeap(yoe + era * 400 + 1)
  {
    EraShift(yoe, era);
    EraShift(yoe + 1, era);
  }

  // ---- Main results ---------------------------------------------------------------------------

  lemma MarchDateIsExact(y: int, doy: int)
    requires 0 <= doy <= 365 && (doy == 365 ==> IsLeap(y + 1))
    ensures ValidDate(MarchDate(y, doy))
    ensures DayNumber(MarchDate(y, doy)) == 365 * y + LeapsThrough(y) + doy - 719_468
  {
    MonthOfMarchDay(doy, IsLeap(y + 1));
    DayNumberClosed(MarchDate(y, doy));
  }

  lemma DateOfEraDay(era: int, doe: int, yoe: int, doy: int)
    requires 0 <= yoe < 400 && 0 <= doy <= 365 && doe == EraYearStart(yoe) + doy
    requires doy == 365 ==> IsLeap(yoe + 1)
    ensures ValidDate(MarchDate(yoe + era * 400, doy))
    ensures DayNumber(MarchDate(yoe + era * 400, doy)) == era * 146_097 + doe - 719_468
  {
    LeapShift(yoe, era);
    MarchDateIsExact(yoe + era * 400, doy);
  }

  lemma EraDateIsExact(era: int, doe: int)
    requires 0 <= doe < 146_097
    ensures ValidDate(EraDate(era, doe))
    ensures DayNumber(EraDate(era, doe)) == era * 146_097 + doe - 719_468
  {
    var yoe := YearOfEra(doe);
    YearOfEraIsExact(doe);
    DateOfEraDay(era, doe, yoe, doe - EraYearStart(yoe));
  }

  /** Every day number is converted to the valid date that has that day number. */
  lemma DateFromDaysIsExact(days: int)
    ensures ValidDate(DateFromDays(days))
    ensures DayNumber(DateFromDays(days)) == days
  {
    var z := days + 719_468;
    EraDateIsExact(z / 146_097, z % 146_097);
  }

  lemma DaysBeforeMonthBound(year: int, month: int)
    requires 1 <= month <= 12
    ensures DaysBeforeMonth(year, month) + DaysInMonth(year, month) <= YearLength(year)
  {
    DaysBeforeMonthClosed(year, month);
  }

  lemma {:induction false} DaysBeforeMonthMonotone(year: int, a: int, b: int)
    requires 1 <= a < b <= 12
    ensures DaysBeforeMonth(year, a) + DaysInMonth(year, a) <= DaysBeforeMonth(year, b)
    decreases b
  {
    if a < b - 1 {
      DaysBeforeMonthMonotone(year, a, b - 1);
    }
  }

  lemma {:induction false} DaysBeforeYearMonotone(a: int, b: int)
    requires a < b
    ensures DaysBeforeYear(a) + YearLength(a) <= DaysBeforeYear(b)
    decreases b - a
  {
    if a < b - 1 {
      DaysBeforeYearMonotone(a, b - 1);
    }
  }

  /** Day numbers grow with the calendar order of dates. */
  lemma DayNumberIsMonotone(a: Date, b: Date)
    requires ValidDate(a) && ValidDate(b) && DateBefore(a, b)
    ensures DayNumber(a) < DayNumber(b)
  {
    if a.year < b.year {
      DaysBeforeYearMonotone(a.year, b.year);
      DaysBeforeMonthBound(a.year, a.month);
      DaysBeforeMonthClosed(b.year, b.month);
    } else if a.month < b.month {
      DaysBeforeMonthMonotone(a.year, a.month, b.month);
    }
  }

  lemma NextDateIsOneDayLater(date: Date)
    requires ValidDate(date)
    ensures ValidDate(NextDate(date))
    ensures DayNumber(NextDate(date)) == DayNumber(date) + 1
  {
    var y := date.year;
    if date.day == DaysInMonth(y, date.month) && date.month == 12 {
      DaysBeforeMonthClosed(y, 12);
      if y < 1970 {
        assert DaysBeforeYear(y) == DaysBeforeYear(y + 1) - YearLength(y);
      } else {
        assert DaysBeforeYear(y + 1) == DaysBeforeYear(y) + YearLength(y);
      }
    }
  }

  lemma TimeOfDaySplits(rem: int)
    requires 0 <= rem < SECONDS_PER_DAY
    ensures 0 <= rem / 3_600 < 24 && 0 <= rem % 3_600 / 60 < 60 && 0 <= rem % 60 < 60
    ensures rem / 3_600 * 3_600 + rem % 3_600 / 60 * 60 + rem % 60 == rem
  {
    var h, m := rem / 3_600, rem % 3_600 / 60;
    var s := rem - 3_600 * h - 60 * m;
    assert 0 <= s < 60;
    assert rem % 60 == s by { assert rem == 60 * (60 * h + m) + s; }
  }

  /** For every second: a valid date and time, and the second they denote is the input. */
  lemma CivilFromUnixIsExact(secs: int)
    ensures ValidDate(CivilFromUnix(secs).date) && ValidTime(CivilFromUnix(secs))
    ensures UnixFromCivil(CivilFromUnix(secs)) == secs
  {
    DateFromDaysIsExact(secs / SECONDS_PER_DAY);
    TimeOfDaySplits(secs % SECONDS_PER_DAY);
  }

  /** Two valid dates and times that denote the same second are the same. */
  lemma CivilIsUnique(a: Civil, b: Civil)
    requires ValidDate(a.date) && ValidTime(a) && ValidDate(b.date) && ValidTime(b)
    requires UnixFromCivil(a) == UnixFromCivil(b)
    ensures a == b
  {
    assert DayNumber(a.date) == DayNumber(b.date);
    if DateBefore(a.date, b.date) {
      DayNumberIsMonotone(a.date, b.date);
    } else if DateBefore(b.date, a.date) {
      DayNumberIsMonotone(b.date, a.date);
    }
  }

  /** The conversion inverts `UnixFromCivil` on every valid date and time. */
  lemma CivilFromUnixInverts(c: Civil)
    requires ValidDate(c.date) && ValidTime(c)
    ensures CivilFromUnix(UnixFromCivil(c)) == c
  {
    var secs := UnixFromCivil(c);
    CivilFromUnixIsExact(secs);
    CivilIsUnique(CivilFromUnix(secs), c);
  }

  lemma UnixOfNextDate(c: Civil)
    requires ValidDate(c.date) && ValidTime(c)
    ensures ValidDate(NextDate(c.date))
    ensures UnixFromCivil(c.(date := NextDate(c.date))) == UnixFromCivil(c) + 86_400
  {
    NextDateIsOneDayLater(c.date);
  }

  /** One more day is the next calendar date at the same time of day. */
  lemma OneDayLaterIsTheNextDate(secs: int)
    ensures CivilFromUnix(secs + 86_400)
         == CivilFromUnix(secs).(date := NextDate(CivilFromUnix(secs).date))
  {
    var c := CivilFromUnix(secs);
    CivilFromUnixIsExact(secs);
    UnixOfNextDate(c);
    CivilFromUnixInverts(c.(date := NextDate(c.date)));
  }
}
