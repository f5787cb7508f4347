/**
 The civil calendar behind the timestamps: the closed-form conversion of a day
 count, and the Gregorian calendar it is proved to be.
 */
module Civil {
  datatype Date = Date(year: nat, month: nat, day: nat)

  // ── The conversion, as the program computes it ───────────────────────────────

  /** Every intermediate result is a `nat`: no subtraction of the unsigned original underflows. */
  function DaysToYmd(days: nat): Date {
    var z: nat := days + 719468;
    var era: nat := z / 146097;
    var doe: nat := z - era * 146097;
    DayOfEra(era, doe)
  }

  /** The date of day `doe` of the 400-year era `era`, eras beginning in March. */
  function DayOfEra(era: nat, doe: nat): Date
    requires doe < 146097
  {
    var yoe: nat := YearOfEra(doe);
    var y: nat := yoe + era * 400;
    StartsInYear(doe);
    var doy: nat := doe - (365 * yoe + yoe / 4 - yoe / 100);
    var mp: nat := (5 * doy + 2) / 153;
    var d: nat := doy - (153 * mp + 2) / 5 + 1;
    var mo: nat := if mp < 10 then mp + 3 else mp - 9;
    Date(if mo <= 2 then y + 1 else y, mo, d)
  }

  function YearOfEra(doe: nat): nat
    requires doe < 146097
  {
    (doe - doe / 1460 + doe / 36524 - doe / 146096) / 365
  }

  /** A UTC time of day on a civil date. */
  datatype Timestamp = Timestamp(date: Date, hour: nat, minute: nat, second: nat)

  function TimestampOf(secs: nat): Timestamp {
    var rem := secs % 86400;
    Timestamp(DaysToYmd(secs / 86400), rem / 3600, rem % 3600 / 60, rem % 60)
  }

  // ── The calendar ─────────────────────────────────────────────────────────────

  /** The leap-year rule of RFC 3339, appendix C. */
  predicate IsLeap(y: nat) {
    y % 4 == 0 && (y % 100 != 0 || y % 400 == 0)
  }

  /** The day bounds of RFC 3339, section 5.7. */
  function DaysInMonth(y: nat, m: nat): nat {
    if m == 2 then (if IsLeap(y) then 29 else 28)
    else if m == 4 || m == 6 || m == 9 || m == 11 then 30
    else 31
  }

  predicate Valid(d: Date) {
    1 <= d.month <= 12 && 1 <= d.day <= DaysInMonth(d.year, d.month)
  }

  function NextDay(d: Date): Date {
    if d.day < DaysInMonth(d.year, d.month) then d.(day := d.day + 1)
    else if d.month < 12 then Date(d.year, d.month + 1, 1)
    else Date(d.year + 1, 1, 1)
  }

  function YearLength(y: nat): nat {
    if IsLeap(y) then 366 else 365
  }

  /** Days from the first day of 1970 to the first day of year `y`. */
  function DaysBeforeYear(y: nat): nat
    requires y >= 1970
  {
    if y == 1970 then 0 else DaysBeforeYear(y - 1) + YearLength(y - 1)
  }

  function DaysBeforeMonth(y: nat, m: nat): nat
    requires 1 <= m <= 12
  {
    if m == 1 then 0 else DaysBeforeMonth(y, m - 1) + DaysInMonth(y, m - 1)
  }

  /** Days since 1970-01-01, by counting years, months and days. */
  function DaysSince(d: Date): nat
    requires d.year >= 1970 && Valid(d)
  {
    DaysBeforeYear(d.year) + DaysBeforeMonth(d.year, d.month) + d.day - 1
  }

  // ── Years within an era of 400 ───────────────────────────────────────────────

  /** The first day (counted from the era's start) of the March-based year `yoe`. */
  function EraYearStart(yoe: nat): nat {
    365 * yoe + yoe / 4 - yoe / 100
  }

  /** A day of an era as century, four-year cycle, year and day of that year. */
  predicate Splits(doe: nat, c: nat, q: nat, r: nat, doy: nat) {
    && c <= 3 && q <= 24 && r <= 3 && doy <= 365
    && doe == 36524 * c + 1461 * q + 365 * r + doy
    && (doy == 365 ==> r == 3 && (q < 24 || c == 3))
  }

  lemma {:induction false} SplitEra(doe: nat) returns (c: nat, q: nat, r: nat, doy: nat)
    requires doe < 146097
    ensures Splits(doe, c, q, r, doy)
  {
    c := if doe / 36524 < 4 then doe / 36524 else 3;
    var rest := doe - 36524 * c;
    q := rest / 1461;
    var left := rest - 1461 * q;
    r := if left / 365 < 4 then left / 365 else 3;
    doy := left - 365 * r;
  }

  lemma {:induction false} SplitYear(doe: nat, c: nat, q: nat, r: nat, doy: nat)
    requires doe < 146097 && Splits(doe, c, q, r, doy)
    ensures YearOfEra(doe) == 100 * c + 4 * q + r
    ensures EraYearStart(YearOfEra(doe)) + doy == doe
  {
    var t := 24 * c + q + 365 * r + doy;
    assert doe == 1460 * (25 * c + q) + t;
    var e := if t >= 1460 then 1 else 0;
    assert doe / 1460 == 25 * c + q + e;
    if doe == 146096 {
      assert doe / 36524 == 4 && doe / 146096 == 1;
    } else {
      assert doe / 36524 == c && doe / 146096 == 0;
    }
    assert doe - doe / 1460 + doe / 36524 - doe / 146096 == 365 * (100 * c + 4 * q + r) + (doy - e);
    var yoe := 100 * c + 4 * q + r;
    assert YearOfEra(doe) == yoe;
    assert yoe / 4 == 25 * c + q && yoe / 100 == c;
  }

  /** The year a day falls in has begun, and ended at most a leap year's length later. */
  lemma {:induction false} StartsInYear(doe: nat)
    requires doe < 146097
    ensures 0 <= EraYearStart(YearOfEra(doe)) <= doe <= EraYearStart(YearOfEra(doe)) + 365
    ensures YearOfEra(doe) < 400
  {
    var c, q, r, doy := SplitEra(doe);
    SplitYear(doe, c, q, r, doy);
  }

  // ── From March-based years to the calendar ───────────────────────────────────

  /** Days from 1970-01-01 to the first of March of year `y`. */
  function MarchFirst(y: nat): int {
    365 * y + y / 4 - y / 100 + y / 400 - 719468
  }

  lemma {:induction false} YearStart(y: nat)
    requires y >= 1970
    ensures DaysBeforeYear(y) == MarchFirst(y - 1) + 306
  {
    if y > 1970 {
      YearStart(y - 1);
      NextMarch(y - 2);
    }
  }

  lemma {:induction false} NextMarch(y: nat)
    ensures MarchFirst(y + 1) == MarchFirst(y) + YearLength(y + 1)
  {
    Quotients(y, 4);
    Quotients(y, 100);
    Quotients(y, 400);
    Centuries(y + 1);
  }

  /** Years divisible by 400 are divisible by 100, and those by 4. */
  lemma {:induction false} Centuries(y: nat)
    ensures (y % 400 == 0 ==> y % 100 == 0) && (y % 100 == 0 ==> y % 4 == 0)
  {
    if y % 100 == 0 {
      assert y == 4 * (25 * (y / 100));
    }
    if y % 400 == 0 {
      assert y == 100 * (4 * (y / 400));
    }
  }

  lemma {:induction false} Quotients(y: nat, k: nat)
    requires k == 4 || k == 100 || k == 400
    ensures (y + 1) / k == y / k + (if (y + 1) % k == 0 then 1 else 0)
  {
    if k == 4 {
    } else if k == 100 {
    }
  }

  /** The month lengths from March on, as the program's linear formula. */
  lemma {:induction false} MonthStart(y: nat, m: nat)
    requires 1 <= m <= 12
    ensures m >= 3 ==> DaysBeforeMonth(y, m) == 31 + DaysInMonth(y, 2) + (153 * (m - 3) + 2) / 5
    ensures m <= 2 ==> DaysBeforeMonth(y, m) == (153 * (m + 9) + 2) / 5 - 306
  {
    if m > 1 {
      MonthStart(y, m - 1);
      assert m == 2 || m == 3 || m == 4 || m == 5 || m == 6 || m == 7
          || m == 8 || m == 9 || m == 10 || m == 11 || m == 12;
    }
  }

  /** The month of a March-based year that day `doy` falls in, and the bounds of its days. */
  lemma {:induction false} MonthOf(doy: nat)
    requires doy <= 365
    ensures var mp := (5 * doy + 2) / 153;
            && mp <= 11
            && (153 * mp + 2) / 5 <= doy
            && doy < (if mp == 11 then 366 else (153 * (mp + 1) + 2) / 5)
            && (mp >= 10 <==> doy >= 306)
  {
    var mp := (5 * doy + 2) / 153;
    assert 153 * mp <= 5 * doy + 2 < 153 * (mp + 1);
  }

  /** A day of a March-based year, read as a date. */
  function DateOf(y: nat, doy: nat): Date
    requires doy <= 365
  {
    MonthOf(doy);
    var mp := (5 * doy + 2) / 153;
    var mo := if mp < 10 then mp + 3 else mp - 9;
    Date(if mo <= 2 then y + 1 else y, mo, doy - (153 * mp + 2) / 5 + 1)
  }

  lemma {:induction false} DateOfCounts(y: nat, doy: nat)
    requires doy <= 365 && (doy == 365 ==> IsLeap(y + 1))
    requires MarchFirst(y) + doy >= 0
    ensures var d := DateOf(y, doy);
            Valid(d) && d.year >= 1970 && DaysSince(d) == MarchFirst(y) + doy
  {
    var d := DateOf(y, doy);
    MonthOf(doy);
    var mp := (5 * doy + 2) / 153;
    DateOfValid(y, doy);
    FirstYears(y, doy);
    MonthStart(d.year, d.month);
    YearStart(d.year);
    if mp < 10 {
      NextMarch(y - 1);
    }
  }

  lemma {:induction false} DateOfValid(y: nat, doy: nat)
    requires doy <= 365 && (doy == 365 ==> IsLeap(y + 1))
    ensures Valid(DateOf(y, doy))
  {
    MonthOf(doy);
    var mp := (5 * doy + 2) / 153;
    assert mp == 0 || mp == 1 || mp == 2 || mp == 3 || mp == 4 || mp == 5 || mp == 6 || mp == 7
        || mp == 8 || mp == 9 || mp == 10 || mp == 11;
  }

  lemma {:induction false} FirstYears(y: nat, doy: nat)
    requires doy <= 365 && MarchFirst(y) + doy >= 0
    ensures y >= 1969 && (y == 1969 ==> doy >= 306)
  {
  }

  lemma {:induction false} EraYear(era: nat, yoe: nat, quads: nat, doy: nat)
    requires yoe < 400 && yoe / 4 == quads
    ensures MarchFirst(yoe + era * 400) + doy == era * 146097 + EraYearStart(yoe) + doy - 719468
  {
    var y := yoe + era * 400;
    assert y / 4 == quads + 100 * era;
    assert y / 100 == yoe / 100 + 4 * era;
    assert y / 400 == era;
  }

  lemma {:induction false} LongYear(era: nat, c: nat, q: nat)
    requires c <= 3 && (q < 24 || (q == 24 && c == 3))
    ensures IsLeap(100 * c + 4 * q + 3 + era * 400 + 1)
  {
    var y := 100 * c + 4 * q + 4 + era * 400;
    if q < 24 {
      LeapInCentury(y, 25 * c + q + 1 + 100 * era, c + 4 * era, 4 * q + 4);
    } else {
      LeapCentury(y, era + 1);
    }
  }

  lemma {:induction false} LeapInCentury(y: nat, m: nat, k: nat, r: nat)
    requires y == 4 * m && y == 100 * k + r && 0 < r < 100
    ensures IsLeap(y)
  {
    assert y % 100 == r;
  }

  lemma {:induction false} LeapCentury(y: nat, m: nat)
    requires y == 400 * m
    ensures IsLeap(y)
  {
    assert y == 4 * (100 * m);
  }

  /** The year within the era, and the day within that year. */
  lemma {:induction false} EraDay(doe: nat, era: nat) returns (yoe: nat, doy: nat)
    requires doe < 146097
    ensures yoe == YearOfEra(doe) && yoe < 400
    ensures doy <= 365 && EraYearStart(yoe) + doy == doe
    ensures doy == 365 ==> IsLeap(yoe + era * 400 + 1)
  {
    var c, q, r;
    c, q, r, doy := SplitEra(doe);
    SplitYear(doe, c, q, r, doy);
    yoe := 100 * c + 4 * q + r;
    if doy == 365 {
      LongYear(era, c, q);
    }
  }

  lemma {:induction false} InEra(era: nat, doe: nat, yoe: nat, doy: nat)
    requires doe < 146097 && yoe == YearOfEra(doe) && EraYearStart(yoe) + doy == doe && doy <= 365
    ensures DayOfEra(era, doe) == DateOf(yoe + era * 400, doy)
  {
  }

  lemma {:induction false} EraDate(era: nat, doe: nat) returns (y: nat, doy: nat)
    requires doe < 146097
    ensures doy <= 365 && (doy == 365 ==> IsLeap(y + 1)) && DayOfEra(era, doe) == DateOf(y, doy)
    ensures MarchFirst(y) + doy == era * 146097 + doe - 719468
  {
    var yoe;
    yoe, doy := EraDay(doe, era);
    y := yoe + era * 400;
    InEra(era, doe, yoe, doy);
    EraYear(era, yoe, yoe / 4, doy);
  }

  lemma {:induction false} EraCounts(era: nat, doe: nat, days: nat) returns (d: Date)
    requires doe < 146097 && days + 719468 == era * 146097 + doe
    ensures d == DayOfEra(era, doe) && Valid(d) && d.year >= 1970 && DaysSince(d) == days
  {
    var y, doy := EraDate(era, doe);
    DateOfCounts(y, doy);
    d := DateOf(y, doy);
  }

  /** The conversion yields a date of the calendar, and counting back gives the day count. */
  lemma {:induction false} DaysToYmdCounts(days: nat)
    ensures var d := DaysToYmd(days);
            Valid(d) && d.year >= 1970 && DaysSince(d) == days
  {
    var era := (days + 719468) / 146097;
    var doe := days + 719468 - era * 146097;
    var d := EraCounts(era, doe, days);
    assert d == DaysToYmd(days);
  }

  // ── The calendar order ───────────────────────────────────────────────────────

  lemma {:induction false} YearsGrow(a: nat, b: nat)
    requires 1970 <= a < b
    ensures DaysBeforeYear(a) + YearLength(a) <= DaysBeforeYear(b)
  {
    if a + 1 < b {
      YearsGrow(a, b - 1);
    }
  }

  lemma {:induction false} MonthsGrow(y: nat, a: nat, b: nat)
    requires 1 <= a < b <= 12
    ensures DaysBeforeMonth(y, a) + DaysInMonth(y, a) <= DaysBeforeMonth(y, b)
  {
    if a + 1 < b {
      MonthsGrow(y, a, b - 1);
    }
  }

  lemma {:induction false} WithinYear(d: Date)
    requires Valid(d)
    ensures DaysBeforeMonth(d.year, d.month) + d.day <= YearLength(d.year)
  {
    MonthStart(d.year, 12);
    if d.month < 12 {
      MonthsGrow(d.year, d.month, 12);
    }
  }

  predicate Earlier(a: Date, b: Date) {
    || a.year < b.year
    || (a.year == b.year && a.month < b.month)
    || (a.year == b.year && a.month == b.month && a.day < b.day)
  }

  /** Counting days respects the order of dates, so no two dates have the same count. */
  lemma {:induction false} EarlierMeansFewer(a: Date, b: Date)
    requires a.year >= 1970 && b.year >= 1970 && Valid(a) && Valid(b)
    ensures Earlier(a, b) <==> DaysSince(a) < DaysSince(b)
  {
    if Earlier(a, b) {
      EarlierCounts(a, b);
    } else if a != b {
      EarlierCounts(b, a);
    }
  }

  lemma {:induction false} EarlierCounts(a: Date, b: Date)
    requires a.year >= 1970 && b.year >= 1970 && Valid(a) && Valid(b) && Earlier(a, b)
    ensures DaysSince(a) < DaysSince(b)
  {
    if a.year < b.year {
      WithinYear(a);
      YearsGrow(a.year, b.year);
    } else if a.month < b.month {
      MonthsGrow(a.year, a.month, b.month);
    }
  }

  /** Counting and converting are inverse to each other, on every date from 1970 on. */
  lemma {:induction false} Inverse(d: Date)
    requires d.year >= 1970 && Valid(d)
    ensures DaysToYmd(DaysSince(d)) == d
  {
    var e := DaysToYmd(DaysSince(d));
    DaysToYmdCounts(DaysSince(d));
    EarlierMeansFewer(d, e);
    EarlierMeansFewer(e, d);
  }

  lemma {:induction false} NextDayCounts(d: Date)
    requires d.year >= 1970 && Valid(d)
    ensures Valid(NextDay(d)) && DaysSince(NextDay(d)) == DaysSince(d) + 1
  {
    if d.day == DaysInMonth(d.year, d.month) && d.month == 12 {
      MonthStart(d.year, 12);
    }
  }

  lemma {:induction false} DayZero()
    ensures DaysToYmd(0) == Date(1970, 1, 1)
  {
    assert YearOfEra(135080) == 369 && EraYearStart(369) == 134774;
    InEra(4, 135080, 369, 306);
  }

  lemma {:induction false} NextIs(days: nat, d: Date)
    requires d.year >= 1970 && Valid(d) && DaysSince(d) == days
    ensures Valid(NextDay(d)) && DaysToYmd(days + 1) == NextDay(d)
  {
    var next := NextDay(d);
    NextDayCounts(d);
    Inverse(next);
  }

  /** The conversion is the calendar: day 0 is 1970-01-01, and each day is the successor of the day before. */
  lemma {:induction false} DaysToYmdIsGregorian(days: nat)
    ensures DaysToYmd(0) == Date(1970, 1, 1)
    ensures Valid(DaysToYmd(days))
    ensures DaysToYmd(days + 1) == NextDay(DaysToYmd(days))
  {
    DayZero();
    DaysToYmdCounts(days);
    NextIs(days, DaysToYmd(days));
  }

  lemma {:induction false} ClockParts(rem: nat)
    requires rem < 86400
    ensures rem / 3600 < 24 && rem % 3600 / 60 < 60
    ensures ((rem / 3600) * 60 + rem % 3600 / 60) * 60 + rem % 60 == rem
  {
    assert rem % 3600 % 60 == rem % 60;
  }

  /** A timestamp names its instant: the fields are in range and determine the second count. */
  lemma {:induction false} TimestampIsExact(secs: nat)
    ensures var t := TimestampOf(secs);
            && Valid(t.date) && t.date.year >= 1970 && t.hour < 24 && t.minute < 60 && t.second < 60
            && ((DaysSince(t.date) * 24 + t.hour) * 60 + t.minute) * 60 + t.second == secs
  {
    DaysToYmdCounts(secs / 86400);
    ClockParts(secs % 86400);
  }
}
