/** Fiscal-calendar arithmetic (src/common/dates/fiscal-year.ts and the period table of
src/ledger/periods/periods.service.ts).

A date is its UTC day number, counted from 1 January 1970.  `DateUTC` is Date.UTC of
section 21.4.3.4 of ECMA-262: months overflow into years, day 0 is the last day of the
month before, and the years 0..99 mean 1900..1999. */
module Calendar {

  type Day = int

  predicate Leap(y: int) { y % 4 == 0 && (y % 100 != 0 || y % 400 == 0) }

  /** Day number of 1 January of year y. */
  function YearStart(y: int): Day {
    365 * (y - 1970) + (y - 1969) / 4 - (y - 1901) / 100 + (y - 1601) / 400
  }

  /** Days of the year before month m (0 = January; 12 gives the length of the year). */
  function DaysBefore(m: int, leap: bool): int
    requires 0 <= m <= 12
  {
    var days :=
      if m == 0 then 0 else if m == 1 then 31 else if m == 2 then 59 else if m == 3 then 90
      else if m == 4 then 120 else if m == 5 then 151 else if m == 6 then 181 else if m == 7 then 212
      else if m == 8 then 243 else if m == 9 then 273 else if m == 10 then 304 else if m == 11 then 334
      else 365;
    days + (if leap && 2 <= m then 1 else 0)
  }

  /** First day of a month, counting months serially: serial 12y + m is month m of year y. */
  function MonthStart(serial: int): Day {
    YearStart(serial / 12) + DaysBefore(serial % 12, Leap(serial / 12))
  }

  /** Date.UTC takes the years 0 to 99 for 1900 to 1999. */
  function Read(year: int): int { if 0 <= year <= 99 then 1900 + year else year }

  function DateUTC(year: int, month: int, day: int): Day { MonthStart(12 * Read(year) + month) + day - 1 }

  /** getUTCFullYear: the year whose days include d. */
  function YearOf(d: Day): (y: int)
    ensures YearStart(y) <= d < YearStart(y + 1)
  {
    var guess := if 0 <= d then 1970 + d / 366 else 1970 - (-d / 365 + 1);
    GuessIsEarly(d);
    SearchYear(d, guess)
  }

  function SearchYear(d: Day, y: int): (r: int)
    requires YearStart(y) <= d
    ensures YearStart(r) <= d < YearStart(r + 1)
    decreases d - YearStart(y)
  {
    YearLength(y);
    if d < YearStart(y + 1) then y else SearchYear(d, y + 1)
  }

  /** getUTCMonth: 0 for January. */
  function MonthOf(d: Day): (m: int)
    ensures 0 <= m < 12
  {
    YearLength(YearOf(d));
    SearchMonth(d - YearStart(YearOf(d)), Leap(YearOf(d)), 0)
  }

  function SearchMonth(dayInYear: int, leap: bool, m: int): (r: int)
    requires 0 <= m < 12 && DaysBefore(m, leap) <= dayInYear < DaysBefore(12, leap)
    ensures 0 <= r < 12 && DaysBefore(r, leap) <= dayInYear < DaysBefore(r + 1, leap)
    decreases 12 - m
  {
    if dayInYear < DaysBefore(m + 1, leap) then m else SearchMonth(dayInYear, leap, m + 1)
  }

  function FiscalYearForDate(d: Day, startMonth: int): int {
    if MonthOf(d) + 1 >= startMonth then YearOf(d) else YearOf(d) - 1
  }

  function FiscalYearStart(fiscalYear: int, startMonth: int): Day { DateUTC(fiscalYear, startMonth - 1, 1) }

  function FiscalYearEnd(fiscalYear: int, startMonth: int): Day {
    var endYear := if startMonth == 1 then fiscalYear else fiscalYear + 1;
    var endMonth0 := if startMonth == 1 then 11 else startMonth - 2;
    DateUTC(endYear, endMonth0 + 1, 0)
  }

  datatype PeriodBounds = PeriodBounds(sequence: int, start: Day, end: Day)

  /** The twelve rows of generatePeriods. */
  function GeneratePeriods(fiscalYear: int, startMonth: int): (p: seq<PeriodBounds>)
    ensures |p| == 12 && forall i | 0 <= i < 12 :: p[i].sequence == i + 1
  {
    var first := MonthOf(FiscalYearStart(fiscalYear, startMonth)) + 1;
    seq(12, i =>
      var monthIndex := first - 1 + i;
      var year, month := fiscalYear + monthIndex / 12, monthIndex % 12;
      PeriodBounds(i + 1, DateUTC(year, month, 1), DateUTC(year, month + 1, 0)))
  }

  /** Neither calendar year the fiscal year touches is one that Date.UTC reinterprets. */
  predicate PlainYear(fiscalYear: int, startMonth: int) {
    !(0 <= fiscalYear <= 99) && (startMonth == 1 || !(0 <= fiscalYear + 1 <= 99))
  }

  // ---- months and years -----------------------------------------------------

  lemma YearLength(y: int)
    ensures YearStart(y + 1) - YearStart(y) == DaysBefore(12, Leap(y))
  {
    ShiftMod(y, 492, 4);
    ShiftMod(y, 19, 100);
    ShiftMod(y, 4, 400);
    QuotientStep(y - 1969, 4);
    QuotientStep(y - 1901, 100);
    QuotientStep(y - 1601, 400);
    Centuries(y);
  }

  lemma Centuries(y: int)
    ensures y % 400 == 0 ==> y % 100 == 0
    ensures y % 100 == 0 ==> y % 4 == 0
  {
  }

  lemma ShiftMod(y: int, k: int, d: int)
    requires d == 4 || d == 100 || d == 400
    ensures (y - k * d) % d == y % d
  {
  }

  lemma QuotientStep(n: int, d: int)
    requires d == 4 || d == 100 || d == 400
    ensures (n + 1) / d - n / d == if (n + 1) % d == 0 then 1 else 0
  {
  }

  lemma {:induction false} YearStartBounds(k: nat)
    ensures 365 * k <= YearStart(1970 + k) <= 366 * k
    ensures YearStart(1970 - k) <= -365 * k
  {
    if k > 0 {
      YearStartBounds(k - 1);
      YearLength(1970 + k - 1);
      YearLength(1970 - k);
    }
  }

  lemma GuessIsEarly(d: Day)
    ensures 0 <= d ==> YearStart(1970 + d / 366) <= d
    ensures d < 0 ==> YearStart(1970 - (-d / 365 + 1)) <= d
  {
    if 0 <= d {
      YearStartBounds(d / 366);
    } else {
      YearStartBounds(-d / 365 + 1);
    }
  }

  lemma SerialParts(y: int, m: int)
    requires 0 <= m < 12
    ensures (12 * y + m) / 12 == y && (12 * y + m) % 12 == m
  {
  }

  lemma MonthSpan(d: Day)
    ensures MonthStart(12 * YearOf(d) + MonthOf(d)) <= d < MonthStart(12 * YearOf(d) + MonthOf(d) + 1)
  {
    hide YearStart, Leap, YearOf, SearchMonth;
    var y, m := YearOf(d), MonthOf(d);
    YearLength(y);
    SerialParts(y, m);
    if m == 11 { SerialParts(y + 1, 0); } else { SerialParts(y, m + 1); }
    assert 12 * y + m + 1 == if m == 11 then 12 * (y + 1) + 0 else 12 * y + (m + 1);
  }

  lemma MonthLength(serial: int)
    ensures 28 <= MonthStart(serial + 1) - MonthStart(serial) <= 31
  {
    hide YearStart, Leap;
    var y, m := serial / 12, serial % 12;
    if m == 11 {
      SerialParts(y + 1, 0);
      YearLength(y);
    } else {
      SerialParts(y, m + 1);
    }
  }

  lemma {:induction false} MonthsIncrease(s: int, t: int)
    requires s < t
    ensures MonthStart(s) < MonthStart(t)
    decreases t - s
  {
    hide *;
    MonthLength(t - 1);
    if s < t - 1 { MonthsIncrease(s, t - 1); }
  }

  // A day lies in the month range [s, t) exactly when its serial month does.
  lemma InMonths(d: Day, s: int, t: int)
    ensures MonthStart(s) <= d < MonthStart(t) <==> s <= 12 * YearOf(d) + MonthOf(d) < t
  {
    hide *;
    MonthSpan(d);
    var own := 12 * YearOf(d) + MonthOf(d);
    if own < s && own + 1 < s { MonthsIncrease(own + 1, s); }
    if s < own { MonthsIncrease(s, own); }
    if t < own { MonthsIncrease(t, own); }
    if own + 1 < t { MonthsIncrease(own + 1, t); }
  }

  // ---- fiscal years ---------------------------------------------------------

  // ---- against the civil calendar -----------------------------------------------

  /** Days of month m (1 to 12) of a year of the Gregorian calendar. */
  function DaysIn(y: int, m: int): int {
    if m == 2 then (if y % 400 == 0 || (y % 4 == 0 && y % 100 != 0) then 29 else 28)
    else if m == 4 || m == 6 || m == 9 || m == 11 then 30
    else 31
  }

  /** Days from 1 January 1970 to day k of month m of year y, counting years from March. */
  function CivilDay(y: int, m: int, k: int): Day {
    var year, month := if m <= 2 then y - 1 else y, if m <= 2 then m + 9 else m - 3;
    365 * year + year / 4 - year / 100 + year / 400 + (153 * month + 2) / 5 + k - 1 - 719468
  }

  lemma YearStartFrom(y: int)
    ensures YearStart(y) == 365 * (y - 1) + (y - 1) / 4 - (y - 1) / 100 + (y - 1) / 400 - 719162
  {
    ShiftQuotient(y - 1, 492, 4);
    ShiftQuotient(y - 1, 19, 100);
    ShiftQuotient(y - 1, 4, 400);
  }

  lemma ShiftQuotient(n: int, k: int, d: int)
    requires d == 4 || d == 100 || d == 400
    ensures (n - k * d) / d == n / d - k
  {
  }

  lemma MarchBased(m: int, leap: bool)
    requires 1 <= m <= 12
    ensures DaysBefore(m - 1, leap)
         == (if m <= 2 then (153 * (m + 9) + 2) / 5 - 306 else (153 * (m - 3) + 2) / 5 + 59 + (if leap then 1 else 0))
  {
  }

  lemma LeapDays(y: int)
    ensures y / 4 - y / 100 + y / 400 - ((y - 1) / 4 - (y - 1) / 100 + (y - 1) / 400) == if Leap(y) then 1 else 0
  {
    QuotientStep(y - 1, 4);
    QuotientStep(y - 1, 100);
    QuotientStep(y - 1, 400);
    Centuries(y);
  }

  lemma MonthStartIsCivil(y: int, m: int)
    requires 1 <= m <= 12
    ensures MonthStart(12 * y + m - 1) == CivilDay(y, m, 1)
  {
    hide YearStart, DaysBefore, Leap;
    SerialParts(y, m - 1);
    YearStartFrom(y);
    MarchBased(m, Leap(y));
    if m > 2 { LeapDays(y); }
  }

  lemma MonthHasDays(y: int, m: int)
    requires 1 <= m <= 12
    ensures MonthStart(12 * y + m) == MonthStart(12 * y + m - 1) + DaysIn(y, m)
  {
    hide YearStart;
    SerialParts(y, m - 1);
    YearLength(y);
    if m < 12 { SerialParts(y, m); } else { SerialParts(y + 1, 0); assert 12 * y + 12 == 12 * (y + 1) + 0; }
  }

  /** The calendar is the Gregorian one: a day is day k of month m of year y, as the UTC year and
      month of the date say, exactly when it has the civil day number of that date. */
  lemma GregorianDate(d: Day, y: int, m: int, k: int)
    requires 1 <= m <= 12 && 1 <= k <= DaysIn(y, m)
    ensures d == CivilDay(y, m, k) <==> YearOf(d) == y && MonthOf(d) + 1 == m && d == MonthStart(12 * y + m - 1) + k - 1
  {
    hide YearOf, MonthOf, MonthStart, DaysIn, YearStart;
    MonthStartIsCivil(y, m);
    MonthHasDays(y, m);
    assert CivilDay(y, m, k) == CivilDay(y, m, 1) + k - 1;
    InMonths(d, 12 * y + m - 1, 12 * y + m);
    SerialParts(YearOf(d), MonthOf(d));
    SerialParts(y, m - 1);
  }

  /** 1 January 1970 is day 0, and four centuries have 146097 days. */
  lemma FourCenturies(y: int, m: int)
    requires 1 <= m <= 12
    ensures MonthStart(12 * 1970) == 0
    ensures MonthStart(12 * (y + 400) + m - 1) == MonthStart(12 * y + m - 1) + 146097
  {
    hide MonthStart;
    MonthStartIsCivil(1970, 1);
    MonthStartIsCivil(y, m);
    MonthStartIsCivil(y + 400, m);
    var year := if m <= 2 then y - 1 else y;
    assert (year + 400) / 4 == year / 4 + 100 && (year + 400) / 100 == year / 100 + 4 && (year + 400) / 400 == year / 400 + 1;
  }

  /** Date.UTC with an overflowing month or day 0 gives the day that it names: the first day of a
      month, or the last of the month before. */
  lemma FirstAndLastDay(y: int, m: int)
    requires 1 <= m <= 12 && !(0 <= y <= 99)
    ensures DateUTC(y, m - 1, 1) == CivilDay(y, m, 1)
    ensures DateUTC(y, m, 0) == CivilDay(y, m, DaysIn(y, m))
  {
    hide MonthStart, DaysIn;
    MonthStartIsCivil(y, m);
    MonthHasDays(y, m);
  }

  lemma FiscalYearByMonth(d: Day, startMonth: int, fiscalYear: int)
    requires 1 <= startMonth <= 12
    ensures FiscalYearForDate(d, startMonth) == fiscalYear
       <==> 12 * fiscalYear + startMonth - 1 <= 12 * YearOf(d) + MonthOf(d) < 12 * fiscalYear + startMonth + 11
  {
  }

  lemma PlainBounds(fiscalYear: int, startMonth: int)
    requires 1 <= startMonth <= 12 && PlainYear(fiscalYear, startMonth)
    ensures FiscalYearStart(fiscalYear, startMonth) == MonthStart(12 * fiscalYear + startMonth - 1)
    ensures FiscalYearEnd(fiscalYear, startMonth) == MonthStart(12 * fiscalYear + startMonth + 11) - 1
  {
    hide MonthStart;
  }

  ghost predicate BoundsAreRight(fiscalYear: int, startMonth: int) {
    forall d: Day :: FiscalYearForDate(d, startMonth) == fiscalYear
                <==> FiscalYearStart(fiscalYear, startMonth) <= d <= FiscalYearEnd(fiscalYear, startMonth)
  }

  lemma FiscalYearOfDate(d: Day, fiscalYear: int, startMonth: int)
    requires 1 <= startMonth <= 12 && PlainYear(fiscalYear, startMonth)
    ensures FiscalYearForDate(d, startMonth) == fiscalYear
       <==> FiscalYearStart(fiscalYear, startMonth) <= d <= FiscalYearEnd(fiscalYear, startMonth)
  {
    hide *;
    PlainBounds(fiscalYear, startMonth);
    FiscalYearByMonth(d, startMonth, fiscalYear);
    InMonths(d, 12 * fiscalYear + startMonth - 1, 12 * fiscalYear + startMonth + 11);
  }

  /** fiscalYearForDate(d) = f exactly when d lies within f's bounds, for every day, if and
      only if f touches none of the years 0..99. */
  lemma FiscalYearBoundsIff(fiscalYear: int, startMonth: int)
    requires 1 <= startMonth <= 12
    ensures BoundsAreRight(fiscalYear, startMonth) <==> PlainYear(fiscalYear, startMonth)
  {
    if PlainYear(fiscalYear, startMonth) {
      forall d: Day { FiscalYearOfDate(d, fiscalYear, startMonth); }
    } else {
      var d := ReinterpretedWitness(fiscalYear, startMonth);
    }
  }

  // A day on which a fiscal year near 0..99 gets its bounds wrong.
  lemma ReinterpretedWitness(fiscalYear: int, startMonth: int) returns (d: Day)
    requires 1 <= startMonth <= 12 && !PlainYear(fiscalYear, startMonth)
    ensures (FiscalYearForDate(d, startMonth) == fiscalYear)
         != (FiscalYearStart(fiscalYear, startMonth) <= d <= FiscalYearEnd(fiscalYear, startMonth))
  {
    hide MonthStart, YearOf, MonthOf, FiscalYearForDate;
    var s := 12 * fiscalYear + startMonth - 1;
    if fiscalYear == -1 {
      // The end falls in 1900: the first day of fiscal year 0 is taken for fiscal year -1.
      d := MonthStart(s + 12);
      InMonths(d, s + 12, s + 13);
      MonthLength(s + 12);
      FiscalYearByMonth(d, startMonth, fiscalYear);
      MonthsIncrease(s, s + 12);
      MonthsIncrease(s + 12, 12 * 1900 + startMonth - 1);
    } else {
      // The start falls in 1900 + f: f's own first day is outside its bounds.
      d := MonthStart(s);
      InMonths(d, s, s + 1);
      MonthLength(s);
      FiscalYearByMonth(d, startMonth, fiscalYear);
      MonthsIncrease(s, 12 * (1900 + fiscalYear) + startMonth - 1);
    }
  }

  // ---- where the reading of years has a seam ----------------------------------

  /** Date.UTC does not read y and y + 1 as consecutive years. */
  predicate Seam(y: int) { y == -1 || y == 99 }

  lemma ReadSteps(y: int)
    ensures Read(y) + 1 == Read(y + 1) <==> !Seam(y)
  {
  }

  lemma SameMonth(s: int, t: int)
    ensures MonthStart(s) == MonthStart(t) <==> s == t
  {
    hide MonthStart;
    if s < t { MonthsIncrease(s, t); } else if t < s { MonthsIncrease(t, s); }
  }

  /** A fiscal year ends the day before the next one starts, unless it starts in January and
      is followed by a seam. */
  lemma YearsAbut(fiscalYear: int, startMonth: int)
    requires 1 <= startMonth <= 12
    ensures FiscalYearEnd(fiscalYear, startMonth) + 1 == FiscalYearStart(fiscalYear + 1, startMonth)
       <==> !(startMonth == 1 && Seam(fiscalYear))
  {
    hide MonthStart, Read, Seam;
    ReadSteps(fiscalYear);
    SameMonth(12 * Read(fiscalYear) + 12, 12 * Read(fiscalYear + 1));
  }

  // ---- the period table -----------------------------------------------------

  lemma FirstMonth(fiscalYear: int, startMonth: int)
    requires 1 <= startMonth <= 12
    ensures MonthOf(FiscalYearStart(fiscalYear, startMonth)) == startMonth - 1
  {
    hide MonthStart, MonthOf, YearOf, Read;
    var s := 12 * Read(fiscalYear) + startMonth - 1;
    var d := FiscalYearStart(fiscalYear, startMonth);
    assert d == MonthStart(s);
    MonthLength(s);
    InMonths(d, s, s + 1);
    hide FiscalYearStart;
    SerialParts(YearOf(d), MonthOf(d));
    SerialParts(Read(fiscalYear), startMonth - 1);
  }

  /** The serial number of the month that row i of the period table stands for. */
  function RowMonth(fiscalYear: int, startMonth: int, i: int): int {
    if startMonth - 1 + i < 12 then 12 * Read(fiscalYear) + startMonth - 1 + i
    else 12 * Read(fiscalYear + 1) + startMonth - 13 + i
  }

  lemma PeriodRow(fiscalYear: int, startMonth: int, i: int)
    requires 1 <= startMonth <= 12 && 0 <= i < 12
    ensures var m := RowMonth(fiscalYear, startMonth, i);
      GeneratePeriods(fiscalYear, startMonth)[i] == PeriodBounds(i + 1, MonthStart(m), MonthStart(m + 1) - 1)
  {
    hide MonthStart, MonthOf, FiscalYearStart, Read;
    FirstMonth(fiscalYear, startMonth);
    var index := startMonth - 1 + i;
    var year, month := fiscalYear + index / 12, index % 12;
    assert index / 12 == (if index < 12 then 0 else 1) && month == (if index < 12 then index else index - 12);
    assert GeneratePeriods(fiscalYear, startMonth)[i] == PeriodBounds(i + 1, DateUTC(year, month, 1), DateUTC(year, month + 1, 0));
    assert 12 * Read(year) + month == RowMonth(fiscalYear, startMonth, i);
  }

  /** The twelve periods are non-empty, contiguous and cover exactly the fiscal year. */
  predicate Tiles(p: seq<PeriodBounds>, start: Day, end: Day) {
    && |p| == 12 && p[0].start == start && p[11].end == end
    && (forall i | 0 <= i < 12 :: p[i].start <= p[i].end)
    && (forall i | 0 <= i < 11 :: p[i].end + 1 == p[i + 1].start)
  }

  lemma RowsAbut(fiscalYear: int, startMonth: int, i: int)
    requires 1 <= startMonth <= 12 && 0 <= i < 11
    ensures var p := GeneratePeriods(fiscalYear, startMonth);
      p[i].end + 1 == p[i + 1].start <==> !(startMonth - 1 + i == 11 && Seam(fiscalYear))
  {
    hide MonthStart, GeneratePeriods, Read, Seam;
    PeriodRow(fiscalYear, startMonth, i);
    PeriodRow(fiscalYear, startMonth, i + 1);
    ReadSteps(fiscalYear);
    SameMonth(RowMonth(fiscalYear, startMonth, i) + 1, RowMonth(fiscalYear, startMonth, i + 1));
  }

  // The table has twelve rows, none empty, from the first day of the fiscal year to its last.
  lemma RowsSpan(fiscalYear: int, startMonth: int)
    requires 1 <= startMonth <= 12
    ensures var p := GeneratePeriods(fiscalYear, startMonth);
      && |p| == 12 && p[0].start == FiscalYearStart(fiscalYear, startMonth) && p[11].end == FiscalYearEnd(fiscalYear, startMonth)
      && forall i | 0 <= i < 12 :: p[i].start <= p[i].end
  {
    hide MonthStart, RowMonth, FiscalYearStart, FiscalYearEnd, GeneratePeriods;
    var p := GeneratePeriods(fiscalYear, startMonth);
    EndMonths(fiscalYear, startMonth);
    PeriodRow(fiscalYear, startMonth, 0);
    PeriodRow(fiscalYear, startMonth, 11);
    forall i | 0 <= i < 12 ensures p[i].start <= p[i].end {
      PeriodRow(fiscalYear, startMonth, i);
      MonthLength(RowMonth(fiscalYear, startMonth, i));
    }
  }

  lemma EndMonths(fiscalYear: int, startMonth: int)
    requires 1 <= startMonth <= 12
    ensures FiscalYearStart(fiscalYear, startMonth) == MonthStart(RowMonth(fiscalYear, startMonth, 0))
    ensures FiscalYearEnd(fiscalYear, startMonth) == MonthStart(RowMonth(fiscalYear, startMonth, 11) + 1) - 1
  {
    hide MonthStart, Read;
  }

  /** The generated periods tile the fiscal year, unless it does not start in January and runs
      across a seam. */
  lemma PeriodsTile(fiscalYear: int, startMonth: int)
    requires 1 <= startMonth <= 12
    ensures Tiles(GeneratePeriods(fiscalYear, startMonth), FiscalYearStart(fiscalYear, startMonth), FiscalYearEnd(fiscalYear, startMonth))
       <==> !(startMonth != 1 && Seam(fiscalYear))
  {
    hide GeneratePeriods, FiscalYearStart, FiscalYearEnd, Seam;
    var p := GeneratePeriods(fiscalYear, startMonth);
    RowsSpan(fiscalYear, startMonth);
    forall i | 0 <= i < 11 ensures p[i].end + 1 == p[i + 1].start <==> !(startMonth - 1 + i == 11 && Seam(fiscalYear)) {
      RowsAbut(fiscalYear, startMonth, i);
    }
    if startMonth != 1 {
      var last := 12 - startMonth;
      assert p[last].end + 1 == p[last + 1].start <==> !Seam(fiscalYear);
    }
  }

  /** Every day of a fiscal year lies in exactly one of its periods, every other day in none. */
  lemma OnePeriodPerDay(fiscalYear: int, startMonth: int, d: Day)
    requires 1 <= startMonth <= 12 && PlainYear(fiscalYear, startMonth)
    ensures var p := GeneratePeriods(fiscalYear, startMonth);
            && (FiscalYearForDate(d, startMonth) == fiscalYear
                <==> exists i | 0 <= i < 12 :: p[i].start <= d <= p[i].end)
            && (forall i, j | 0 <= i < 12 && 0 <= j < 12
                  && p[i].start <= d <= p[i].end && p[j].start <= d <= p[j].end :: i == j)
  {
    hide MonthStart, YearOf, MonthOf, FiscalYearForDate, FiscalYearStart, DateUTC;
    var p := GeneratePeriods(fiscalYear, startMonth);
    var s := 12 * fiscalYear + startMonth - 1;
    var own := 12 * YearOf(d) + MonthOf(d);
    FiscalYearByMonth(d, startMonth, fiscalYear);
    forall i | 0 <= i < 12 ensures p[i].start <= d <= p[i].end <==> own == s + i {
      PeriodRow(fiscalYear, startMonth, i);
      assert RowMonth(fiscalYear, startMonth, i) == s + i;
      InMonths(d, s + i, s + i + 1);
    }
    if s <= own < s + 12 { assert p[own - s].start <= d <= p[own - s].end; }
  }

  /** In the civil calendar: a fiscal year runs from the first of its start month to the day before
      the first of that month a year later, and period i is the i-th whole month of it. */
  lemma FiscalYearInCivilDays(fiscalYear: int, startMonth: int, i: int)
    requires 1 <= startMonth <= 12 && PlainYear(fiscalYear, startMonth) && 0 <= i < 12
    ensures FiscalYearStart(fiscalYear, startMonth) == CivilDay(fiscalYear, startMonth, 1)
    ensures FiscalYearEnd(fiscalYear, startMonth) + 1 == CivilDay(fiscalYear + 1, startMonth, 1)
    ensures var late := startMonth + i > 12;
      var y, m := if late then fiscalYear + 1 else fiscalYear, if late then startMonth + i - 12 else startMonth + i;
      GeneratePeriods(fiscalYear, startMonth)[i] == PeriodBounds(i + 1, CivilDay(y, m, 1), CivilDay(y, m, DaysIn(y, m)))
  {
    hide MonthStart, FiscalYearStart, FiscalYearEnd, GeneratePeriods, DaysIn;
    PlainBounds(fiscalYear, startMonth);
    MonthStartIsCivil(fiscalYear, startMonth);
    MonthStartIsCivil(fiscalYear + 1, startMonth);
    PeriodRow(fiscalYear, startMonth, i);
    var late := startMonth + i > 12;
    var y, m := if late then fiscalYear + 1 else fiscalYear, if late then startMonth + i - 12 else startMonth + i;
    assert 12 * y + m - 1 == 12 * fiscalYear + startMonth - 1 + i == RowMonth(fiscalYear, startMonth, i);
    MonthStartIsCivil(y, m);
    MonthHasDays(y, m);
    assert CivilDay(y, m, DaysIn(y, m)) == CivilDay(y, m, 1) + DaysIn(y, m) - 1;
  }
}
