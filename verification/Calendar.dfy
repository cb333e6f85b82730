/**
 The two calendar-date tests of the proof records, over the day numbers of ECMA-262, section 21.4.1.
 */
module Calendar {
  import opened Text

  // --- day numbers ------------------------------------------------------------------------------------

  predicate IsLeap(y: int) {
    y % 4 == 0 && (y % 100 != 0 || y % 400 == 0)
  }

  /** The number of the first day of year y, counted from 1970-01-01 (section 21.4.1.5). */
  function DayFromYear(y: int): int {
    365 * (y - 1970) + (y - 1969) / 4 - (y - 1901) / 100 + (y - 1601) / 400
  }

  lemma YearLength(y: int)
    ensures DayFromYear(y + 1) == DayFromYear(y) + if IsLeap(y) then 366 else 365
  {
    QuarterStep(y);
    CenturyStep(y);
    EraStep(y);
    LeapDivisors(y);
  }

  lemma QuarterStep(y: int)
    ensures (y - 1968) / 4 == (y - 1969) / 4 + if y % 4 == 0 then 1 else 0
  {
  }

  lemma CenturyStep(y: int)
    ensures (y - 1900) / 100 == (y - 1901) / 100 + if y % 100 == 0 then 1 else 0
  {
  }

  lemma EraStep(y: int)
    ensures (y - 1600) / 400 == (y - 1601) / 400 + if y % 400 == 0 then 1 else 0
  {
    var k, r := y / 400, y % 400;
    assert y == 400 * k + r;
    assert (y - 1600) / 400 == k - 4;
    assert (y - 1601) / 400 == if r == 0 then k - 5 else k - 4;
  }

  lemma LeapDivisors(y: int)
    ensures y % 400 == 0 ==> y % 100 == 0
    ensures y % 100 == 0 ==> y % 4 == 0
  {
    assert y == 400 * (y / 400) + y % 400 && y == 100 * (y / 100) + y % 100;
    FourTimes(y / 400);
    HundredTimes(y / 100);
  }

  lemma FourTimes(q: int)
    ensures 400 * q % 100 == 0
  {
    assert 400 * q == 100 * (4 * q);
  }

  lemma HundredTimes(q: int)
    ensures 100 * q % 4 == 0
  {
    assert 100 * q == 4 * (25 * q);
  }

  /** The year that a day falls in, looked for from year y. */
  function YearFrom(y: int, day: int): (r: int)
    ensures DayFromYear(r) <= day < DayFromYear(r + 1)
    decreases day < DayFromYear(y), if day < DayFromYear(y) then DayFromYear(y) - day else day - DayFromYear(y)
  {
    YearLength(y);
    YearLength(y - 1);
    if day < DayFromYear(y) then YearFrom(y - 1, day)
    else if day >= DayFromYear(y + 1) then YearFrom(y + 1, day)
    else y
  }

  /** `YearFromTime`: the year whose days include this one. */
  function YearFromDay(day: int): (y: int)
    ensures DayFromYear(y) <= day < DayFromYear(y + 1)
  {
    YearFrom(1970, day)
  }

  lemma {:induction false} YearsAreOrdered(a: int, b: int)
    requires a <= b
    ensures DayFromYear(a) <= DayFromYear(b)
    decreases b - a
  {
    if a < b {
      YearLength(a);
      YearsAreOrdered(a + 1, b);
    }
  }

  lemma YearIsUnique(day: int, y: int)
    requires DayFromYear(y) <= day < DayFromYear(y + 1)
    ensures YearFromDay(day) == y
  {
    hide DayFromYear;
    var r := YearFromDay(day);
    if r < y { YearsAreOrdered(r + 1, y); }
    if y < r { YearsAreOrdered(y + 1, r); }
  }

  /** The day within its year on which a month, numbered from 0, begins. */
  function MonthStart(month: int, leap: bool): int {
    var extra := if leap then 1 else 0;
    match month
    case 0 => 0
    case 1 => 31
    case 2 => 59 + extra
    case 3 => 90 + extra
    case 4 => 120 + extra
    case 5 => 151 + extra
    case 6 => 181 + extra
    case 7 => 212 + extra
    case 8 => 243 + extra
    case 9 => 273 + extra
    case 10 => 304 + extra
    case 11 => 334 + extra
    case _ => 365 + extra
  }

  function MonthWithin(dayInYear: int, leap: bool, month: nat): (m: nat)
    requires month <= 11 && MonthStart(month, leap) <= dayInYear < MonthStart(12, leap)
    ensures month <= m <= 11 && MonthStart(m, leap) <= dayInYear < MonthStart(m + 1, leap)
    decreases 11 - month
  {
    if dayInYear < MonthStart(month + 1, leap) then month else MonthWithin(dayInYear, leap, month + 1)
  }

  lemma DayInYear(day: int)
    ensures var y := YearFromDay(day); 0 <= day - DayFromYear(y) < MonthStart(12, IsLeap(y))
  {
    YearLength(YearFromDay(day));
  }

  /** `MonthFromTime` (section 21.4.1.11), from 0 for January. */
  function MonthFromDay(day: int): nat {
    var y := YearFromDay(day);
    DayInYear(day);
    MonthWithin(day - DayFromYear(y), IsLeap(y), 0)
  }

  /** `DateFromTime` (section 21.4.1.12). */
  function DateFromDay(day: int): int {
    var y := YearFromDay(day);
    day - DayFromYear(y) - MonthStart(MonthFromDay(day), IsLeap(y)) + 1
  }

  /** `MakeDay` (section 21.4.1.28): a month outside 0 to 11 and a date outside the month overflow. */
  function MakeDay(year: int, month: int, date: int): int {
    var y := year + month / 12;
    DayFromYear(y) + MonthStart(month % 12, IsLeap(y)) + date - 1
  }

  // --- real dates ---------------------------------------------------------------------------------------

  function DaysInMonth(year: int, month: int): int {
    if month in {4, 6, 9, 11} then 30
    else if month != 2 then 31
    else if IsLeap(year) then 29
    else 28
  }

  /** A date of the proleptic Gregorian calendar. */
  predicate IsRealDate(year: int, month: int, date: int) {
    1 <= month <= 12 && 1 <= date <= DaysInMonth(year, month)
  }

  lemma MonthLength(year: int, month: int)
    requires 1 <= month <= 12
    ensures MonthStart(month, IsLeap(year)) == MonthStart(month - 1, IsLeap(year)) + DaysInMonth(year, month)
  {
  }

  /** The parts read from any day number form a real date. */
  lemma PartsAreReal(day: int)
    ensures IsRealDate(YearFromDay(day), MonthFromDay(day) + 1, DateFromDay(day))
  {
    DayInYear(day);
    MonthLength(YearFromDay(day), MonthFromDay(day) + 1);
  }

  predicate ReadsBack(year: int, month: int, date: int, day: int) {
    YearFromDay(day) == year && MonthFromDay(day) == month - 1 && DateFromDay(day) == date
  }

  lemma {:induction false} MonthIsUnique(dayInYear: int, leap: bool, from: nat, month: nat)
    requires from <= month <= 11 && MonthStart(from, leap) <= dayInYear < MonthStart(12, leap)
    requires MonthStart(month, leap) <= dayInYear < MonthStart(month + 1, leap)
    ensures MonthWithin(dayInYear, leap, from) == month
    decreases 11 - from
  {
    if from < month {
      assert MonthStart(from + 1, leap) <= MonthStart(month, leap);
      MonthIsUnique(dayInYear, leap, from + 1, month);
    }
  }

  lemma MonthFromDayIs(day: int, year: int, month: int)
    requires YearFromDay(day) == year && 1 <= month <= 12
    requires MonthStart(month - 1, IsLeap(year)) <= day - DayFromYear(year) < MonthStart(month, IsLeap(year))
    ensures MonthFromDay(day) == month - 1
  {
    hide DayFromYear, IsLeap, YearFromDay;
    DayInYear(day);
    MonthIsUnique(day - DayFromYear(year), IsLeap(year), 0, month - 1);
  }

  lemma RealDateReadsBack(year: int, month: int, date: int)
    requires IsRealDate(year, month, date)
    ensures ReadsBack(year, month, date, MakeDay(year, month - 1, date))
  {
    hide DayFromYear, MonthStart, YearFromDay, IsLeap, MonthFromDay, DaysInMonth;
    var day := MakeDay(year, month - 1, date);
    assert (month - 1) / 12 == 0 && (month - 1) % 12 == month - 1;
    YearLength(year);
    YearEnd(year);
    MonthLength(year, month);
    MonthsInYear(year, month);
    YearIsUnique(day, year);
    MonthFromDayIs(day, year, month);
  }

  lemma YearEnd(year: int)
    ensures MonthStart(12, IsLeap(year)) == (if IsLeap(year) then 366 else 365) && MonthStart(0, IsLeap(year)) == 0
  {
  }

  /** Normalising a date through its day number and reading the parts back gives the date exactly when
      it is a real one: for all integers, overflowing months and days included. */
  lemma ReadsBackIff(year: int, month: int, date: int)
    ensures ReadsBack(year, month, date, MakeDay(year, month - 1, date)) <==> IsRealDate(year, month, date)
  {
    hide YearFromDay, MonthFromDay, DateFromDay, MakeDay;
    PartsAreReal(MakeDay(year, month - 1, date));
    if IsRealDate(year, month, date) {
      RealDateReadsBack(year, month, date);
    }
  }

  lemma MonthsInYear(year: int, month: int)
    requires 1 <= month <= 12
    ensures 0 <= MonthStart(month - 1, IsLeap(year)) && MonthStart(month, IsLeap(year)) <= MonthStart(12, IsLeap(year))
  {
  }

  // --- the two tests --------------------------------------------------------------------------------------

  datatype Parts = Parts(year: nat, month: nat, date: nat)

  /** The match of `^(\d{4})-(\d{2})-(\d{2})$`. */
  function DateParts(value: string): Option<Parts> {
    if |value| == 10 && value[4] == '-' && value[7] == '-'
       && AllDigits(value[..4]) && AllDigits(value[5..7]) && AllDigits(value[8..])
    then Some(Parts(NatOf(value[..4]), NatOf(value[5..7]), NatOf(value[8..])))
    else None
  }

  /** The year `Date.UTC` uses (section 21.4.3.4): 0 to 99 mean the twentieth century. */
  function FullYear(year: int): int {
    if 0 <= year <= 99 then 1900 + year else year
  }

  /** `isIsoCalendarDate`: through `Date.UTC`. */
  predicate IsIsoCalendarDate(value: string) {
    match DateParts(value)
    case None => false
    case Some(p) => ReadsBack(p.year, p.month, p.date, MakeDay(FullYear(p.year), p.month - 1, p.date))
  }

  /** `isIsoDate`: through the date string format, where a month outside 1 to 12 or a day outside 1 to 31
      is not a date at all. */
  predicate IsIsoDate(value: string) {
    match DateParts(value)
    case None => false
    case Some(p) =>
      && 1 <= p.month <= 12 && 1 <= p.date <= 31
      && ReadsBack(p.year, p.month, p.date, MakeDay(p.year, p.month - 1, p.date))
  }

  predicate DenotesRealDate(value: string) {
    match DateParts(value)
    case None => false
    case Some(p) => IsRealDate(p.year, p.month, p.date)
  }

  /** `isIsoDate` accepts exactly the real dates. */
  lemma IsoDateIff(value: string)
    ensures IsIsoDate(value) <==> DenotesRealDate(value)
  {
    hide DateParts, ReadsBack, MakeDay, DaysInMonth;
    match DateParts(value)
    case None =>
    case Some(p) =>
      ReadsBackIff(p.year, p.month, p.date);
      MonthsAreShort(p.year, p.month);
  }

  lemma MonthsAreShort(year: int, month: int)
    ensures DaysInMonth(year, month) <= 31
  {
  }

  /** `isIsoCalendarDate` accepts exactly the real dates from year 100 on. */
  lemma IsoCalendarDateIff(value: string)
    ensures IsIsoCalendarDate(value) <==> DenotesRealDate(value) && DateParts(value).value.year >= 100
  {
    match DateParts(value)
    case None =>
    case Some(p) =>
      ReadsBackIff(p.year, p.month, p.date);
      if p.year <= 99 {
        CenturyNeverReadsBack(p.year, p.month, p.date);
      }
  }

  /** A year from 0 to 99 is never read back: the parts come from 1900 on. */
  lemma CenturyNeverReadsBack(year: nat, month: nat, date: nat)
    requires year <= 99
    ensures !ReadsBack(year, month, date, MakeDay(FullYear(year), month - 1, date))
  {
    hide DayFromYear, YearFromDay;
    var y := FullYear(year) + (month - 1) / 12;
    var day := MakeDay(FullYear(year), month - 1, date);
    assert (month - 1) / 12 >= -1 && (month - 1) % 12 >= 0;
    assert MonthStart((month - 1) % 12, IsLeap(y)) >= 0;
    YearsAreOrdered(1899, y);
    YearLength(1898);
    assert day >= DayFromYear(1898);
    if YearFromDay(day) < 1898 { YearsAreOrdered(YearFromDay(day) + 1, 1898); }
  }
}
