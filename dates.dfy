/** Day-precision calendar arithmetic standing in for the Luxon `DateTime` values the
    heatmap works with. A date is a serial day number (0 is 1970-01-01) in the proleptic
    Gregorian calendar; the conversions to and from year/month/day follow the classic
    days-from-civil construction, counting years from March 1 so that the leap day is the
    last day of a computational year. Time of day and time zones are not modelled. */
module Dates {

  /** A calendar day: the number of days since 1970-01-01. */
  datatype Date = Date(serial: int)

  /** A year/month/day triple (months 1..12). */
  datatype Civil = Civil(year: int, month: int, day: int)

  predicate IsLeapYear(y: int) {
    y % 4 == 0 && (y % 100 != 0 || y % 400 == 0)
  }

  function DaysInMonth(y: int, m: int): (n: int)
    requires 1 <= m <= 12
    ensures 28 <= n <= 31
    ensures n == 29 <==> m == 2 && IsLeapYear(y)
  {
    if m == 2 then (if IsLeapYear(y) then 29 else 28)
    else if m == 4 || m == 6 || m == 9 || m == 11 then 30
    else 31
  }

  predicate ValidCivil(c: Civil) {
    1 <= c.month <= 12 && 1 <= c.day <= DaysInMonth(c.year, c.month)
  }

  // ----- the computational year that starts on March 1 -----

  /** Months counted from March: March is 0, February is 11. */
  function MarchMonth(m: int): (mp: int)
    requires 1 <= m <= 12
    ensures 0 <= mp <= 11
  {
    if m > 2 then m - 3 else m + 9
  }

  /** Days from March 1 to the first day of month `mp` (counted from March). */
  function MonthStart(mp: int): int {
    (153 * mp + 2) / 5
  }

  /** Days from March 1 of year 0 of a 400-year era to March 1 of year `yoe` of that era. */
  function YearStart(yoe: int): int {
    365 * yoe + yoe / 4 - yoe / 100
  }

  /** Length of year `100 * p + 4 * q + c` of an era (counted from March): 366 exactly when it
      ends with a leap February. */
  function EraYearLength(p: int, q: int, c: int): int {
    if c == 3 && (q != 24 || p == 3) then 366 else 365
  }

  /** The year-of-era estimate used to invert `YearStart`. */
  function YearGuess(doe: int): int {
    doe - doe / 1460 + doe / 36524 - doe / 146096
  }

  // ----- conversions -----

  /** Serial day of a calendar date (`DateTime.local(y, m, d)`). */
  function DaysFromCivil(c: Civil): int
    requires 1 <= c.month <= 12
  {
    var y' := if c.month <= 2 then c.year - 1 else c.year;
    var doy := MonthStart(MarchMonth(c.month)) + c.day - 1;
    (y' / 400) * 146097 + YearStart(y' % 400) + doy - 719468
  }

  /** The calendar date of day `doy` (counted from March 1) of year `yoe` of era `era`. */
  function EraCivil(era: int, yoe: int, doy: int): Civil {
    var mp := (5 * doy + 2) / 153;
    var m := if mp < 10 then mp + 3 else mp - 9;
    Civil(if m <= 2 then era * 400 + yoe + 1 else era * 400 + yoe, m, doy - MonthStart(mp) + 1)
  }

  /** The calendar date of day `doe` of 400-year era `era` (day 0 is March 1 of year
      `era * 400`). */
  function EraDayCivil(era: int, doe: int): (c: Civil)
    requires 0 <= doe < 146097
    ensures ValidCivil(c)
  {
    var yoe := YearGuess(doe) / 365;
    CivilShape(doe, era);
    EraCivil(era, yoe, doe - YearStart(yoe))
  }

  /** Calendar date of a serial day (`date.year`, `date.month`, `date.day`). */
  function CivilFromDays(z: int): (c: Civil)
    ensures ValidCivil(c)
  {
    EraDayCivil((z + 719468) / 146097, (z + 719468) % 146097)
  }

  function Local(y: int, m: int, d: int): Date
    requires 1 <= m <= 12
  {
    Date(DaysFromCivil(Civil(y, m, d)))
  }

  function ToCivil(d: Date): (c: Civil)
    ensures ValidCivil(c)
  {
    CivilFromDays(d.serial)
  }

  // ----- the lemmas behind the conversions -----

  /** Within one era, year `100 * p + 4 * q + c` is recovered from any of its days. */
  lemma YearOfEra(p: int, q: int, c: int, t: int, doe: int)
    requires 0 <= p <= 3 && 0 <= q <= 24 && 0 <= c <= 3 && 0 <= t < EraYearLength(p, q, c)
    requires doe == 36524 * p + 1461 * q + 365 * c + t
    ensures YearGuess(doe) / 365 == 100 * p + 4 * q + c
    ensures YearStart(100 * p + 4 * q + c) == 36524 * p + 1461 * q + 365 * c
  {
    var u := 24 * p + q + 365 * c + t;
    assert doe == 1460 * (25 * p + q) + u;
    if doe != 146096 {
      assert doe / 146096 == 0;
      assert doe / 36524 == p;
      assert doe / 1460 == 25 * p + q + (if u >= 1460 then 1 else 0);
    }
  }

  /** Every day of an era lies in exactly one of its years. */
  lemma DecomposeDayOfEra(doe: int) returns (p: int, q: int, c: int, t: int)
    requires 0 <= doe <= 146096
    ensures 0 <= p <= 3 && 0 <= q <= 24 && 0 <= c <= 3 && 0 <= t < EraYearLength(p, q, c)
    ensures doe == 36524 * p + 1461 * q + 365 * c + t
  {
    p := if doe / 36524 > 3 then 3 else doe / 36524;
    var r := doe - 36524 * p;
    q := if r / 1461 > 24 then 24 else r / 1461;
    var r2 := r - 1461 * q;
    c := if r2 / 365 > 3 then 3 else r2 / 365;
    t := r2 - 365 * c;
  }

  /** The civil year whose February closes era year `yoe` is leap exactly when that era year
      has 366 days. */
  lemma LeapOfEraYear(era: int, p: int, q: int, c: int)
    requires 0 <= p <= 3 && 0 <= q <= 24 && 0 <= c <= 3
    ensures IsLeapYear(era * 400 + 100 * p + 4 * q + c + 1) <==> EraYearLength(p, q, c) == 366
  {
    var k := 100 * p + 4 * q + c + 1;
    EraShift(era, k);
    assert k % 4 == 0 <==> c == 3;
  }

  /** Whole eras do not change a year's remainders by 4, 100 and 400. */
  lemma EraShift(era: int, k: int)
    ensures (era * 400 + k) % 4 == k % 4
    ensures (era * 400 + k) % 100 == k % 100
    ensures (era * 400 + k) % 400 == k % 400
  {
    var x := era * 400 + k;
    RemainderBy4(x, era * 100 + k / 4, k % 4);
    RemainderBy100(x, era * 4 + k / 100, k % 100);
    YearDivision(x, era + k / 400, k % 400);
  }

  /** A remainder by 4 is determined by any quotient that leaves it in range. */
  lemma RemainderBy4(x: int, q: int, r: int)
    requires 0 <= r < 4 && x == q * 4 + r
    ensures x % 4 == r
  {
  }

  /** A remainder by 100 is determined by any quotient that leaves it in range. */
  lemma RemainderBy100(x: int, q: int, r: int)
    requires 0 <= r < 100 && x == q * 100 + r
    ensures x % 100 == r
  {
  }

  /** The quotient and remainder by the length of an era. */
  lemma EraDivision(x: int, q: int, r: int)
    requires 0 <= r < 146097 && x == q * 146097 + r
    ensures x / 146097 == q && x % 146097 == r
  {
  }

  /** The quotient and remainder by the length of an era in years. */
  lemma YearDivision(x: int, q: int, r: int)
    requires 0 <= r < 400 && x == q * 400 + r
    ensures x / 400 == q && x % 400 == r
  {
  }

  /** Month and day within a computational year: `MonthStart` splits the year as the
      Gregorian months do, so a month is recovered from any of its days. */
  lemma MonthOfYear(mp: int, d: int)
    requires 0 <= mp <= 11
    requires 1 <= d <= (if mp == 11 then 29 else DaysInMonth(2001, if mp < 10 then mp + 3 else mp - 9))
    ensures (5 * (MonthStart(mp) + d - 1) + 2) / 153 == mp
  {
  }

  /** The date `EraDayCivil` builds from any day of an era is a valid calendar date. */
  lemma CivilShape(doe: int, era: int)
    requires 0 <= doe <= 146096
    ensures var yoe := YearGuess(doe) / 365;
      0 <= yoe <= 399 && ValidCivil(EraCivil(era, yoe, doe - YearStart(yoe)))
  {
    var p, q, c, t := DecomposeDayOfEra(doe);
    YearOfEra(p, q, c, t, doe);
    EraCivilValid(era, p, q, c, t);
  }

  /** Every day of an era year names a valid calendar date. */
  lemma EraCivilValid(era: int, p: int, q: int, c: int, t: int)
    requires 0 <= p <= 3 && 0 <= q <= 24 && 0 <= c <= 3 && 0 <= t < EraYearLength(p, q, c)
    ensures ValidCivil(EraCivil(era, 100 * p + 4 * q + c, t))
  {
    LeapOfEraYear(era, p, q, c);
    var mp := (5 * t + 2) / 153;
    assert 0 <= mp <= 11;
    assert mp == 11 ==> t >= 337;
  }

  /** `CivilFromDays` first splits a day number into an era and a day of that era. */
  lemma DayOfEra(z: int, era: int, doe: int)
    requires 0 <= doe < 146097 && z == era * 146097 + doe - 719468
    ensures CivilFromDays(z) == EraDayCivil(era, doe)
  {
    EraDivision(z + 719468, era, doe);
  }

  /** Day `d` of month `mp` (counted from March) of an era year, day `doy` of that year, is
      that calendar date. */
  lemma MonthOfEraYear(era: int, yoe: int, mp: int, d: int, doy: int)
    requires 0 <= mp <= 11
    requires 1 <= d <= (if mp == 11 then 29 else DaysInMonth(2001, if mp < 10 then mp + 3 else mp - 9))
    requires doy == MonthStart(mp) + d - 1
    ensures var m := if mp < 10 then mp + 3 else mp - 9;
      EraCivil(era, yoe, doy) == Civil(if m <= 2 then era * 400 + yoe + 1 else era * 400 + yoe, m, d)
  {
    MonthOfYear(mp, d);
  }

  /** A year of an era split the way `YearStart` counts it. */
  lemma YearDigits(yoe: int) returns (p: int, q: int, c: int)
    requires 0 <= yoe <= 399
    ensures 0 <= p <= 3 && 0 <= q <= 24 && 0 <= c <= 3
    ensures yoe == 100 * p + 4 * q + c
  {
    p, q, c := yoe / 100, (yoe % 100) / 4, yoe % 4;
  }

  /** Day `doy` of era year `yoe == 100 * p + 4 * q + c` converts back to that day of that
      year. */
  lemma EraDayOfYear(era: int, yoe: int, p: int, q: int, c: int, doy: int)
    requires 0 <= p <= 3 && 0 <= q <= 24 && 0 <= c <= 3 && yoe == 100 * p + 4 * q + c
    requires 0 <= doy < EraYearLength(p, q, c)
    ensures YearStart(yoe) == 36524 * p + 1461 * q + 365 * c
    ensures 0 <= YearStart(yoe) + doy < 146097
    ensures EraDayCivil(era, YearStart(yoe) + doy) == EraCivil(era, yoe, doy)
  {
    assert YearStart(yoe) == 36524 * p + 1461 * q + 365 * c by {
      YearOfEra(p, q, c, 0, 36524 * p + 1461 * q + 365 * c);
    }
    YearOfEra(p, q, c, doy, YearStart(yoe) + doy);
  }

  /** The era-day number of a calendar date names that calendar date again. */
  lemma EraDayOfCivil(c: Civil, era: int, yoe: int, doy: int)
    requires ValidCivil(c)
    requires era * 400 + yoe == (if c.month <= 2 then c.year - 1 else c.year) && 0 <= yoe < 400
    requires doy == MonthStart(MarchMonth(c.month)) + c.day - 1
    ensures 0 <= YearStart(yoe) + doy < 146097 && EraDayCivil(era, YearStart(yoe) + doy) == c
  {
    var p, q, cc := YearDigits(yoe);
    DayFitsEraYear(c, era, p, q, cc, doy);
    EraDayOfYear(era, yoe, p, q, cc, doy);
    MonthOfEraYear(era, yoe, MarchMonth(c.month), c.day, doy);
  }

  /** A valid date's day of its computational year lies within that era year's length. */
  lemma DayFitsEraYear(c: Civil, era: int, p: int, q: int, cc: int, doy: int)
    requires ValidCivil(c) && 0 <= p <= 3 && 0 <= q <= 24 && 0 <= cc <= 3
    requires era * 400 + 100 * p + 4 * q + cc == (if c.month <= 2 then c.year - 1 else c.year)
    requires doy == MonthStart(MarchMonth(c.month)) + c.day - 1
    ensures 0 <= doy < EraYearLength(p, q, cc)
  {
    LeapOfEraYear(era, p, q, cc);
    assert MarchMonth(c.month) == 11 ==> c.year == era * 400 + 100 * p + 4 * q + cc + 1;
  }

  /** Converting a valid calendar date to a day number and back gives the same date. */
  lemma CivilRoundTrip(c: Civil)
    requires ValidCivil(c)
    ensures CivilFromDays(DaysFromCivil(c)) == c
  {
    var y' := if c.month <= 2 then c.year - 1 else c.year;
    var doy := MonthStart(MarchMonth(c.month)) + c.day - 1;
    EraDayOfCivil(c, y' / 400, y' % 400, doy);
    DayOfEra(DaysFromCivil(c), y' / 400, YearStart(y' % 400) + doy);
  }

  /** Day `t` of era year `yoe` is numbered `t` days after that year's first day. */
  lemma EraCivilDays(era: int, yoe: int, t: int)
    requires 0 <= yoe < 400 && 0 <= t < 366
    ensures var c := EraCivil(era, yoe, t);
      1 <= c.month <= 12 && DaysFromCivil(c) == era * 146097 + YearStart(yoe) + t - 719468
  {
    var c := EraCivil(era, yoe, t);
    var mp := (5 * t + 2) / 153;
    assert MarchMonth(c.month) == mp;
    var y' := era * 400 + yoe;
    assert (if c.month <= 2 then c.year - 1 else c.year) == y';
    YearDivision(y', era, yoe);
  }

  /** Day `doe` of an era converts to a calendar date whose day number is that day again. */
  lemma EraDayRoundTrip(era: int, doe: int)
    requires 0 <= doe < 146097
    ensures DaysFromCivil(EraDayCivil(era, doe)) == era * 146097 + doe - 719468
  {
    var p, q, c, t := DecomposeDayOfEra(doe);
    var yoe := 100 * p + 4 * q + c;
    EraDayOfYear(era, yoe, p, q, c, t);
    EraCivilDays(era, yoe, t);
  }

  /** Converting a day number to a calendar date and back gives the same day number. */
  lemma DaysRoundTrip(z: int)
    ensures DaysFromCivil(CivilFromDays(z)) == z
  {
    EraDayRoundTrip((z + 719468) / 146097, (z + 719468) % 146097);
  }

  // ----- Luxon operations the heatmap uses -----

  /** `date.plus({ days: n })` (and `minus` with a negative `n`). */
  function PlusDays(d: Date, n: int): Date {
    Date(d.serial + n)
  }

  /** Luxon's `weekday`: 1 is Monday, 7 is Sunday. Day 0 (1970-01-01) was a Thursday. */
  function Weekday(d: Date): (w: int)
    ensures 1 <= w <= 7
  {
    (d.serial + 3) % 7 + 1
  }

  /** Moving `n` days moves the weekday `n` steps round the week. */
  lemma WeekdayAfter(d: Date, n: int)
    ensures Weekday(PlusDays(d, n)) == (Weekday(d) - 1 + n) % 7 + 1
  {
    var s := d.serial + 3;
    assert (s + n) % 7 == (s % 7 + n) % 7;
  }

  /** `date.set({ weekday: w })`: the day with weekday `w` in the same Monday-first week. */
  function SetWeekday(d: Date, w: int): (r: Date)
    requires 1 <= w <= 7
    ensures Weekday(r) == w
    ensures PlusDays(r, 1 - w) == PlusDays(d, 1 - Weekday(d))
  {
    WeekdayAfter(d, w - Weekday(d));
    PlusDays(d, w - Weekday(d))
  }

  /** `date.startOf("year")`, at day precision (`StartOfYearIsNewYear`). */
  function StartOfYear(d: Date): (r: Date)
    ensures r.serial <= d.serial
  {
    var c := ToCivil(d);
    DaysRoundTrip(d.serial);
    Local(c.year, 1, 1)
  }

  /** The start of the year is January 1 of the date's year. */
  lemma StartOfYearIsNewYear(d: Date)
    ensures ToCivil(StartOfYear(d)) == Civil(ToCivil(d).year, 1, 1)
  {
    CivilRoundTrip(Civil(ToCivil(d).year, 1, 1));
  }

  /** Days of one month have consecutive day numbers. */
  lemma DaysWithinMonth(c: Civil, day: int)
    requires 1 <= c.month <= 12
    ensures DaysFromCivil(Civil(c.year, c.month, day)) == DaysFromCivil(c) + day - c.day
  {
  }

  /** `date.endOf("month")`, at day precision: the last day of the date's month
      (`EndOfMonthIsLastDay`), less than a month after it. */
  function EndOfMonth(d: Date): (r: Date)
    ensures d.serial <= r.serial < d.serial + 31
  {
    var c := ToCivil(d);
    DaysRoundTrip(d.serial);
    DaysWithinMonth(c, DaysInMonth(c.year, c.month));
    Local(c.year, c.month, DaysInMonth(c.year, c.month))
  }

  /** The end of the month is the last day of the date's month. */
  lemma EndOfMonthIsLastDay(d: Date)
    ensures var c := ToCivil(d);
      ToCivil(EndOfMonth(d)) == Civil(c.year, c.month, DaysInMonth(c.year, c.month))
  {
    var c := ToCivil(d);
    CivilRoundTrip(Civil(c.year, c.month, DaysInMonth(c.year, c.month)));
  }

  /** `date.endOf("year")`, at day precision: December 31 of the date's year
      (`EndOfYearIsDecember31`). */
  function EndOfYear(d: Date): (r: Date)
    ensures d.serial <= r.serial
  {
    var c := ToCivil(d);
    DaysRoundTrip(d.serial);
    Local(c.year, 12, 31)
  }

  /** The end of the year is December 31 of the date's year. */
  lemma EndOfYearIsDecember31(d: Date)
    ensures ToCivil(EndOfYear(d)) == Civil(ToCivil(d).year, 12, 31)
  {
    CivilRoundTrip(Civil(ToCivil(d).year, 12, 31));
  }

  /** The Luxon and JavaScript services the heatmap calls but this model does not
      reimplement: locale data and formatting. Each is an arbitrary total function. */
  datatype DateLib = DateLib(
    /** `date.setLocale(locale).toFormat("LLLL")`: the full month name. */
    monthName: (Date, string) -> string,
    /** `date.setLocale(locale).toLocaleString({ weekday: "short" })`. */
    weekdayName: (Date, string) -> string,
    /** `date.toFormat(format)`. */
    format: (Date, string) -> string,
    /** JavaScript's number-to-string conversion inside a template literal. */
    numberText: real -> string
  )
}
