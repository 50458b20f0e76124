/** `CalendarUtils`: week-alignment padding, grid coordinates and localized labels.
    The utility only reads the options it is built with, so each operation takes them
    as a parameter. */
module Calendar {
  import opened Wrappers
  import opened Dates
  import opened Models
  import opened Text

  // ----- week-alignment padding -----

  /** `calculateFirstWeekOffset`: the empty cells before the first day, so that the first
      day lands in its weekday's row (Monday first). Entry `i` is dated `i` days before
      the start date, has no count and carries `i` as its data. */
  function FirstWeekOffset(start: Date): (pad: seq<HeatmapDay>)
    ensures |pad| == Weekday(start) - 1
    ensures Weekday(start) == 1 ==> |pad| == 0
    ensures Weekday(start) == 7 ==> |pad| == 6
    ensures forall i :: 0 <= i < |pad| ==>
      pad[i].date == PlusDays(start, -i) && pad[i].count.None? && pad[i].data == PaddingIndex(i)
  {
    var w := Weekday(start);
    var n := if w == 7 then 6 else w - 1;
    seq(n, i requires 0 <= i < n => HeatmapDay(PlusDays(start, -i), None, PaddingIndex(i)))
  }

  /** `calculateLastWeekOffset`: the empty cells after the last day, up to the end of its
      week. Entry `i` is dated `i` days after the end date. */
  function LastWeekOffset(end: Date): (pad: seq<HeatmapDay>)
    ensures |pad| == 7 - Weekday(end)
    ensures Weekday(end) == 7 ==> |pad| == 0
    ensures Weekday(end) == 1 ==> |pad| == 6
    ensures forall i :: 0 <= i < |pad| ==>
      pad[i].date == PlusDays(end, i) && pad[i].count.None? && pad[i].data == PaddingIndex(i)
  {
    var w := Weekday(end);
    var n := if w == 7 then 0 else 7 - w;
    seq(n, i requires 0 <= i < n => HeatmapDay(PlusDays(end, i), None, PaddingIndex(i)))
  }

  /** The padding before, the `n` days from `start` on and the padding after fill whole
      weeks: the grid ends on a complete column. */
  lemma FullWeeks(start: Date, n: nat)
    requires n >= 1
    ensures (|FirstWeekOffset(start)| + n + |LastWeekOffset(PlusDays(start, n - 1))|) % 7 == 0
  {
    WeekdayAfter(start, n - 1);
    var x := Weekday(start) - 1 + n - 1;
    assert |FirstWeekOffset(start)| + n + |LastWeekOffset(PlusDays(start, n - 1))|
      == x + 7 - x % 7;
    assert x + 7 - x % 7 == (x / 7 + 1) * 7;
  }

  /** The padding before `start`, the days from `start` to `end` and the padding after
      `end` fill whole weeks. */
  lemma PaddingFillsWeeks(start: Date, end: Date)
    requires start.serial <= end.serial
    ensures (|FirstWeekOffset(start)| + (end.serial - start.serial + 1) + |LastWeekOffset(end)|) % 7 == 0
  {
    FullWeeks(start, end.serial - start.serial + 1);
  }

  // ----- grid coordinates -----

  /** A cell of the CSS grid: rows 1..7 are the weekdays, columns the weeks. */
  datatype GridCell = GridCell(row: int, column: int)

  /** The grid cell of data day `index`, after `offset` padding cells. A weekly calendar is
      one row; otherwise the grid fills column by column, seven rows at a time. */
  function CellOf(calendarType: Option<CalendarType>, index: nat, offset: nat): (c: GridCell)
    ensures calendarType == Some(Weekly) ==> c == GridCell(1, index + 1)
    ensures calendarType != Some(Weekly) ==>
      1 <= c.row <= 7 && 1 <= c.column && 7 * (c.column - 1) + (c.row - 1) == index + offset
  {
    if calendarType == Some(Weekly) then GridCell(1, index + 1)
    else GridCell((index + offset) % 7 + 1, (index + offset) / 7 + 1)
  }

  /** Distinct days get distinct cells, whatever the calendar type. */
  lemma CellOfInjective(calendarType: Option<CalendarType>, i: nat, j: nat, offset: nat)
    requires i != j
    ensures CellOf(calendarType, i, offset) != CellOf(calendarType, j, offset)
  {
    if calendarType != Some(Weekly) {
      var a, b := CellOf(calendarType, i, offset), CellOf(calendarType, j, offset);
      assert 7 * (a.column - 1) + (a.row - 1) != 7 * (b.column - 1) + (b.row - 1);
    }
  }

  /** With the first-week padding in front, data day `k` sits in the row of its own
      weekday. */
  lemma DayRowIsWeekday(calendarType: Option<CalendarType>, start: Date, k: nat)
    requires calendarType != Some(Weekly)
    ensures CellOf(calendarType, k, |FirstWeekOffset(start)|).row
      == Weekday(PlusDays(start, k))
  {
    WeekdayAfter(start, k);
  }

  /** `cellSize ?? 15` as a CSS length. */
  function CellLength(o: CalendarOptions): (s: string)
    ensures s == IntText(if o.cellSize.Some? then o.cellSize.value else 15) + "px"
  {
    IntText(o.cellSize.GetOr(15)) + "px"
  }

  /** The caller's `overWritedDayStyle`, or no override. */
  function Overrides(o: CalendarOptions): Style {
    o.overWritedDayStyle.GetOr(map[])
  }

  /** `getGridPositionOfDay`: the inline style of data day `index`. The caller's style
      overrides are spread last, so they win over the computed placement and size. */
  function GridPosition(o: CalendarOptions, index: nat, offset: nat): (style: Style)
    ensures style.Keys == {"gridRow", "gridColumn", "height", "width"} + Overrides(o).Keys
    ensures forall k :: k in Overrides(o) ==> style[k] == Overrides(o)[k]
    ensures "gridRow" !in Overrides(o) ==>
      style["gridRow"] == Number(CellOf(o.calendarType, index, offset).row)
    ensures "gridColumn" !in Overrides(o) ==>
      style["gridColumn"] == Number(CellOf(o.calendarType, index, offset).column)
    ensures "height" !in Overrides(o) ==> style["height"] == Css(CellLength(o))
    ensures "width" !in Overrides(o) ==> style["width"] == Css(CellLength(o))
  {
    var cell := CellOf(o.calendarType, index, offset);
    map["gridRow" := Number(cell.row), "gridColumn" := Number(cell.column),
        "height" := Css(CellLength(o)), "width" := Css(CellLength(o))] + Overrides(o)
  }

  /** Every data day of a monthly or yearly grid sits in the row of its weekday. */
  lemma RowsAreWeekdays(calendarType: Option<CalendarType>, start: Date)
    requires calendarType != Some(Weekly)
    ensures forall k: nat :: CellOf(calendarType, k, |FirstWeekOffset(start)|).row
                             == Weekday(PlusDays(start, k))
  {
    forall k: nat
      ensures CellOf(calendarType, k, |FirstWeekOffset(start)|).row == Weekday(PlusDays(start, k))
    {
      DayRowIsWeekday(calendarType, start, k);
    }
  }

  // ----- localized labels -----

  /** The locale parameter's default, `options.locale ?? "en"`. */
  function LabelLocale(o: CalendarOptions, locale: Option<string>): (l: string)
    ensures locale.Some? ==> l == locale.value
    ensures locale.None? && o.locale.Some? ==> l == o.locale.value
    ensures locale.None? && o.locale.None? ==> l == "en"
  {
    locale.GetOr(o.locale.GetOr("en"))
  }

  /** `DateTime.local(year, i + 1, 1)`: the first day of month `i + 1`. */
  function MonthFirstDay(year: int, i: int): (d: Date)
    requires 0 <= i < 12
  {
    Local(year, i + 1, 1)
  }

  /** The day `MonthFirstDay` builds is the first of month `i + 1` of `year`. */
  lemma MonthFirstDayIsFirst(year: int, i: int)
    requires 0 <= i < 12
    ensures ToCivil(MonthFirstDay(year, i)) == Civil(year, i + 1, 1)
  {
    CivilRoundTrip(Civil(year, i + 1, 1));
  }

  /** `getLocalizedMonthNames`: twelve names, entry `i` naming month `i + 1` of the start
      date's year (`MonthNamesNameMonths`). */
  function MonthNames(lib: DateLib, o: CalendarOptions, locale: Option<string>): (names: seq<string>)
    requires o.startDate.Some?
    ensures |names| == 12
  {
    MonthNamesFrom(lib, ToCivil(o.startDate.value).year, LabelLocale(o, locale), 0)
  }

  /** The names of months `i + 1` to 12 of `year`. */
  function MonthNamesFrom(lib: DateLib, year: int, l: string, i: nat): (names: seq<string>)
    requires i <= 12
    ensures |names| == 12 - i
    decreases 12 - i
  {
    if i == 12 then [] else [lib.monthName(MonthFirstDay(year, i), l)] + MonthNamesFrom(lib, year, l, i + 1)
  }

  lemma {:induction false} MonthNamesFromEntries(lib: DateLib, year: int, l: string, i: nat, j: int)
    requires i <= j < 12
    ensures MonthNamesFrom(lib, year, l, i)[j - i] == lib.monthName(MonthFirstDay(year, j), l)
    decreases 12 - i
  {
    if i < j {
      MonthNamesFromEntries(lib, year, l, i + 1, j);
    }
  }

  /** Entry `i` of the month names is the name of the first day of month `i + 1` of the
      start date's year, in the label locale. */
  lemma MonthNamesNameMonths(lib: DateLib, o: CalendarOptions, locale: Option<string>)
    requires o.startDate.Some?
    ensures forall i :: 0 <= i < 12 ==>
      MonthNames(lib, o, locale)[i]
        == lib.monthName(MonthFirstDay(ToCivil(o.startDate.value).year, i), LabelLocale(o, locale))
  {
    forall i | 0 <= i < 12
      ensures MonthNames(lib, o, locale)[i]
        == lib.monthName(MonthFirstDay(ToCivil(o.startDate.value).year, i), LabelLocale(o, locale))
    {
      MonthNamesFromEntries(lib, ToCivil(o.startDate.value).year, LabelLocale(o, locale), 0, i);
    }
  }

  /** The Monday of the week of `d`. */
  function WeekStart(d: Date): (monday: Date)
    ensures Weekday(monday) == 1
    ensures monday.serial <= d.serial < monday.serial + 7
  {
    WeekdayAfter(d, 1 - Weekday(d));
    PlusDays(d, 1 - Weekday(d))
  }

  /** Day `i` (0 is Monday) of the week that starts on a Monday has weekday `i + 1`. */
  lemma WeekDays(monday: Date, i: int)
    requires Weekday(monday) == 1 && 0 <= i < 7
    ensures Weekday(PlusDays(monday, i)) == i + 1
  {
    WeekdayAfter(monday, i);
  }

  /** The short names of the seven days of the week of `now`, Monday first
      (`WeekOfNamesNameDays`). */
  function WeekOfNames(lib: DateLib, o: CalendarOptions, now: Date, locale: Option<string>): (names: seq<string>)
    ensures |names| == 7
  {
    DayNamesFrom(lib, WeekStart(now), LabelLocale(o, locale), 0)
  }

  /** The names of days `i` to 6 of the week that starts on `monday`. */
  function DayNamesFrom(lib: DateLib, monday: Date, l: string, i: nat): (names: seq<string>)
    requires i <= 7
    ensures |names| == 7 - i
    decreases 7 - i
  {
    if i == 7 then [] else [lib.weekdayName(PlusDays(monday, i), l)] + DayNamesFrom(lib, monday, l, i + 1)
  }

  lemma {:induction false} DayNamesFromEntries(lib: DateLib, monday: Date, l: string, i: nat, j: int)
    requires i <= j < 7
    ensures DayNamesFrom(lib, monday, l, i)[j - i] == lib.weekdayName(PlusDays(monday, j), l)
    decreases 7 - i
  {
    if i < j {
      DayNamesFromEntries(lib, monday, l, i + 1, j);
    }
  }

  /** Entry `i` of the week's names names the day `i` days after the week's Monday. */
  lemma WeekOfNamesNameDays(lib: DateLib, o: CalendarOptions, now: Date, locale: Option<string>)
    ensures forall i :: 0 <= i < 7 ==>
      WeekOfNames(lib, o, now, locale)[i] == lib.weekdayName(PlusDays(WeekStart(now), i), LabelLocale(o, locale))
  {
    forall i | 0 <= i < 7
      ensures WeekOfNames(lib, o, now, locale)[i] == lib.weekdayName(PlusDays(WeekStart(now), i), LabelLocale(o, locale))
    {
      DayNamesFromEntries(lib, WeekStart(now), LabelLocale(o, locale), 0, i);
    }
  }

  /** `getLocalizedWeekdayNames`: the loop that sets each weekday of the current week in
      turn and collects its short name; day `i` of the list is weekday `i + 1`. */
  method WeekdayNames(lib: DateLib, o: CalendarOptions, now: Date, locale: Option<string>)
      returns (names: seq<string>)
    ensures names == WeekOfNames(lib, o, now, locale)
    ensures forall i :: 0 <= i < 7 ==> Weekday(PlusDays(WeekStart(now), i)) == i + 1
  {
    var l := LabelLocale(o, locale);
    names := [];
    var i := 1;
    while i <= 7
      invariant 1 <= i <= 8
      invariant |names| == i - 1
      invariant forall j :: 0 <= j < i - 1 ==> names[j] == lib.weekdayName(PlusDays(WeekStart(now), j), l)
    {
      var day := SetWeekday(now, i);
      assert day == PlusDays(WeekStart(now), i - 1);
      names := names + [lib.weekdayName(day, l)];
      i := i + 1;
    }
    WeekOfNamesNameDays(lib, o, now, locale);
    forall j | 0 <= j < 7
      ensures Weekday(PlusDays(WeekStart(now), j)) == j + 1
    {
      WeekDays(WeekStart(now), j);
    }
  }

  // ----- the examples the utility's own tests check -----

  /** `endOf("month")` of the first day of a month is its last day. */
  lemma LastDayOfMonth(year: int, month: int)
    requires 1 <= month <= 12
    ensures EndOfMonth(Local(year, month, 1)) == Local(year, month, DaysInMonth(year, month))
  {
    CivilRoundTrip(Civil(year, month, 1));
    EndOfMonthIsLastDay(Local(year, month, 1));
    DaysRoundTrip(EndOfMonth(Local(year, month, 1)).serial);
  }

  /** `endOf("year")` of January 1 is December 31. */
  lemma LastDayOfYear(year: int)
    ensures EndOfYear(Local(year, 1, 1)) == Local(year, 12, 31)
  {
    CivilRoundTrip(Civil(year, 1, 1));
    EndOfYearIsDecember31(Local(year, 1, 1));
    DaysRoundTrip(EndOfYear(Local(year, 1, 1)).serial);
  }

  /** The day numbers of the first days of the months of 2024. */
  const MonthStarts2024: seq<int> :=
    [19723, 19754, 19783, 19814, 19844, 19875, 19905, 19936, 19967, 19997, 20028, 20058]

  /** From March on, the months of 2024 start `MonthStart` days after March 1 (day 19783). */
  lemma MonthStartsAfterMarch2024(m: int)
    requires 3 <= m <= 12
    ensures Local(2024, m, 1).serial == 19783 + MonthStart(m - 3)
  {
  }

  /** `DateTime.local(2024, m, 1)` is day `MonthStarts2024[m - 1]`. */
  lemma MonthStartOf2024(m: int)
    requires 1 <= m <= 12
    ensures Local(2024, m, 1).serial == MonthStarts2024[m - 1]
  {
    if m > 2 {
      MonthStartsAfterMarch2024(m);
      var k := m - 3;
      assert MonthStart(k) == [0, 31, 61, 92, 122, 153, 184, 214, 245, 275][k];
    }
  }

  /** `endOf("month")` of the first day of a month, as a day number. */
  lemma EndOfMonthOfFirst(year: int, month: int)
    requires 1 <= month <= 12
    ensures EndOfMonth(Local(year, month, 1)).serial == Local(year, month, 1).serial + DaysInMonth(year, month) - 1
  {
    LastDayOfMonth(year, month);
    DaysWithinMonth(Civil(year, month, 1), DaysInMonth(year, month));
  }

  /** 2024 starts on a Monday: its first week needs no padding. */
  lemma FirstWeekOffsetOf2024()
    ensures |FirstWeekOffset(Local(2024, 1, 1))| == 0
  {
    assert Local(2024, 1, 1).serial == 19723;
  }

  /** 2025 starts on a Wednesday: two padding days precede it. */
  lemma FirstWeekOffsetOf2025()
    ensures |FirstWeekOffset(Local(2025, 1, 1))| == 2
  {
    assert Local(2025, 1, 1).serial == 20089;
  }

  /** The first-week padding of each month of 2024 (the months start on the days
      `MonthStarts2024`). */
  lemma FirstWeekOffsets2024()
    ensures seq(12, i requires 0 <= i < 12 => |FirstWeekOffset(Date(MonthStarts2024[i]))|)
      == [0, 3, 4, 0, 2, 5, 0, 3, 6, 1, 4, 6]
  {
  }

  /** The first-week padding of `DateTime.local(2024, m, 1)`, month by month. */
  lemma FirstWeekOffsetOfMonth2024(m: int)
    requires 1 <= m <= 12
    ensures |FirstWeekOffset(Local(2024, m, 1))| == [0, 3, 4, 0, 2, 5, 0, 3, 6, 1, 4, 6][m - 1]
  {
    MonthStartOf2024(m);
    FirstWeekOffsets2024();
    var row := seq(12, i requires 0 <= i < 12 => |FirstWeekOffset(Date(MonthStarts2024[i]))|);
    assert row[m - 1] == |FirstWeekOffset(Date(MonthStarts2024[m - 1]))|;
  }

  /** 2024 ends on a Tuesday: five padding days follow it. */
  lemma LastWeekOffsetOf2024()
    ensures |LastWeekOffset(Local(2024, 12, 31))| == 5
  {
    assert Local(2024, 12, 31).serial == 20088;
  }

  /** 2025 ends on a Wednesday: four padding days follow it. */
  lemma LastWeekOffsetOf2025()
    ensures |LastWeekOffset(Local(2025, 12, 31))| == 4
  {
    assert Local(2025, 12, 31).serial == 20453;
  }

  /** The year mode's last-week padding of 2024. */
  lemma LastWeekOffsetOfYear2024()
    ensures |LastWeekOffset(EndOfYear(Local(2024, 1, 1)))| == 5
  {
    LastDayOfYear(2024);
    LastWeekOffsetOf2024();
  }

  /** `endOf("month")` of December 1 is December 31. */
  lemma LastDayOfDecember(year: int)
    ensures EndOfMonth(Local(year, 12, 1)) == Local(year, 12, 31)
  {
    LastDayOfMonth(year, 12);
  }

  /** The month mode's last-week padding of December 2024. */
  lemma LastWeekOffsetOfDecember2024()
    ensures |LastWeekOffset(EndOfMonth(Local(2024, 12, 1)))| == 5
  {
    LastDayOfDecember(2024);
    LastWeekOffsetOf2024();
  }

  /** The month mode's last-week padding of December 2025. */
  lemma LastWeekOffsetOfDecember2025()
    ensures |LastWeekOffset(EndOfMonth(Local(2025, 12, 1)))| == 4
  {
    LastDayOfDecember(2025);
    LastWeekOffsetOf2025();
  }

  /** The last-week padding of each month of 2024: the end of month `i + 1` is
      `MonthStarts2024[i]` plus its length minus one. */
  lemma LastWeekOffsets2024()
    ensures seq(12, i requires 0 <= i < 12 =>
      |LastWeekOffset(Date(MonthStarts2024[i] + DaysInMonth(2024, i + 1) - 1))|)
      == [4, 3, 0, 5, 2, 0, 4, 1, 6, 3, 1, 5]
  {
  }

  /** The last-week padding of the end of each month of 2024, month by month. */
  lemma LastWeekOffsetOfMonth2024(m: int)
    requires 1 <= m <= 12
    ensures |LastWeekOffset(EndOfMonth(Local(2024, m, 1)))| == [4, 3, 0, 5, 2, 0, 4, 1, 6, 3, 1, 5][m - 1]
  {
    MonthStartOf2024(m);
    EndOfMonthOfFirst(2024, m);
    LastWeekOffsetOfMonthEnd2024(m, EndOfMonth(Local(2024, m, 1)));
  }

  /** The last-week padding after the day `MonthStarts2024[m - 1]` plus the month's length
      minus one, read off `LastWeekOffsets2024`. */
  lemma LastWeekOffsetOfMonthEnd2024(m: int, end: Date)
    requires 1 <= m <= 12
    requires end.serial == MonthStarts2024[m - 1] + DaysInMonth(2024, m) - 1
    ensures |LastWeekOffset(end)| == [4, 3, 0, 5, 2, 0, 4, 1, 6, 3, 1, 5][m - 1]
  {
    var k := m - 1;
    LastWeekOffsets2024();
    var row := seq(12, i requires 0 <= i < 12 =>
      |LastWeekOffset(Date(MonthStarts2024[i] + DaysInMonth(2024, i + 1) - 1))|);
    assert end == Date(MonthStarts2024[k] + DaysInMonth(2024, k + 1) - 1);
    assert row[k] == |LastWeekOffset(end)|;
  }
}
