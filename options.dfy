/** The option defaults of the components, the two ways they merge a caller's options
    over them, and the period set-up every heatmap component repeats: the number of
    levels, the step, the period end and the padding-cell style. */
module Options {
  import opened Wrappers
  import opened Dates
  import opened Models
  import opened Text
  import opened Calendar
  import opened TooltipContent

  /** The default weekday labels. */
  const EnglishWeekdays: seq<string> := ["Mon", "Tue", "Wed", "Thu", "Fri", "Sat", "Sun"]

  /** The default labels; the Angular defaults carry an empty month list, the React
      defaults none. */
  function EnglishLabels(months: Option<seq<string>>): (l: Locale)
    ensures l.months == months && l.weekdays == Some(EnglishWeekdays)
    ensures l.on == Some("on") && l.noData == Some("No")
    ensures l.less == Some("less") && l.more == Some("more")
    ensures l.min == Some("min") && l.max == Some("max")
  {
    Locale(months, Some(EnglishWeekdays), Some("on"), Some("less"), Some("more"), Some("No"),
           Some("min"), Some("max"))
  }

  /** The defaults shared by the Angular and React heatmaps: a yearly calendar from the
      start of the current year, locale "en", tooltips shown with unit "contribution" and
      format "MMMM d", tippy placement "top", the legend shown on the right. */
  function Defaults(now: Date, months: Option<seq<string>>): (d: CalendarOptions)
    ensures d.calendarType == Some(Yearly)
    ensures d.startDate == Some(StartOfYear(now))
    ensures d.locale == Some("en")
    ensures d.tooltip == Some(TooltipOptions(Some(true), Some("contribution"), Some("MMMM d"), None))
    ensures d.tippyProps == Some(map["placement" := Text("top")])
    ensures d.heatmapLegend == Some(LegendOptions(Some(true), Some(Right), None))
    ensures d.i18n == Some(EnglishLabels(months))
    ensures d.cellSize.None? && d.colors.None? && d.hideEmptyDays.None? && d.onClick.None?
    ensures d.overWritedDayStyle.None?
  {
    NoOptions.(
      calendarType := Some(Yearly),
      startDate := Some(StartOfYear(now)),
      locale := Some("en"),
      tooltip := Some(TooltipOptions(Some(true), Some("contribution"), Some("MMMM d"), None)),
      tippyProps := Some(map["placement" := Text("top")]),
      heatmapLegend := Some(LegendOptions(Some(true), Some(Right), None)),
      i18n := Some(EnglishLabels(months)))
  }

  /** `defaultOptions` of the Angular heatmap. */
  function AngularDefaults(now: Date): (d: CalendarOptions)
    ensures d == Defaults(now, Some([]))
  {
    Defaults(now, Some([]))
  }

  /** `defaultOptions` of both React heatmaps. */
  function ReactDefaults(now: Date): (d: CalendarOptions)
    ensures d == Defaults(now, None)
  {
    Defaults(now, None)
  }

  // ----- merging -----

  /** `{ ...defaults, ...options }`: every top-level property the caller gives replaces the
      default's as a whole; nested objects are not merged. */
  function ShallowMerge(d: CalendarOptions, o: CalendarOptions): (m: CalendarOptions)
    ensures o.calendarType.Some? ==> m.calendarType == o.calendarType
    ensures o.calendarType.None? ==> m.calendarType == d.calendarType
    ensures o.startDate.Some? ==> m.startDate == o.startDate
    ensures o.startDate.None? ==> m.startDate == d.startDate
    ensures o.cellSize.Some? ==> m.cellSize == o.cellSize
    ensures o.cellSize.None? ==> m.cellSize == d.cellSize
    ensures o.colors.Some? ==> m.colors == o.colors
    ensures o.colors.None? ==> m.colors == d.colors
    ensures o.hideEmptyDays.Some? ==> m.hideEmptyDays == o.hideEmptyDays
    ensures o.hideEmptyDays.None? ==> m.hideEmptyDays == d.hideEmptyDays
    ensures o.locale.Some? ==> m.locale == o.locale
    ensures o.locale.None? ==> m.locale == d.locale
    ensures o.i18n.Some? ==> m.i18n == o.i18n
    ensures o.i18n.None? ==> m.i18n == d.i18n
    ensures o.tooltip.Some? ==> m.tooltip == o.tooltip
    ensures o.tooltip.None? ==> m.tooltip == d.tooltip
    ensures o.heatmapLegend.Some? ==> m.heatmapLegend == o.heatmapLegend
    ensures o.heatmapLegend.None? ==> m.heatmapLegend == d.heatmapLegend
    ensures o.tippyProps.Some? ==> m.tippyProps == o.tippyProps
    ensures o.tippyProps.None? ==> m.tippyProps == d.tippyProps
    ensures o.overWritedDayStyle.Some? ==> m.overWritedDayStyle == o.overWritedDayStyle
    ensures o.overWritedDayStyle.None? ==> m.overWritedDayStyle == d.overWritedDayStyle
    ensures o.onClick.Some? ==> m.onClick == o.onClick
    ensures o.onClick.None? ==> m.onClick == d.onClick
    ensures o.showTooltip.Some? ==> m.showTooltip == o.showTooltip
    ensures o.showTooltip.None? ==> m.showTooltip == d.showTooltip
    ensures o.tooltipUnit.Some? ==> m.tooltipUnit == o.tooltipUnit
    ensures o.tooltipUnit.None? ==> m.tooltipUnit == d.tooltipUnit
    ensures o.tooltipDateFormat.Some? ==> m.tooltipDateFormat == o.tooltipDateFormat
    ensures o.tooltipDateFormat.None? ==> m.tooltipDateFormat == d.tooltipDateFormat
    ensures o.tooltipFormatter.Some? ==> m.tooltipFormatter == o.tooltipFormatter
    ensures o.tooltipFormatter.None? ==> m.tooltipFormatter == d.tooltipFormatter
    ensures o.heatmapLevels.Some? ==> m.heatmapLevels == o.heatmapLevels
    ensures o.heatmapLevels.None? ==> m.heatmapLevels == d.heatmapLevels
  {
    CalendarOptions(
      Or(o.calendarType, d.calendarType), Or(o.startDate, d.startDate),
      Or(o.cellSize, d.cellSize), Or(o.colors, d.colors), Or(o.hideEmptyDays, d.hideEmptyDays),
      Or(o.locale, d.locale), Or(o.i18n, d.i18n), Or(o.tooltip, d.tooltip),
      Or(o.heatmapLegend, d.heatmapLegend), Or(o.tippyProps, d.tippyProps),
      Or(o.overWritedDayStyle, d.overWritedDayStyle), Or(o.onClick, d.onClick),
      Or(o.showTooltip, d.showTooltip), Or(o.tooltipUnit, d.tooltipUnit),
      Or(o.tooltipDateFormat, d.tooltipDateFormat), Or(o.tooltipFormatter, d.tooltipFormatter),
      Or(o.heatmapLevels, d.heatmapLevels))
  }

  /** `{ ...defaults.i18n, ...options.i18n }`: label by label. */
  function MergeLocale(d: Option<Locale>, o: Option<Locale>): (l: Locale)
    ensures d.None? && o.None? ==> l == NoLabels
    ensures o.None? && d.Some? ==> l == d.value
    ensures d.None? && o.Some? ==> l == o.value
    ensures o.Some? && o.value.months.Some? ==> l.months == o.value.months
    ensures o.Some? && o.value.months.None? ==> l.months == d.GetOr(NoLabels).months
    ensures o.Some? && o.value.weekdays.Some? ==> l.weekdays == o.value.weekdays
    ensures o.Some? && o.value.weekdays.None? ==> l.weekdays == d.GetOr(NoLabels).weekdays
    ensures o.Some? && o.value.on.Some? ==> l.on == o.value.on
    ensures o.Some? && o.value.on.None? ==> l.on == d.GetOr(NoLabels).on
    ensures o.Some? && o.value.less.Some? ==> l.less == o.value.less
    ensures o.Some? && o.value.less.None? ==> l.less == d.GetOr(NoLabels).less
    ensures o.Some? && o.value.more.Some? ==> l.more == o.value.more
    ensures o.Some? && o.value.more.None? ==> l.more == d.GetOr(NoLabels).more
    ensures o.Some? && o.value.noData.Some? ==> l.noData == o.value.noData
    ensures o.Some? && o.value.noData.None? ==> l.noData == d.GetOr(NoLabels).noData
    ensures o.Some? && o.value.min.Some? ==> l.min == o.value.min
    ensures o.Some? && o.value.min.None? ==> l.min == d.GetOr(NoLabels).min
    ensures o.Some? && o.value.max.Some? ==> l.max == o.value.max
    ensures o.Some? && o.value.max.None? ==> l.max == d.GetOr(NoLabels).max
  {
    var a := d.GetOr(NoLabels);
    var b := o.GetOr(NoLabels);
    Locale(Or(b.months, a.months), Or(b.weekdays, a.weekdays), Or(b.on, a.on), Or(b.less, a.less),
           Or(b.more, a.more), Or(b.noData, a.noData), Or(b.min, a.min), Or(b.max, a.max))
  }

  /** A legend group with no property set. */
  const NoLegend: LegendOptions := LegendOptions(None, None, None)

  /** A tooltip group with no property set. */
  const NoTooltip: TooltipOptions := TooltipOptions(None, None, None, None)

  /** `{ ...defaults.heatmapLegend, ...options.heatmapLegend }`: property by property. */
  function MergeLegend(d: Option<LegendOptions>, o: Option<LegendOptions>): (l: LegendOptions)
    ensures o.None? && d.None? ==> l == NoLegend
    ensures o.None? && d.Some? ==> l == d.value
    ensures o.Some? && d.None? ==> l == o.value
    ensures o.Some? && o.value.display.Some? ==> l.display == o.value.display
    ensures o.Some? && o.value.display.None? ==> l.display == d.GetOr(NoLegend).display
    ensures o.Some? && o.value.direction.Some? ==> l.direction == o.value.direction
    ensures o.Some? && o.value.direction.None? ==> l.direction == d.GetOr(NoLegend).direction
    ensures o.Some? && o.value.tooltipFormatter.Some? ==> l.tooltipFormatter == o.value.tooltipFormatter
    ensures o.Some? && o.value.tooltipFormatter.None? ==> l.tooltipFormatter == d.GetOr(NoLegend).tooltipFormatter
  {
    var a := d.GetOr(NoLegend);
    var b := o.GetOr(NoLegend);
    LegendOptions(Or(b.display, a.display), Or(b.direction, a.direction),
                  Or(b.tooltipFormatter, a.tooltipFormatter))
  }

  /** `{ ...defaults.tooltip, ...options.tooltip }`: property by property. */
  function MergeTooltip(d: Option<TooltipOptions>, o: Option<TooltipOptions>): (t: TooltipOptions)
    ensures o.None? && d.None? ==> t == NoTooltip
    ensures o.None? && d.Some? ==> t == d.value
    ensures o.Some? && d.None? ==> t == o.value
    ensures o.Some? && o.value.display.Some? ==> t.display == o.value.display
    ensures o.Some? && o.value.display.None? ==> t.display == d.GetOr(NoTooltip).display
    ensures o.Some? && o.value.unit.Some? ==> t.unit == o.value.unit
    ensures o.Some? && o.value.unit.None? ==> t.unit == d.GetOr(NoTooltip).unit
    ensures o.Some? && o.value.dateFormat.Some? ==> t.dateFormat == o.value.dateFormat
    ensures o.Some? && o.value.dateFormat.None? ==> t.dateFormat == d.GetOr(NoTooltip).dateFormat
    ensures o.Some? && o.value.tooltipFormatter.Some? ==> t.tooltipFormatter == o.value.tooltipFormatter
    ensures o.Some? && o.value.tooltipFormatter.None? ==> t.tooltipFormatter == d.GetOr(NoTooltip).tooltipFormatter
  {
    var a := d.GetOr(NoTooltip);
    var b := o.GetOr(NoTooltip);
    TooltipOptions(Or(b.display, a.display), Or(b.unit, a.unit), Or(b.dateFormat, a.dateFormat),
                   Or(b.tooltipFormatter, a.tooltipFormatter))
  }

  /** The React merge: the shallow merge, except that `i18n`, `heatmapLegend` and `tooltip`
      are always objects merged property by property. */
  function DeepMerge(d: CalendarOptions, o: CalendarOptions): (m: CalendarOptions)
    ensures m.i18n == Some(MergeLocale(d.i18n, o.i18n))
    ensures m.heatmapLegend == Some(MergeLegend(d.heatmapLegend, o.heatmapLegend))
    ensures m.tooltip == Some(MergeTooltip(d.tooltip, o.tooltip))
    ensures m.(i18n := None, heatmapLegend := None, tooltip := None)
      == ShallowMerge(d, o).(i18n := None, heatmapLegend := None, tooltip := None)
  {
    ShallowMerge(d, o).(
      i18n := Some(MergeLocale(d.i18n, o.i18n)),
      heatmapLegend := Some(MergeLegend(d.heatmapLegend, o.heatmapLegend)),
      tooltip := Some(MergeTooltip(d.tooltip, o.tooltip)))
  }

  /** Merging no options gives the defaults back, and merging the same options twice gives
      what merging them once gives. */
  lemma ShallowMergeLaws(d: CalendarOptions, o: CalendarOptions)
    ensures ShallowMerge(d, NoOptions) == d
    ensures ShallowMerge(NoOptions, o) == o
    ensures ShallowMerge(ShallowMerge(d, o), o) == ShallowMerge(d, o)
  {
  }

  /** When the defaults have all three nested groups and the caller gives none of them, both
      merges agree; in particular the React merge of no options is the defaults. */
  lemma MergesAgreeWithoutNestedOptions(d: CalendarOptions, o: CalendarOptions)
    requires d.i18n.Some? && d.heatmapLegend.Some? && d.tooltip.Some?
    requires o.i18n.None? && o.heatmapLegend.None? && o.tooltip.None?
    ensures DeepMerge(d, o) == ShallowMerge(d, o)
    ensures DeepMerge(d, NoOptions) == d
  {
    ShallowMergeLaws(d, o);
  }

  /** A caller who gives only an `on` label loses the default no-data label under the
      Angular merge, so a day without a count gets no tooltip there, while the React merge
      keeps "No" and shows one. */
  lemma ShallowMergeDropsNoDataLabel(lib: DateLib, now: Date, date: Date)
    ensures var o := NoOptions.(i18n := Some(NoLabels.(on := Some("at"))));
      var day := HeatmapDay(date, None, NoData);
      DayContent(lib, ShallowMerge(AngularDefaults(now), o), day).None?
      && DayContent(lib, DeepMerge(ReactDefaults(now), o), day).Some?
  {
    var o := NoOptions.(i18n := Some(NoLabels.(on := Some("at"))));
    assert ShallowMerge(AngularDefaults(now), o).i18n == o.i18n;
    assert MergeLocale(ReactDefaults(now).i18n, o.i18n).noData == Some("No");
  }

  /** A caller's `heatmapLegend` without `display` hides the legend under the shallow merge
      and keeps it shown under the React merge. */
  lemma LegendDisplayUnderMerges(now: Date)
    ensures var o := NoOptions.(heatmapLegend := Some(LegendOptions(None, Some(Left), None)));
      !IsSet(ShallowMerge(AngularDefaults(now), o).heatmapLegend.value.display)
      && IsSet(DeepMerge(ReactDefaults(now), o).heatmapLegend.value.display)
  {
  }

  // ----- the period set-up -----

  /** `colors?.length || 5`: the number of table entries, or 5 without a table. */
  function LevelCount(o: CalendarOptions): (n: int)
    ensures n >= 1
    ensures |Table(o)| > 0 ==> n == |Table(o)|
    ensures |Table(o)| == 0 ==> n == 5
  {
    if |Table(o)| > 0 then |Table(o)| else 5
  }

  /** The range every heatmap uses. */
  const Range: real := 100.0

  /** `range / levels`: the width of a quantile bucket. */
  function Step(levels: int): (s: real)
    requires levels >= 1
    ensures s > 0.0
  {
    Range / (levels as real)
  }

  /** `levels` buckets of width `Step(levels)` fill the range exactly. */
  lemma StepFillsRange(levels: int)
    requires levels >= 1
    ensures Step(levels) * (levels as real) == Range
  {
  }

  /** The last day of the period (`endDate`): six days after the start for a weekly
      calendar, the end of the start's month or of its year otherwise. */
  function PeriodEnd(calendarType: CalendarType, start: Date): (end: Date)
    ensures start.serial <= end.serial
    ensures calendarType == Weekly ==> end.serial == start.serial + 6
  {
    match calendarType
    case Weekly => PlusDays(start, 6)
    case Monthly => EndOfMonth(start)
    case Yearly => EndOfYear(start)
  }

  /** The last day of a monthly period is the last day of the start's month and the last
      day of a yearly period December 31 of its year: the period never runs into the next
      month or year. */
  lemma PeriodEndIsLastDay(calendarType: CalendarType, start: Date)
    ensures calendarType == Monthly ==> var c := ToCivil(start);
      ToCivil(PeriodEnd(calendarType, start)) == Civil(c.year, c.month, DaysInMonth(c.year, c.month))
    ensures calendarType == Yearly ==>
      ToCivil(PeriodEnd(calendarType, start)) == Civil(ToCivil(start).year, 12, 31)
  {
    match calendarType
    case Weekly =>
    case Monthly => EndOfMonthIsLastDay(start);
    case Yearly => EndOfYearIsDecember31(start);
  }

  /** `cellSize || 15`: 0 and a missing size both become 15. */
  function PaddingCellSize(o: CalendarOptions): (n: int)
    ensures o.cellSize.None? || o.cellSize == Some(0) ==> n == 15
    ensures o.cellSize.Some? && o.cellSize.value != 0 ==> n == o.cellSize.value
  {
    if o.cellSize.Some? && o.cellSize.value != 0 then o.cellSize.value else 15
  }

  /** `emptyCellStyle`: the padding-cell size, with the caller's style overrides spread
      after it. */
  function EmptyCellStyle(o: CalendarOptions): (style: Style)
    ensures style.Keys == {"height", "width"} + Overrides(o).Keys
    ensures forall k :: k in Overrides(o) ==> style[k] == Overrides(o)[k]
    ensures "height" !in Overrides(o) ==> style["height"] == Css(IntText(PaddingCellSize(o)) + "px")
    ensures "width" !in Overrides(o) ==> style["width"] == Css(IntText(PaddingCellSize(o)) + "px")
  {
    var size := Css(IntText(PaddingCellSize(o)) + "px");
    map["height" := size, "width" := size] + Overrides(o)
  }

  /** With `cellSize: 0` a padding cell is 15px high while a data cell is 0px high, since
      the padding uses `||` and the grid `??`. */
  lemma ZeroCellSizeDiffers(o: CalendarOptions, index: nat, offset: nat)
    requires o.cellSize == Some(0) && "height" !in Overrides(o)
    ensures EmptyCellStyle(o)["height"] == Css("15px")
    ensures GridPosition(o, index, offset)["height"] == Css("0px")
  {
    assert IntText(15) == "15" by {
      assert NatText(15) == NatText(1) + [DigitChar(5)];
    }
  }

  // ----- labels and padding the components derive -----

  /** The labels the heatmaps write into `mergedOptions.i18n` (`updateHeatmapData`,
      `updateCalendarLabels`): the twelve month names of the start date's year and the seven
      weekday names of the current week. Without `i18n` nothing is written. */
  function Localized(lib: DateLib, o: CalendarOptions, now: Date): (m: CalendarOptions)
    requires o.startDate.Some?
    ensures m.(i18n := o.i18n) == o
    ensures m.i18n.Some? <==> o.i18n.Some?
    ensures o.i18n.Some? ==>
      m.i18n.value == o.i18n.value.(months := Some(MonthNames(lib, o, o.locale)),
                                    weekdays := Some(WeekOfNames(lib, o, now, o.locale)))
  {
    if o.i18n.None? then o
    else
      o.(i18n := Some(o.i18n.value.(months := Some(MonthNames(lib, o, o.locale)),
                                    weekdays := Some(WeekOfNames(lib, o, now, o.locale)))))
  }

  /** The localized labels are not ones the tooltips read, so localizing the options does
      not change any tooltip. */
  lemma LocalizedKeepsTooltips(lib: DateLib, o: CalendarOptions, now: Date, day: HeatmapDay, color: HeatmapColor)
    requires o.startDate.Some?
    ensures DayContent(lib, Localized(lib, o, now), day) == DayContent(lib, o, day)
    ensures LevelContent(lib, Localized(lib, o, now), color) == LevelContent(lib, o, color)
  {
    var m := Localized(lib, o, now);
    assert I18n(m).on == I18n(o).on && I18n(m).noData == I18n(o).noData;
    assert I18n(m).min == I18n(o).min && I18n(m).max == I18n(o).max;
  }

  /** What the padding the heatmaps compute for a monthly or yearly period achieves:
      the leading padding, the period's days and the trailing padding fill whole weeks, and
      each data day sits in the row of its weekday. */
  lemma PaddedPeriodFillsWeeks(calendarType: CalendarType, start: Date)
    requires calendarType != Weekly
    ensures var end := PeriodEnd(calendarType, start);
      (|FirstWeekOffset(start)| + (end.serial - start.serial + 1) + |LastWeekOffset(end)|) % 7 == 0
    ensures forall k: nat :: CellOf(Some(calendarType), k, |FirstWeekOffset(start)|).row == Weekday(PlusDays(start, k))
  {
    PaddingFillsWeeks(start, PeriodEnd(calendarType, start));
    RowsAreWeekdays(Some(calendarType), start);
  }
}
