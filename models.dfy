/** The option and value types shared by the calendar, the legend and the tooltips.
    Every optional TypeScript property is an `Option`; `None` is an absent (or undefined)
    property. Callbacks the components call are arbitrary functions. */
module Models {
  import opened Wrappers
  import opened Dates

  /** `HeatMapCalendarType`. */
  datatype CalendarType = Weekly | Monthly | Yearly

  /** `HeatmapLevelsDirection`. */
  datatype LevelsDirection = Left | Right

  /** `IHeatmapColor`: one entry of a caller's colour table, or one generated legend level. */
  datatype HeatmapColor = HeatmapColor(
    min: Option<real>,
    max: Option<real>,
    isDefault: Option<bool>,
    className: string)

  /** The `data` payload of a day. Padding days carry their index in the padding run;
      caller days carry an opaque tag. */
  datatype DayData = NoData | PaddingIndex(index: nat) | Payload(tag: nat)

  /** `IHeatmapDay`. */
  datatype HeatmapDay = HeatmapDay(date: Date, count: Option<real>, data: DayData)

  /** `ILocale`, the i18n labels. */
  datatype Locale = Locale(
    months: Option<seq<string>>,
    weekdays: Option<seq<string>>,
    on: Option<string>,
    less: Option<string>,
    more: Option<string>,
    noData: Option<string>,
    min: Option<string>,
    max: Option<string>)

  const NoLabels := Locale(None, None, None, None, None, None, None, None)

  /** `heatmapLegend` (and the older `heatmapLevels`, which has the same shape). */
  datatype LegendOptions = LegendOptions(
    display: Option<bool>,
    direction: Option<LevelsDirection>,
    tooltipFormatter: Option<HeatmapColor -> string>)

  /** `tooltip`. */
  datatype TooltipOptions = TooltipOptions(
    display: Option<bool>,
    unit: Option<string>,
    dateFormat: Option<string>,
    tooltipFormatter: Option<(HeatmapDay, string) -> string>)

  /** A value of an inline CSS property. */
  datatype StyleValue = Number(n: int) | Css(text: string)

  /** An inline style object. */
  type Style = map<string, StyleValue>

  /** A value of a tippy.js property. */
  datatype PropValue = Text(text: string) | Flag(flag: bool) | EmptyList

  /** A tippy.js props object. */
  type Props = map<string, PropValue>

  /** A click handler; only its presence matters to the model. */
  datatype Callback = Callback(id: nat)

  /** `ICalendarHeatmapOptions`, with the newer nested tooltip and legend options and the
      older flat ones (`showTooltip`, `tooltipUnit`, `tooltipDateFormat`,
      `tooltipFormatter`, `heatmapLevels`). `type` is `calendarType` here. */
  datatype CalendarOptions = CalendarOptions(
    calendarType: Option<CalendarType>,
    startDate: Option<Date>,
    cellSize: Option<int>,
    colors: Option<seq<HeatmapColor>>,
    hideEmptyDays: Option<bool>,
    locale: Option<string>,
    i18n: Option<Locale>,
    tooltip: Option<TooltipOptions>,
    heatmapLegend: Option<LegendOptions>,
    tippyProps: Option<Props>,
    overWritedDayStyle: Option<Style>,
    onClick: Option<Callback>,
    showTooltip: Option<bool>,
    tooltipUnit: Option<string>,
    tooltipDateFormat: Option<string>,
    tooltipFormatter: Option<(HeatmapDay, string) -> string>,
    heatmapLevels: Option<LegendOptions>)

  /** `{}`: no option given. */
  const NoOptions := CalendarOptions(None, None, None, None, None, None, None, None, None,
    None, None, None, None, None, None, None, None)

  /** JavaScript truthiness of an optional flag. */
  predicate IsSet(b: Option<bool>) {
    b == Some(true)
  }

  /** JavaScript truthiness of an optional string. */
  predicate HasText(s: Option<string>) {
    s.Some? && s.value != ""
  }

  /** The colour table (`colors ?? []`); `!colors?.length` holds exactly when it is empty. */
  function Table(o: CalendarOptions): (t: seq<HeatmapColor>)
    ensures o.colors.Some? ==> t == o.colors.value
    ensures o.colors.None? ==> t == []
  {
    o.colors.GetOr([])
  }
}
