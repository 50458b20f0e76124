/** `getTooltipContent` of the day and legend tooltips, in the current form (nested
    `tooltip` and `heatmapLegend` options) and the older flat form (`showTooltip`,
    `tooltipUnit`, `tooltipDateFormat`, `tooltipFormatter`, `heatmapLevels`). `None` is the
    `null` the helpers return when there is nothing to show. */
module TooltipContent {
  import opened Wrappers
  import opened Dates
  import opened Models

  /** A string interpolated into a template literal: `undefined` prints as "undefined". */
  function Show(s: Option<string>): (t: string)
    ensures s.Some? ==> t == s.value
    ensures s.None? ==> t == "undefined"
  {
    if s.Some? then s.value else "undefined"
  }

  /** A number interpolated into a template literal. */
  function ShowNumber(lib: DateLib, x: Option<real>): (t: string)
    ensures x.Some? ==> t == lib.numberText(x.value)
    ensures x.None? ==> t == "undefined"
  {
    if x.Some? then lib.numberText(x.value) else "undefined"
  }

  /** The labels `options.i18n?.<field>` reads: every label is absent without `i18n`. */
  function I18n(o: CalendarOptions): (l: Locale)
    ensures o.i18n.None? ==> l == NoLabels
    ensures o.i18n.Some? ==> l == o.i18n.value
  {
    o.i18n.GetOr(NoLabels)
  }

  /** The text of a day tooltip: `${lead} ${unit} ${on} ${date.toFormat(dateFormat ?? "MMMM d")}`. */
  function DayText(lib: DateLib, o: CalendarOptions, lead: string, unit: Option<string>,
                   dateFormat: Option<string>, date: Date): (t: string)
    ensures t == lead + " " + Show(unit) + " " + Show(I18n(o).on) + " "
      + lib.format(date, if dateFormat.Some? then dateFormat.value else "MMMM d")
  {
    lead + " " + Show(unit) + " " + Show(I18n(o).on) + " " + lib.format(date, dateFormat.GetOr("MMMM d"))
  }

  /** `tooltip?.display`. */
  predicate TooltipShown(o: CalendarOptions) {
    o.tooltip.Some? && IsSet(o.tooltip.value.display)
  }

  /** The no-data label `i18n?.noData`, when it is truthy. */
  predicate HasNoDataLabel(o: CalendarOptions) {
    HasText(I18n(o).noData)
  }

  /** The day tooltip (`DayTippyUtils.getTooltipContent`). A day with a count (0 included)
      goes to the caller's formatter with `unit ?? "contributions"`, or gets the default
      bold-count text; a day without a count gets the no-data text when there is a no-data
      label. Nothing is shown when the tooltip is switched off. */
  function DayContent(lib: DateLib, o: CalendarOptions, day: HeatmapDay): (r: Option<string>)
    ensures r.None? <==> !TooltipShown(o) || (day.count.None? && !HasNoDataLabel(o))
    ensures TooltipShown(o) && day.count.Some? && o.tooltip.value.tooltipFormatter.Some? ==>
      r == Some(o.tooltip.value.tooltipFormatter.value(day, o.tooltip.value.unit.GetOr("contributions")))
    ensures TooltipShown(o) && day.count.Some? && o.tooltip.value.tooltipFormatter.None? ==>
      r == Some(DayText(lib, o, "<b>" + lib.numberText(day.count.value) + "</b>",
                        o.tooltip.value.unit, o.tooltip.value.dateFormat, day.date))
    ensures TooltipShown(o) && day.count.None? && HasNoDataLabel(o) ==>
      r == Some(DayText(lib, o, I18n(o).noData.value, o.tooltip.value.unit,
                        o.tooltip.value.dateFormat, day.date))
  {
    if !TooltipShown(o) then None
    else
      var t := o.tooltip.value;
      if day.count.Some? then
        if t.tooltipFormatter.Some? then Some(t.tooltipFormatter.value(day, t.unit.GetOr("contributions")))
        else Some(DayText(lib, o, "<b>" + lib.numberText(day.count.value) + "</b>", t.unit, t.dateFormat, day.date))
      else if HasNoDataLabel(o) then
        Some(DayText(lib, o, I18n(o).noData.value, t.unit, t.dateFormat, day.date))
      else None
  }

  /** The legend tooltip (`LevelsTippyUtils.getTooltipContent`). The legend's formatter wins;
      otherwise a single-value level reads `min: v unit` and a range `min: a - max: b`,
      without the unit. */
  function LevelContent(lib: DateLib, o: CalendarOptions, color: HeatmapColor): (r: Option<string>)
    ensures r.Some? <==> TooltipShown(o)
    ensures TooltipShown(o) && o.heatmapLegend.Some? && o.heatmapLegend.value.tooltipFormatter.Some? ==>
      r == Some(o.heatmapLegend.value.tooltipFormatter.value(color))
    ensures TooltipShown(o) && (o.heatmapLegend.None? || o.heatmapLegend.value.tooltipFormatter.None?) ==>
      r == Some(
        if color.min == color.max then
          Show(I18n(o).min) + ": " + ShowNumber(lib, color.min) + " " + Show(o.tooltip.value.unit)
        else
          Show(I18n(o).min) + ": " + ShowNumber(lib, color.min) + " - "
          + Show(I18n(o).max) + ": " + ShowNumber(lib, color.max))
  {
    if !TooltipShown(o) then None
    else if o.heatmapLegend.Some? && o.heatmapLegend.value.tooltipFormatter.Some? then
      Some(o.heatmapLegend.value.tooltipFormatter.value(color))
    else if color.min == color.max then
      Some(Show(I18n(o).min) + ": " + ShowNumber(lib, color.min) + " " + Show(o.tooltip.value.unit))
    else
      Some(Show(I18n(o).min) + ": " + ShowNumber(lib, color.min) + " - "
        + Show(I18n(o).max) + ": " + ShowNumber(lib, color.max))
  }

  // ----- the older flat options -----

  /** The older day tooltip (`TippyUtils.getTooltipContent` and the older
      `DayTippyUtils.getTooltipContent`), gated by `showTooltip`. */
  function LegacyDayContent(lib: DateLib, o: CalendarOptions, day: HeatmapDay): (r: Option<string>)
    ensures r.None? <==> !IsSet(o.showTooltip) || (day.count.None? && !HasNoDataLabel(o))
  {
    if !IsSet(o.showTooltip) then None
    else if day.count.Some? then
      if o.tooltipFormatter.Some? then Some(o.tooltipFormatter.value(day, o.tooltipUnit.GetOr("contributions")))
      else Some(DayText(lib, o, "<b>" + lib.numberText(day.count.value) + "</b>", o.tooltipUnit,
                        o.tooltipDateFormat, day.date))
    else if HasNoDataLabel(o) then
      Some(DayText(lib, o, I18n(o).noData.value, o.tooltipUnit, o.tooltipDateFormat, day.date))
    else None
  }

  /** The older legend tooltip, gated by `showTooltip`, with `heatmapLevels.tooltipFormatter`. */
  function LegacyLevelContent(lib: DateLib, o: CalendarOptions, color: HeatmapColor): (r: Option<string>)
    ensures r.Some? <==> IsSet(o.showTooltip)
  {
    if !IsSet(o.showTooltip) then None
    else if o.heatmapLevels.Some? && o.heatmapLevels.value.tooltipFormatter.Some? then
      Some(o.heatmapLevels.value.tooltipFormatter.value(color))
    else if color.min == color.max then
      Some(Show(I18n(o).min) + ": " + ShowNumber(lib, color.min) + " " + Show(o.tooltipUnit))
    else
      Some(Show(I18n(o).min) + ": " + ShowNumber(lib, color.min) + " - "
        + Show(I18n(o).max) + ": " + ShowNumber(lib, color.max))
  }

  /** The flat options moved into their nested places. */
  function Modernize(o: CalendarOptions): (m: CalendarOptions)
    ensures m.tooltip == Some(TooltipOptions(o.showTooltip, o.tooltipUnit, o.tooltipDateFormat, o.tooltipFormatter))
    ensures m.heatmapLegend == o.heatmapLevels && m.i18n == o.i18n
  {
    o.(tooltip := Some(TooltipOptions(o.showTooltip, o.tooltipUnit, o.tooltipDateFormat, o.tooltipFormatter)),
       heatmapLegend := o.heatmapLevels)
  }

  /** The older helpers compute what the current ones compute from the same settings in
      their nested places. */
  lemma LegacyContentIsModernized(lib: DateLib, o: CalendarOptions, day: HeatmapDay, color: HeatmapColor)
    ensures LegacyDayContent(lib, o, day) == DayContent(lib, Modernize(o), day)
    ensures LegacyLevelContent(lib, o, color) == LevelContent(lib, Modernize(o), color)
  {
    var m := Modernize(o);
    assert I18n(m) == I18n(o);
  }
}
