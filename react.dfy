/** The React heatmaps, `CalendarHeatmap.tsx` and the older `calendar-heatmap.tsx`, and
    their legend `heatmap-legend.tsx`. The state hooks of a heatmap are one `ViewState`
    record; an effect is a function from the state it runs in to the state its setters
    leave; a render is a function of the options and the state. */
module React {
  import opened Wrappers
  import opened Dates
  import opened Models
  import opened Text
  import opened Calendar
  import opened Levels
  import opened TippyPool
  import opened Options

  // ----- state and the period effect -----

  /** The state hooks both heatmaps declare. */
  datatype ViewState = ViewState(
    levels: int,
    min: real,
    max: real,
    range: real,
    step: real,
    firstWeekOffsetDays: seq<HeatmapDay>,
    lastWeekOffsetDays: seq<HeatmapDay>,
    emptyCellStyle: Style)

  /** The initial state: five levels, every number 0, no padding and no padding style. */
  const Initial := ViewState(5, 0.0, 0.0, 0.0, 0.0, [], [], map[])

  /** The period effect: it sets the padding style, the level count, `min` 0, `max` 100,
      `range` 100 and the step `100 / levels`, where `levels` is the state of the render the
      effect runs in, not the count it has just set. The padding is recomputed only for a
      monthly or yearly calendar. */
  function PeriodEffect(s: ViewState, o: CalendarOptions): (t: ViewState)
    requires s.levels >= 1
    requires o.calendarType.Some? && o.startDate.Some?
    ensures t.levels == LevelCount(o) && t.min == 0.0 && t.max == 100.0 && t.range == Range
    ensures t.step == Step(s.levels)
    ensures t.emptyCellStyle == EmptyCellStyle(o)
    ensures o.calendarType == Some(Weekly) ==>
      t.firstWeekOffsetDays == s.firstWeekOffsetDays && t.lastWeekOffsetDays == s.lastWeekOffsetDays
    ensures o.calendarType != Some(Weekly) ==>
      t.firstWeekOffsetDays == FirstWeekOffset(o.startDate.value)
      && t.lastWeekOffsetDays == LastWeekOffset(PeriodEnd(o.calendarType.value, o.startDate.value))
  {
    var calendarType, start := o.calendarType.value, o.startDate.value;
    var end := PeriodEnd(calendarType, start);
    ViewState(
      LevelCount(o), 0.0, 100.0, 100.0, 100.0 / (s.levels as real),
      if calendarType == Weekly then s.firstWeekOffsetDays else FirstWeekOffset(start),
      if calendarType == Weekly then s.lastWeekOffsetDays else LastWeekOffset(end),
      EmptyCellStyle(o))
  }

  /** The state the period effect settles in, given `options` and `heatmapData` props that
      keep their identity from render to render. `levels` is one of its dependencies, so it
      then runs again exactly when its run changed the level count. The settled state is the
      first run's with the step the level count calls for, and a further run changes
      nothing. */
  function Settle(s: ViewState, o: CalendarOptions): (t: ViewState)
    requires s.levels >= 1
    requires o.calendarType.Some? && o.startDate.Some?
    ensures t.levels == LevelCount(o) && t.step == Step(LevelCount(o))
    ensures t == PeriodEffect(s, o).(step := Step(LevelCount(o)))
    ensures PeriodEffect(t, o) == t
  {
    var first := PeriodEffect(s, o);
    if first.levels == s.levels then first else PeriodEffect(first, o)
  }

  /** The period effect reads neither label, so the labels `updateCalendarLabels` writes
      into the merged options do not change what a later run sets. */
  lemma PeriodEffectIgnoresLabels(lib: DateLib, s: ViewState, o: CalendarOptions, now: Date)
    requires s.levels >= 1
    requires o.calendarType.Some? && o.startDate.Some?
    ensures PeriodEffect(s, Localized(lib, o, now)) == PeriodEffect(s, o)
  {
    var m := Localized(lib, o, now);
    assert m.calendarType == o.calendarType && m.startDate == o.startDate;
    assert m.colors == o.colors && m.cellSize == o.cellSize;
    assert m.overWritedDayStyle == o.overWritedDayStyle;
  }

  /** The React merge always yields a type and a start date, so the period effect never
      meets options without them. */
  lemma MergedOptionsHavePeriod(now: Date, options: CalendarOptions)
    ensures DeepMerge(ReactDefaults(now), options).calendarType.Some?
    ensures DeepMerge(ReactDefaults(now), options).startDate.Some?
  {
    var d := ReactDefaults(now);
    var m := DeepMerge(d, options);
    assert m.calendarType == ShallowMerge(d, options).calendarType;
    assert m.startDate == ShallowMerge(d, options).startDate;
  }

  /** `CalendarHeatmap.tsx` after mounting: its merge always yields `i18n`, so
      `updateCalendarLabels` always writes the twelve month names of the start date's year
      and the seven weekday names of the current week, in the merged locale, and keeps every
      other label as merged. */
  lemma MountedLabels(lib: DateLib, now: Date, options: CalendarOptions)
    ensures var o := DeepMerge(ReactDefaults(now), options);
      var m := Localized(lib, o, now);
      o.startDate.Some? && m.i18n.Some?
      && m.i18n.value == o.i18n.value.(months := Some(MonthNames(lib, o, o.locale)),
                                       weekdays := Some(WeekOfNames(lib, o, now, o.locale)))
      && |m.i18n.value.months.value| == 12 && |m.i18n.value.weekdays.value| == 7
  {
    MergedOptionsHavePeriod(now, options);
  }

  // ----- classification -----

  /** `getDayClass` of both heatmaps: the classification of `value` in the current state,
      prefixed with `clickable` exactly when the caller gave an `onClick`. */
  method GetDayClass(o: CalendarOptions, s: ViewState, value: Option<real>) returns (c: string)
    ensures c == HeatmapClassName(Classify(value, Table(o), s.levels, s.min, s.step), o.onClick.Some?)
  {
    var l := ScanLevel(value, Table(o), s.levels, s.min, s.step);
    c := HeatmapClassName(l, o.onClick.Some?);
  }

  /** `getDayClass` of the legend: the classification of `value` against the caller's table
      with the level props, without a prefix. */
  method GetLegendDayClass(o: CalendarOptions, levels: int, min: real, step: real, value: Option<real>)
      returns (c: string)
    ensures c == LegendClassName(Classify(value, Table(o), levels, min, step))
  {
    var l := ScanLevel(value, Table(o), levels, min, step);
    c := LegendClassName(l);
  }

  // ----- the rendered day buttons -----

  /** A day button: its class, its inline style and the day it shows. */
  datatype DayButton = DayButton(className: string, style: Style, day: HeatmapDay)

  /** A padding run: every button has the empty-day class and the padding style. */
  function PaddingButtons(table: seq<HeatmapColor>, style: Style, days: seq<HeatmapDay>)
      : (bs: seq<DayButton>)
    ensures |bs| == |days|
    ensures forall i {:trigger bs[i]} :: 0 <= i < |days| ==> bs[i] == DayButton("day " + EmptyDayClass(table), style, days[i])
  {
    seq(|days|, i requires 0 <= i < |days| => DayButton("day " + EmptyDayClass(table), style, days[i]))
  }

  /** The data buttons: day `i` has its count's class and the grid position of index `i`
      after the leading padding, computed by a calendar utility over `utils`. */
  function DataButtons(table: seq<HeatmapColor>, clickable: bool, s: ViewState,
                       utils: CalendarOptions, data: seq<HeatmapDay>): (bs: seq<DayButton>)
    ensures |bs| == |data|
    ensures forall i {:trigger bs[i]} :: 0 <= i < |data| ==>
      bs[i] == DayButton("day " + HeatmapClassName(Classify(data[i].count, table, s.levels, s.min, s.step), clickable),
                         GridPosition(utils, i, |s.firstWeekOffsetDays|), data[i])
  {
    seq(|data|, i requires 0 <= i < |data| =>
      DayButton("day " + HeatmapClassName(Classify(data[i].count, table, s.levels, s.min, s.step), clickable),
                GridPosition(utils, i, |s.firstWeekOffsetDays|), data[i]))
  }

  /** The buttons of the grid in document order: the leading padding run, the data
      buttons and the trailing padding run; both padding runs are left out when
      `hideEmptyDays` is truthy. */
  function RenderedDays(o: CalendarOptions, s: ViewState, utils: CalendarOptions, data: seq<HeatmapDay>)
      : seq<DayButton>
  {
    Framed(IsSet(o.hideEmptyDays), PaddingButtons(Table(o), s.emptyCellStyle, s.firstWeekOffsetDays),
           DataButtons(Table(o), o.onClick.Some?, s, utils, data),
           PaddingButtons(Table(o), s.emptyCellStyle, s.lastWeekOffsetDays))
  }

  /** The grid shows the leading padding run, the data buttons and the trailing padding run,
      in that order, or the data buttons alone when `hideEmptyDays` is truthy. */
  lemma RenderedDaysInOrder(o: CalendarOptions, s: ViewState, utils: CalendarOptions, data: seq<HeatmapDay>)
    ensures IsSet(o.hideEmptyDays) ==> RenderedDays(o, s, utils, data) == DataButtons(Table(o), o.onClick.Some?, s, utils, data)
    ensures !IsSet(o.hideEmptyDays) ==>
      RenderedDays(o, s, utils, data)
        == PaddingButtons(Table(o), s.emptyCellStyle, s.firstWeekOffsetDays)
           + DataButtons(Table(o), o.onClick.Some?, s, utils, data)
           + PaddingButtons(Table(o), s.emptyCellStyle, s.lastWeekOffsetDays)
  {
  }

  /** The data cells alone when the padding is hidden, else between the two paddings. */
  function Framed<T>(hidden: bool, first: seq<T>, days: seq<T>, last: seq<T>): seq<T>
  {
    if hidden then days else first + days + last
  }

  /** Hiding the empty days removes exactly the two padding runs: the data buttons, their
      classes and their grid positions are the same either way. */
  lemma HidingKeepsDataButtons(o: CalendarOptions, s: ViewState, utils: CalendarOptions, data: seq<HeatmapDay>)
    ensures var shown := RenderedDays(o.(hideEmptyDays := None), s, utils, data);
      RenderedDays(o.(hideEmptyDays := Some(true)), s, utils, data)
        == shown[|s.firstWeekOffsetDays| .. |s.firstWeekOffsetDays| + |data|]
  {
    FramedSlice(PaddingButtons(Table(o), s.emptyCellStyle, s.firstWeekOffsetDays),
                DataButtons(Table(o), o.onClick.Some?, s, utils, data),
                PaddingButtons(Table(o), s.emptyCellStyle, s.lastWeekOffsetDays));
  }

  /** The data cells are the middle slice of the framed sequence. */
  lemma FramedSlice<T>(first: seq<T>, days: seq<T>, last: seq<T>)
    ensures Framed(true, first, days, last)
      == Framed(false, first, days, last)[|first| .. |first| + |days|]
  {
    assert (first + days + last)[|first| .. |first| + |days|] == days;
  }

  /** In a monthly or yearly heatmap whose leading padding is as long as the period's
      (`FirstWeekOffset`, as in the settled state) and whose data runs day by day from the
      start date, the button of data day `k` shows that day in the row of its own weekday.
      Where that button stands among the rendered cells is `RenderedDaysInOrder`. */
  lemma DaysSitInWeekdayRows(o: CalendarOptions, s: ViewState, data: seq<HeatmapDay>, k: nat)
    requires o.calendarType.Some? && o.calendarType != Some(Weekly) && o.startDate.Some?
    requires |s.firstWeekOffsetDays| == Weekday(o.startDate.value) - 1
    requires "gridRow" !in Overrides(o)
    requires k < |data| && data[k].date == PlusDays(o.startDate.value, k)
    ensures var b := DataButtons(Table(o), o.onClick.Some?, s, o, data)[k];
      b.day == data[k] && b.style["gridRow"] == Number(Weekday(data[k].date))
  {
    GridRowIsWeekday(o, o.startDate.value, |s.firstWeekOffsetDays|, k);
  }

  /** With the leading padding of the start date, the grid row of day `k` is its weekday. */
  lemma GridRowIsWeekday(o: CalendarOptions, start: Date, offset: nat, k: nat)
    requires o.calendarType.Some? && o.calendarType != Some(Weekly)
    requires offset == Weekday(start) - 1
    requires "gridRow" !in Overrides(o)
    ensures GridPosition(o, k, offset)["gridRow"] == Number(Weekday(PlusDays(start, k)))
  {
    DayRowIsWeekday(o.calendarType, start, k);
  }

  /** The layout options of the defaults: a yearly calendar without a cell size or style
      overrides. */
  lemma DefaultLayout(now: Date)
    ensures ReactDefaults(now).calendarType == Some(Yearly)
    ensures ReactDefaults(now).cellSize.None? && ReactDefaults(now).overWritedDayStyle.None?
  {
  }

  /** `calendar-heatmap.tsx` places its days with a calendar utility built over the
      defaults (`DefaultLayout`), not the merged options (`DataButtons` takes the utility's
      options): a weekly calendar is laid out as a yearly one and the caller's cell size is
      ignored. With the weekly calendar's empty padding its second day lands in row 2 with
      height 15px, where `CalendarHeatmap.tsx`, placing it with the merged options, puts it
      in row 1 with the caller's 20px. */
  lemma OlderGridIgnoresCallerLayout(now: Date, o: CalendarOptions)
    requires o.calendarType == Some(Weekly) && o.cellSize == Some(20) && o.overWritedDayStyle.None?
    ensures GridPosition(ReactDefaults(now), 1, 0)["gridRow"] == Number(2)
    ensures GridPosition(ReactDefaults(now), 1, 0)["height"] == Css("15px")
    ensures GridPosition(o, 1, 0)["gridRow"] == Number(1)
    ensures GridPosition(o, 1, 0)["height"] == Css("20px")
  {
    DefaultLayout(now);
    SmallNumberTexts();
  }

  /** The decimal texts of the cell sizes the lemmas here use. */
  lemma SmallNumberTexts()
    ensures IntText(13) == "13" && IntText(15) == "15" && IntText(20) == "20"
  {
    assert NatText(13) == NatText(1) + [DigitChar(3)];
    assert NatText(15) == NatText(1) + [DigitChar(5)];
    assert NatText(20) == NatText(2) + [DigitChar(0)];
  }

  // ----- the legend -----

  /** A legend button: its class, its inline style and the level it shows. */
  datatype LevelButton = LevelButton(className: string, style: Style, color: HeatmapColor)

  /** What the legend renders: the container's class and one button per level. */
  datatype LegendView = LegendView(containerClass: string, buttons: seq<LevelButton>)

  /** The legend's side: `left` exactly when the legend options ask for the left, `right`
      otherwise (also without legend options). */
  function DirectionClass(o: CalendarOptions): (side: string)
    ensures side == "left" <==> o.heatmapLegend.Some? && o.heatmapLegend.value.direction == Some(Left)
    ensures side == "left" || side == "right"
  {
    if o.heatmapLegend.Some? && o.heatmapLegend.value.direction == Some(Left) then "left" else "right"
  }

  /** The size of a legend cell: two pixels less than a padding cell (`cellSize || 15`). */
  function LevelCellStyle(o: CalendarOptions): (style: Style)
    ensures style.Keys == {"width", "height"}
    ensures style["width"] == style["height"] == Css(IntText(PaddingCellSize(o) - 2) + "px")
  {
    var size := Css(IntText(PaddingCellSize(o) - 2) + "px");
    map["width" := size, "height" := size]
  }

  /** Without a cell size, or with size 0, a legend cell is 13px wide and high. */
  lemma DefaultLevelCellSize(o: CalendarOptions)
    requires o.cellSize.None? || o.cellSize == Some(0)
    ensures LevelCellStyle(o)["width"] == Css("13px") && LevelCellStyle(o)["height"] == Css("13px")
  {
    SmallNumberTexts();
  }

  /** The legend once its `updateLevelMap` effect has run: `colors` is the caller's table
      when non-empty, otherwise `levels` generated entries without an `isDefault` flag; each
      button is classified by its level's own `min`. */
  function Legend(o: CalendarOptions, levels: int, min: real, step: real): (v: LegendView)
    ensures v.containerClass == "heatmap-levels " + DirectionClass(o)
    ensures var colors := LevelMap(o.colors, levels, step, None);
      |v.buttons| == |colors|
      && forall i :: 0 <= i < |colors| ==>
        v.buttons[i] == LevelButton(
          "day " + LegendClassName(Classify(colors[i].min, Table(o), levels, min, step)),
          LevelCellStyle(o), colors[i])
  {
    var colors := LevelMap(o.colors, levels, step, None);
    LegendView("heatmap-levels " + DirectionClass(o),
      seq(|colors|, i requires 0 <= i < |colors| =>
        LevelButton("day " + LegendClassName(Classify(colors[i].min, Table(o), levels, min, step)),
                    LevelCellStyle(o), colors[i])))
  }

  /** Without a table, and with `min` 0 and a positive step, legend button `i` shows
      `level-i`: each generated level is classified into itself. */
  lemma LegendButtonsNameTheirLevels(o: CalendarOptions, levels: int, step: real, i: nat)
    requires |Table(o)| == 0 && step > 0.0 && i < levels
    ensures i < |Legend(o, levels, 0.0, step).buttons|
    ensures Legend(o, levels, 0.0, step).buttons[i].className == "day " + ("level-" + NatText(i))
  {
    GeneratedLegendButton(o, levels, step, i);
    GeneratedLevelClassifiesToItself(levels, step, None, i);
  }

  /** Without a table, legend button `i` shows generated level `i`, classified by its own
      `min`. */
  lemma GeneratedLegendButton(o: CalendarOptions, levels: int, step: real, i: nat)
    requires |Table(o)| == 0 && i < levels
    ensures var c := GeneratedLevels(levels, step, None)[i];
      i < |Legend(o, levels, 0.0, step).buttons|
      && Legend(o, levels, 0.0, step).buttons[i].className
         == "day " + LegendClassName(Classify(c.min, [], levels, 0.0, step))
  {
    assert LevelMap(o.colors, levels, step, None) == GeneratedLevels(levels, step, None);
  }

  /** With a table, the legend shows the table's entries in order, each with the class of
      some table entry. */
  lemma LegendShowsTable(o: CalendarOptions, levels: int, min: real, step: real, i: nat)
    requires |Table(o)| > 0 && i < |Table(o)|
    ensures var v := Legend(o, levels, min, step);
      |v.buttons| == |Table(o)| && v.buttons[i].color == Table(o)[i]
      && exists k :: 0 <= k < |Table(o)| && v.buttons[i].className == "day " + Table(o)[k].className
  {
    var l := Classify(Table(o)[i].min, Table(o), levels, min, step);
    var k :| 0 <= k < |Table(o)| && l.className == Table(o)[k].className;
    assert LegendClassName(l) == Table(o)[k].className;
  }

  // ----- the whole render -----

  /** What a heatmap renders: its day buttons and, when shown, its legend. */
  datatype View = View(days: seq<DayButton>, legend: Option<LegendView>)

  /** The render of both heatmaps: the legend gets the heatmap's level count, `min` and step
      and is shown exactly when `heatmapLegend.display` is truthy. */
  function Render(o: CalendarOptions, s: ViewState, utils: CalendarOptions, data: seq<HeatmapDay>)
      : (v: View)
    ensures v.days == RenderedDays(o, s, utils, data)
    ensures v.legend.Some? <==> o.heatmapLegend.Some? && IsSet(o.heatmapLegend.value.display)
    ensures v.legend.Some? ==> v.legend.value == Legend(o, s.levels, s.min, s.step)
  {
    var shown := o.heatmapLegend.Some? && IsSet(o.heatmapLegend.value.display);
    View(RenderedDays(o, s, utils, data), if shown then Some(Legend(o, s.levels, s.min, s.step)) else None)
  }

  /** With a table, no part of a render reads the step: neither the day classes nor the
      legend, whose levels are then the table's. */
  lemma TableRenderIgnoresStep(o: CalendarOptions, s: ViewState, utils: CalendarOptions,
                               data: seq<HeatmapDay>, step: real)
    requires |Table(o)| > 0
    ensures Render(o, s.(step := step), utils, data) == Render(o, s, utils, data)
  {
    TableDaysIgnoreStep(o, s, utils, data, step);
    TableLegendIgnoresStep(o, s.levels, s.min, s.step, step);
  }

  /** With a table the day buttons do not depend on the step. */
  lemma TableDaysIgnoreStep(o: CalendarOptions, s: ViewState, utils: CalendarOptions,
                            data: seq<HeatmapDay>, step: real)
    requires |Table(o)| > 0
    ensures RenderedDays(o, s.(step := step), utils, data) == RenderedDays(o, s, utils, data)
  {
    var a := DataButtons(Table(o), o.onClick.Some?, s.(step := step), utils, data);
    var b := DataButtons(Table(o), o.onClick.Some?, s, utils, data);
    forall i | 0 <= i < |data|
      ensures a[i] == b[i]
    {
      assert Classify(data[i].count, Table(o), s.levels, s.min, step)
          == Classify(data[i].count, Table(o), s.levels, s.min, s.step);
    }
    assert a == b;
  }

  /** With a table the legend does not depend on the step. */
  lemma TableLegendIgnoresStep(o: CalendarOptions, levels: int, min: real, step: real, step': real)
    requires |Table(o)| > 0
    ensures Legend(o, levels, min, step') == Legend(o, levels, min, step)
  {
    var a, b := Legend(o, levels, min, step'), Legend(o, levels, min, step);
    var colors := LevelMap(o.colors, levels, step, None);
    assert colors == LevelMap(o.colors, levels, step', None) == Table(o);
    forall i | 0 <= i < |colors|
      ensures a.buttons[i] == b.buttons[i]
    {
      assert Classify(colors[i].min, Table(o), levels, min, step')
          == Classify(colors[i].min, Table(o), levels, min, step);
    }
    assert a.buttons == b.buttons;
  }

  /** The stale step of the period effect's first run never shows: the render after it
      equals the settled render. Without a table the level count is the initial 5, so both
      runs set the same step; with a table no part of the render reads the step. */
  lemma StaleStepIsInvisible(o: CalendarOptions, utils: CalendarOptions, data: seq<HeatmapDay>)
    requires o.calendarType.Some? && o.startDate.Some?
    ensures Render(o, PeriodEffect(Initial, o), utils, data) == Render(o, Settle(Initial, o), utils, data)
  {
    var first, settled := PeriodEffect(Initial, o), Settle(Initial, o);
    assert settled == first.(step := settled.step);
    if |Table(o)| > 0 {
      TableRenderIgnoresStep(o, first, utils, data, settled.step);
    }
  }

  /** In the settled state without a table, the legend under the heatmap names its levels
      `level-0` to `level-4`, in order. */
  lemma SettledLegendNamesLevels(o: CalendarOptions, i: nat)
    requires o.calendarType.Some? && o.startDate.Some?
    requires |Table(o)| == 0 && i < 5
    ensures var s := Settle(Initial, o);
      i < |Legend(o, s.levels, s.min, s.step).buttons|
      && Legend(o, s.levels, s.min, s.step).buttons[i].className == "day " + ("level-" + NatText(i))
  {
    var s := Settle(Initial, o);
    LegendButtonsNameTheirLevels(o, s.levels, s.step, i);
  }

  /** The legend's prop defaults: `min` 0, `max` 100, `range` 100, `step` 100 and five
      levels (the Angular legend's default step is 20). */
  const LegendDefaultMin: real := 0.0
  const LegendDefaultMax: real := 100.0
  const LegendDefaultRange: real := 100.0
  const LegendDefaultStep: real := 100.0
  const LegendDefaultLevels: int := 5

  /** A legend given only `options`, without a table, shows five buttons named `level-0`
      to `level-4`: generated level `i` starts at `100 * i`, which the default step puts in
      bucket `i`. */
  lemma DefaultLegendNamesLevels(o: CalendarOptions, i: nat)
    requires |Table(o)| == 0 && i < LegendDefaultLevels
    ensures var v := Legend(o, LegendDefaultLevels, LegendDefaultMin, LegendDefaultStep);
      |v.buttons| == 5 && v.buttons[i].className == "day " + ("level-" + NatText(i))
      && v.buttons[i].color.min == Some((i as real) * 100.0)
  {
    LegendButtonsNameTheirLevels(o, LegendDefaultLevels, LegendDefaultStep, i);
    GeneratedLegendButton(o, LegendDefaultLevels, LegendDefaultStep, i);
  }

  // ----- tooltips -----

  /** The tooltip effect of `CalendarHeatmap.tsx` and of the legend: a fresh helper over the
      given options (the merged options, or the legend's `options` prop), initialised. */
  method MountTooltips(o: CalendarOptions) returns (t: TippyUtils)
    ensures fresh(t) && t.Valid()
    ensures t.options == o && t.pool == map[] && t.order == []
    ensures t.singleton == Some(Singleton([], SingletonProps(o.tippyProps), false))
  {
    t := new TippyUtils(o);
    t.Init();
  }

  /** `calendar-heatmap.tsx` builds its day-tooltip helper over the caller's options as
      given, not merged, and never initialises it: without a singleton, hovering a day
      (`onDayMouseOver`) loads no tooltip. */
  method OlderDayMouseOver(lib: DateLib, options: CalendarOptions, target: Element, day: HeatmapDay)
      returns (t: TippyUtils)
    ensures t.Valid() && t.options == options
    ensures t.singleton.None? && t.pool == map[] && t.order == [] && t.tooltips == map[]
  {
    t := new TippyUtils(options);
    t.LazyLoadDay(lib, target, day);
  }
}
