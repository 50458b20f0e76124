/** The Angular heatmap (`NxHeatmapCalendarComponent`) and its legend
    (`NxHeatmapCalendarLegendComponent`): the fields their lifecycle methods set, the
    classification of day cells and the wiring of the tooltip helpers. */
module Angular {
  import opened Wrappers
  import opened Dates
  import opened Models
  import opened Calendar
  import opened Levels
  import opened TooltipContent
  import opened TippyPool
  import opened Options

  class NxHeatmapCalendar {
    /** When the module was loaded: `defaultOptions` start at the start of its year. */
    const loadTime: Date
    /** The `options` input. */
    const options: CalendarOptions
    /** The `heatmapData` input. */
    const heatmapData: seq<HeatmapDay>

    var levels: int
    var min: real
    var max: real
    var range: real
    var step: real
    var emptyCellStyle: Style
    var mergedOptions: CalendarOptions
    var firstWeekOffsetDays: seq<HeatmapDay>
    var lastWeekOffsetDays: seq<HeatmapDay>
    /** The options of `calendarUtils`. */
    var calendarOptions: CalendarOptions
    /** `tippyUtils`, unset until `ngOnInit`. */
    var tippy: TippyUtils?

    /** There is at least one level and the buckets fill the range from `min = 0`. */
    ghost predicate Valid()
      reads this`levels, this`min, this`step, this`range
    {
      levels >= 1 && min == 0.0 && step == range / (levels as real)
    }

    /** The tooltip helper, once there, keeps its own invariant. */
    ghost predicate TippyValid()
      reads this, tippy
    {
      tippy != null ==> tippy.Valid()
    }

    /** The component as constructed, before `ngOnInit`: five levels, all numbers 0, empty
        padding and the utility built over the defaults. */
    constructor (loadTime: Date, options: CalendarOptions, heatmapData: seq<HeatmapDay>)
      ensures Valid() && TippyValid()
      ensures this.loadTime == loadTime
      ensures this.options == options && this.heatmapData == heatmapData
      ensures levels == 5 && min == 0.0 && max == 0.0 && range == 0.0 && step == 0.0
      ensures emptyCellStyle == map[] && mergedOptions == NoOptions
      ensures firstWeekOffsetDays == [] && lastWeekOffsetDays == []
      ensures calendarOptions == AngularDefaults(loadTime) && tippy == null
    {
      this.loadTime := loadTime;
      this.options := options;
      this.heatmapData := heatmapData;
      levels := 5;
      min := 0.0;
      max := 0.0;
      range := 0.0;
      step := 0.0;
      emptyCellStyle := map[];
      mergedOptions := NoOptions;
      firstWeekOffsetDays := [];
      lastWeekOffsetDays := [];
      calendarOptions := AngularDefaults(loadTime);
      tippy := null;
    }

    /** `updateHeatmapData`: the utility is rebuilt over the merged options, the labels are
        localized, the padding style, the level count and the step are set, and the padding
        is recomputed only for monthly and yearly calendars (`PaddingUpdated`). The source
        throws without a type or a start date. */
    method UpdateHeatmapData(lib: DateLib, now: Date)
      requires Valid()
      requires mergedOptions.calendarType.Some? && mergedOptions.startDate.Some?
      modifies this
      ensures Valid()
      ensures calendarOptions == old(mergedOptions)
      ensures mergedOptions == Localized(lib, calendarOptions, now)
      ensures emptyCellStyle == EmptyCellStyle(calendarOptions)
      ensures levels == LevelCount(calendarOptions) && range == Range && step == Step(levels)
      ensures min == old(min) && max == old(max) && tippy == old(tippy)
      ensures PaddingUpdated(calendarOptions.calendarType.value, calendarOptions.startDate.value,
                             old(firstWeekOffsetDays), old(lastWeekOffsetDays))
    {
      var o := mergedOptions;
      var first, last := firstWeekOffsetDays, lastWeekOffsetDays;
      var weekdays := WeekdayNames(lib, o, now, o.locale);
      var merged := o;
      if o.i18n.Some? {
        merged := o.(i18n := Some(o.i18n.value.(months := Some(MonthNames(lib, o, o.locale)),
                                                weekdays := Some(weekdays))));
      }
      var calendarType, start := o.calendarType.value, o.startDate.value;
      var end := PeriodEnd(calendarType, start);
      if calendarType != Weekly {
        first := FirstWeekOffset(start);
        last := LastWeekOffset(end);
      }
      var n := LevelCount(o);
      SetState(o, merged, EmptyCellStyle(o), n, Range, Step(n), first, last);
    }

    /** The fields `updateHeatmapData` assigns, set to the values it computes; nothing else
        changes. */
    method SetState(calendarOptions: CalendarOptions, mergedOptions: CalendarOptions, emptyCellStyle: Style,
                    levels: int, range: real, step: real,
                    firstWeekOffsetDays: seq<HeatmapDay>, lastWeekOffsetDays: seq<HeatmapDay>)
      modifies this
      ensures this.calendarOptions == calendarOptions && this.mergedOptions == mergedOptions
      ensures this.emptyCellStyle == emptyCellStyle
      ensures this.levels == levels && this.range == range && this.step == step
      ensures this.firstWeekOffsetDays == firstWeekOffsetDays && this.lastWeekOffsetDays == lastWeekOffsetDays
      ensures min == old(min) && max == old(max) && tippy == old(tippy)
    {
      this.calendarOptions := calendarOptions;
      this.mergedOptions := mergedOptions;
      this.emptyCellStyle := emptyCellStyle;
      this.levels := levels;
      this.range := range;
      this.step := step;
      this.firstWeekOffsetDays := firstWeekOffsetDays;
      this.lastWeekOffsetDays := lastWeekOffsetDays;
    }

    /** The padding `updateHeatmapData` leaves for a period of `calendarType` from `start`,
        given the padding it found: kept for a weekly calendar; otherwise recomputed from the
        period's start and end. `PaddedPeriodFillsWeeks` states what that padding achieves. */
    ghost predicate PaddingUpdated(calendarType: CalendarType, start: Date,
                                   oldFirst: seq<HeatmapDay>, oldLast: seq<HeatmapDay>)
      reads this
    {
      if calendarType == Weekly then
        firstWeekOffsetDays == oldFirst && lastWeekOffsetDays == oldLast
      else
        firstWeekOffsetDays == FirstWeekOffset(start)
        && lastWeekOffsetDays == LastWeekOffset(PeriodEnd(calendarType, start))
    }

    /** `ngOnInit`: the caller's options are spread over the defaults, the heatmap data is
        set up as `UpdateHeatmapData` states (the defaults always supply a type and a start
        date), and a fresh day-tooltip helper over the merged options is initialised. */
    method NgOnInit(lib: DateLib, now: Date)
      requires Valid()
      modifies this
      ensures Valid() && TippyValid()
      ensures mergedOptions == Localized(lib, ShallowMerge(AngularDefaults(loadTime), options), now)
      ensures calendarOptions == ShallowMerge(AngularDefaults(loadTime), options)
      ensures calendarOptions.calendarType.Some? && calendarOptions.startDate.Some?
      ensures emptyCellStyle == EmptyCellStyle(calendarOptions)
      ensures levels == LevelCount(calendarOptions) && range == Range && step == Step(levels)
      ensures min == old(min) && max == old(max)
      ensures PaddingUpdated(calendarOptions.calendarType.value, calendarOptions.startDate.value,
                             old(firstWeekOffsetDays), old(lastWeekOffsetDays))
      ensures tippy != null && fresh(tippy)
      ensures tippy.options == mergedOptions && tippy.pool == map[] && tippy.order == []
      ensures tippy.singleton == Some(Singleton([], SingletonProps(mergedOptions.tippyProps), false))
    {
      mergedOptions := ShallowMerge(AngularDefaults(loadTime), options);
      UpdateHeatmapData(lib, now);
      CreateTooltips();
    }

    /** The end of `ngOnInit`: a fresh day-tooltip helper over the merged options, initialised;
        no other field changes. */
    method CreateTooltips()
      modifies this
      ensures TippyValid() && tippy != null && fresh(tippy)
      ensures tippy.options == mergedOptions && tippy.pool == map[] && tippy.order == []
      ensures tippy.singleton == Some(Singleton([], SingletonProps(mergedOptions.tippyProps), false))
      ensures unchanged(this`levels, this`min, this`max, this`range, this`step, this`emptyCellStyle)
      ensures unchanged(this`mergedOptions, this`calendarOptions, this`firstWeekOffsetDays, this`lastWeekOffsetDays)
    {
      var t := new TippyUtils(mergedOptions);
      t.Init();
      tippy := t;
    }

    /** `ngOnDestroy`: the tooltip helper, if any, is destroyed. */
    method NgOnDestroy()
      requires TippyValid()
      modifies tippy
      ensures TippyValid()
      ensures tippy != null ==>
        tippy.pool == old(tippy.pool) && tippy.tooltips == DestroyAll(old(tippy.tooltips), tippy.pool.Values)
        && (old(tippy.singleton).Some? ==> tippy.singleton == Some(old(tippy.singleton).value.(destroyed := true)))
    {
      if tippy != null {
        tippy.Destroy();
      }
    }

    /** `getGridPosition`: the style of data day `index`, placed after the leading padding. */
    function GetGridPosition(index: nat): (style: Style)
      reads this
      ensures style == GridPosition(calendarOptions, index, |firstWeekOffsetDays|)
    {
      GridPosition(calendarOptions, index, |firstWeekOffsetDays|)
    }

    /** `getDayClass`: the classification of `value`, prefixed with `clickable` exactly when
        the caller gave an `onClick`. */
    method GetDayClass(value: Option<real>) returns (s: string)
      ensures s == HeatmapClassName(Classify(value, Table(mergedOptions), levels, min, step),
                                    mergedOptions.onClick.Some?)
    {
      var l := ScanLevel(value, Table(mergedOptions), levels, min, step);
      s := HeatmapClassName(l, mergedOptions.onClick.Some?);
    }

    /** `getEmptyDayClass`. */
    function GetEmptyDayClass(): (s: string)
      reads this
      ensures s == EmptyDayClass(Table(mergedOptions))
    {
      EmptyDayClass(Table(mergedOptions))
    }

    /** `onDayMouseOver`: the day's tooltip is loaded lazily, once the helper exists. */
    method OnDayMouseOver(lib: DateLib, target: Element, day: HeatmapDay)
      requires TippyValid()
      modifies tippy
      ensures TippyValid()
      ensures tippy != null ==> tippy.Loaded(target, DayContent(lib, tippy.options, day))
    {
      if tippy != null {
        tippy.LazyLoadDay(lib, target, day);
      }
    }
  }

  class NxHeatmapCalendarLegend {
    /** The `options` input. */
    var options: CalendarOptions
    var min: real
    var max: real
    var range: real
    var step: real
    var levels: int
    /** The levels the legend shows. */
    var colors: seq<HeatmapColor>
    var tippy: TippyUtils?

    ghost predicate Valid()
      reads this, tippy
    {
      tippy != null ==> tippy.Valid()
    }

    /** The legend with its input defaults: `min` 0, `max` 100, `range` 100, `step` 20 and
        five levels. */
    constructor (options: CalendarOptions)
      ensures Valid()
      ensures this.options == options
      ensures min == 0.0 && max == 100.0 && range == 100.0 && step == 20.0 && levels == 5
      ensures colors == [] && tippy == null
    {
      this.options := options;
      min := 0.0;
      max := 100.0;
      range := 100.0;
      step := 20.0;
      levels := 5;
      colors := [];
      tippy := null;
    }

    /** `updateLevelMap`: the caller's table, or `levels` generated entries marked
        `isDefault: false`. */
    method UpdateLevelMap()
      modifies this
      ensures colors == LevelMap(options.colors, levels, step, Some(false))
      ensures options == old(options) && min == old(min) && max == old(max) && range == old(range)
      ensures step == old(step) && levels == old(levels) && tippy == old(tippy)
    {
      if options.colors.Some? && |options.colors.value| > 0 {
        colors := options.colors.value;
      } else {
        colors := GeneratedLevels(levels, step, Some(false));
      }
    }

    /** `ngOnInit`: the level list is built, then a fresh legend-tooltip helper over the
        options is initialised. */
    method NgOnInit()
      requires Valid()
      modifies this
      ensures Valid()
      ensures colors == LevelMap(options.colors, levels, step, Some(false))
      ensures options == old(options) && step == old(step) && levels == old(levels)
      ensures tippy != null && fresh(tippy)
      ensures tippy.options == options && tippy.pool == map[] && tippy.order == []
      ensures tippy.singleton == Some(Singleton([], SingletonProps(options.tippyProps), false))
    {
      UpdateLevelMap();
      tippy := new TippyUtils(options);
      tippy.Init();
    }

    /** `ngOnDestroy`. */
    method NgOnDestroy()
      requires Valid()
      modifies tippy
      ensures Valid()
      ensures tippy != null ==>
        tippy.pool == old(tippy.pool) && tippy.tooltips == DestroyAll(old(tippy.tooltips), tippy.pool.Values)
        && (old(tippy.singleton).Some? ==> tippy.singleton == Some(old(tippy.singleton).value.(destroyed := true)))
    {
      if tippy != null {
        tippy.Destroy();
      }
    }

    /** `getDayClass`: the classification of `value` against the caller's table, without
        the `clickable` prefix. */
    method GetDayClass(value: Option<real>) returns (s: string)
      ensures s == LegendClassName(Classify(value, Table(options), levels, min, step))
    {
      var l := ScanLevel(value, Table(options), levels, min, step);
      s := LegendClassName(l);
    }

    /** `onMouseOver`: the level's tooltip is loaded lazily, once the helper exists. */
    method OnMouseOver(lib: DateLib, target: Element, color: HeatmapColor)
      requires Valid()
      modifies tippy
      ensures Valid()
      ensures tippy != null ==> tippy.Loaded(target, LevelContent(lib, tippy.options, color))
    {
      if tippy != null {
        tippy.LazyLoadLevel(lib, target, color);
      }
    }
  }

  /** The heatmap hands the legend its level count and step; with the defaults' quantile
      mode each generated legend cell, classified by its own lower bound, gets the class the
      heatmap gives the same value (up to the `clickable` prefix). */
  lemma LegendCellsMatchHeatmap(o: CalendarOptions, i: nat)
    requires |Table(o)| == 0 && i < LevelCount(o)
    ensures var c := GeneratedLevels(LevelCount(o), Step(LevelCount(o)), Some(false))[i];
      LegendClassName(Classify(c.min, [], LevelCount(o), 0.0, Step(LevelCount(o)))) == c.className
  {
    GeneratedLevelClassifiesToItself(LevelCount(o), Step(LevelCount(o)), Some(false), i);
  }
}
