# nx-calendar-heatmap in Dafny

A verified model of the logic behind the nx-calendar-heatmap components: GitHub-style
activity grids for Angular and React.

- **Calendar utility** (`CalendarUtils`): pads a period with empty cells to whole weeks,
  places each day in a column-major CSS grid, and builds the localized month and weekday
  labels.
- **Level classifier**: gives every day cell a class. There are two modes:
  - *quantile mode*: `levels` equal buckets above `min`;
  - *table mode*: the first colour entry whose truthy bounds contain the value.

  The same classifier is copied into every heatmap and legend component.
- **Legend**: lists the levels, either the caller's colour table or generated entries.
- **Tooltip pool** (`TippyUtils` and its day and level subclasses): a map from DOM elements
  to tippy.js instances behind one singleton. Both generations of the pool are modelled:
  the current one in `utils/tippy/` and the older one directly in `utils/`.
- **Components**: the Angular heatmap and legend, the two React heatmaps
  (`CalendarHeatmap.tsx` and the older `calendar-heatmap.tsx`) and the React legend. The
  model covers their option merging, the period set-up, the order of the rendered cells
  and the tooltip wiring.

## Modules

| file | module | what it holds |
|---|---|---|
| `wrappers.dfy` | `Wrappers` | `Option` (absent / `undefined`), `??` as `GetOr`, one-property spread as `Or` |
| `models.dfy` | `Models` | the option, colour, day, locale, style and props types |
| `dates.dfy` | `Dates` | Luxon at day precision: dates are day numbers, with civil conversions proved to round-trip, weekday, `plus`, `set({weekday})`, `startOf("year")`, `endOf("month")` and `endOf("year")` |
| `text.dfy` | `Text` | how a template literal prints an integer, proved injective |
| `calendar.dfy` | `Calendar` | week padding, grid position, label lists and the utility's test vectors |
| `levels.dfy` | `Levels` | the classifier as a specification (`Classify`) and as the loops the components run (`ScanLevel`); the legend level list |
| `tooltip_content.dfy` | `TooltipContent` | the day and level tooltip text, in the current and the older option forms |
| `tippy.dfy` | `TippyPool` | the tooltip pool class with `init`, `reset`, `destroy` and `lazyLoadTooltip` |
| `options.dfy` | `Options` | defaults, the shallow (Angular) and per-field (React) merges, level count, step, period end, padding-cell style |
| `angular.dfy` | `Angular` | the two Angular components, as classes whose lifecycle methods set their fields |
| `react.dfy` | `React` | the React components, as functions of a view-state record; the period effect and its settled state; the rendered cells and legend |

Modelling choices:

- **Dates.** A `DateTime` is a proleptic-Gregorian day number (`Dates.Date`). Luxon's
  weekday runs from 1 (Monday) to 7 (Sunday).
- **Numbers.** Numbers are exact `real`s.
- **Optional properties.** Every optional property is an `Option`; both an absent property
  and an explicit `undefined` are `None`. A JavaScript truthiness test is written out:
  - `IsSet` for a flag;
  - `HasText` for a string;
  - `Levels.Truthy` for a number (0 is falsy).
- **Foreign calls.** Month and weekday names, `toFormat` and number printing are the
  arbitrary functions of a `DateLib` record.
- **tippy.js.** Instances are opaque handles. The model records only the props each
  instance was created with and whether it was destroyed.

## Model

| member | source | states |
|---|---|---|
| Dates.CivilRoundTrip | libs/utils/nx-calendar-heatmap-utils/src/lib/utils/calendar/calendar.utils.ts:65 | `DateTime.local(y, m, d)` of a valid calendar date reads back as that same year, month and day |
| Dates.DaysRoundTrip | libs/utils/nx-calendar-heatmap-utils/src/lib/utils/calendar/calendar.utils.ts:25 | every day number converts to a calendar date and back to itself, so day arithmetic and calendar fields agree |
| Dates.Weekday | libs/utils/nx-calendar-heatmap-utils/src/lib/utils/calendar/calendar.utils.ts:17-18 | Luxon's weekday always lies in 1..7 |
| Dates.WeekdayAfter | libs/utils/nx-calendar-heatmap-utils/src/lib/utils/calendar/calendar.utils.ts:46 | moving `n` days moves the weekday `n` steps round the week |
| Dates.SetWeekday | libs/utils/nx-calendar-heatmap-utils/src/lib/utils/calendar/calendar.utils.ts:97 | `set({ weekday: w })` yields a day with weekday `w` in the same Monday-first week |
| Dates.StartOfYear | libs/features/nx-angular-calendar-heatmap/src/lib/components/nx-calendar-heatmap/nx-calendar-heatmap.component.ts:17 | `startOf("year")` never moves a date forward |
| Dates.StartOfYearIsNewYear | libs/features/nx-angular-calendar-heatmap/src/lib/components/nx-calendar-heatmap/nx-calendar-heatmap.component.ts:17 | `startOf("year")` is January 1 of the date's year |
| Dates.EndOfMonthIsLastDay | libs/features/nx-angular-calendar-heatmap/src/lib/components/nx-calendar-heatmap/nx-calendar-heatmap.component.ts:106 | `endOf("month")` is the last day of the date's month |
| Dates.EndOfMonth | libs/features/nx-angular-calendar-heatmap/src/lib/components/nx-calendar-heatmap/nx-calendar-heatmap.component.ts:106 | the end of the month is at most 30 days after the date and never before it |
| Dates.EndOfYear | libs/features/nx-angular-calendar-heatmap/src/lib/components/nx-calendar-heatmap/nx-calendar-heatmap.component.ts:109 | `endOf("year")` never moves a date backward |
| Dates.EndOfYearIsDecember31 | libs/features/nx-angular-calendar-heatmap/src/lib/components/nx-calendar-heatmap/nx-calendar-heatmap.component.ts:109 | `endOf("year")` is December 31 of the date's year |
| Text.NatText | libs/features/nx-angular-calendar-heatmap/src/lib/components/nx-calendar-heatmap/nx-calendar-heatmap.component.ts:136 | a printed natural number is a non-empty run of digits without a leading zero |
| Text.ParseNatText | libs/features/nx-angular-calendar-heatmap/src/lib/components/nx-calendar-heatmap/nx-calendar-heatmap.component.ts:136 | reading back the printed digits gives the number |
| Text.NatTextInjective | libs/features/nx-angular-calendar-heatmap/src/lib/components/nx-calendar-legend/nx-calendar-legend.component.ts:44 | distinct numbers print as distinct digit strings |
| Text.PrefixedNatInjective | libs/features/nx-angular-calendar-heatmap/src/lib/components/nx-calendar-legend/nx-calendar-legend.component.ts:44 | two class names `level-${m}` and `level-${n}` are equal only when m = n |
| Calendar.FirstWeekOffset | libs/utils/nx-calendar-heatmap-utils/src/lib/utils/calendar/calendar.utils.ts:16-30 | the leading padding has `weekday - 1` entries (0 after a Monday, 6 before a Sunday); entry i is dated i days before the start, has no count and carries i |
| Calendar.LastWeekOffset | libs/utils/nx-calendar-heatmap-utils/src/lib/utils/calendar/calendar.utils.ts:37-51 | the trailing padding has `7 - weekday` entries (0 after a Sunday, 6 after a Monday); entry i is dated i days after the end, has no count and carries i |
| Calendar.FullWeeks | libs/utils/nx-calendar-heatmap-utils/src/lib/utils/calendar/calendar.utils.ts:16-51 | the leading padding, n consecutive days and the trailing padding after the n-th day add up to whole weeks |
| Calendar.PaddingFillsWeeks | libs/utils/nx-calendar-heatmap-utils/src/lib/utils/calendar/calendar.utils.ts:16-51 | for any start and end day, the padding around the days between them fills whole weeks |
| Calendar.CellOf | libs/utils/nx-calendar-heatmap-utils/src/lib/utils/calendar/calendar.utils.ts:116-131 | weekly: row 1, column index+1, whatever the offset; otherwise row in 1..7, column at least 1, with `7*(column-1) + (row-1) = index + offset` |
| Calendar.CellOfInjective | libs/utils/nx-calendar-heatmap-utils/src/lib/utils/calendar/calendar.utils.ts:116-131 | distinct day indices get distinct grid cells for every calendar type |
| Calendar.DayRowIsWeekday | libs/utils/nx-calendar-heatmap-utils/src/lib/utils/calendar/calendar.utils.ts:124-131 | after the leading padding of the start date, day k sits in the row of its own weekday |
| Calendar.RowsAreWeekdays | libs/utils/nx-calendar-heatmap-utils/src/lib/utils/calendar/calendar.utils.ts:124-131 | every day of a monthly or yearly grid sits in the row of its weekday |
| Calendar.GridPosition | libs/utils/nx-calendar-heatmap-utils/src/lib/utils/calendar/calendar.utils.ts:112-133 | the style has the grid row, column, height and width plus the caller's keys; caller overrides win; otherwise the cell's row and column and `(cellSize ?? 15)px` |
| Calendar.LabelLocale | libs/utils/nx-calendar-heatmap-utils/src/lib/utils/calendar/calendar.utils.ts:60 | the label locale is the argument, else `options.locale`, else "en" |
| Calendar.MonthFirstDayIsFirst | libs/utils/nx-calendar-heatmap-utils/src/lib/utils/calendar/calendar.utils.ts:65 | the day built for month entry i is the first of month i+1 of the year |
| Calendar.MonthNames | libs/utils/nx-calendar-heatmap-utils/src/lib/utils/calendar/calendar.utils.ts:59-71 | there are exactly twelve month names |
| Calendar.MonthNamesNameMonths | libs/utils/nx-calendar-heatmap-utils/src/lib/utils/calendar/calendar.utils.ts:59-71 | entry i names the first day of month i+1 of the start date's year, in the label locale |
| Calendar.WeekStart | libs/utils/nx-calendar-heatmap-utils/src/lib/utils/calendar/calendar.utils.ts:97 | the week of a day starts on a Monday at most six days before it |
| Calendar.WeekDays | libs/utils/nx-calendar-heatmap-utils/src/lib/utils/calendar/calendar.utils.ts:96-97 | day i of a Monday-first week has weekday i+1 |
| Calendar.WeekOfNames | libs/utils/nx-calendar-heatmap-utils/src/lib/utils/calendar/calendar.utils.ts:90-103 | there are exactly seven weekday names |
| Calendar.WeekOfNamesNameDays | libs/utils/nx-calendar-heatmap-utils/src/lib/utils/calendar/calendar.utils.ts:90-103 | entry i names the day i days after the current week's Monday, in the label locale |
| Calendar.WeekdayNames | libs/utils/nx-calendar-heatmap-utils/src/lib/utils/calendar/calendar.utils.ts:90-103 | the `for` loop collects exactly the week's names, Monday first: entry i is the name of the day with weekday i+1 |
| Calendar.LastDayOfMonth | libs/utils/nx-calendar-heatmap-utils/src/lib/utils/calendar/calendar.spec.ts:175-190 | `endOf("month")` of the first of a month is its last day |
| Calendar.LastDayOfYear | libs/utils/nx-calendar-heatmap-utils/src/lib/utils/calendar/calendar.spec.ts:101-134 | `endOf("year")` of January 1 is December 31 |
| Calendar.MonthStartOf2024 | libs/utils/nx-calendar-heatmap-utils/src/lib/utils/calendar/calendar.spec.ts:80-95 | the day numbers of the first days of the months of 2024 |
| Calendar.EndOfMonthOfFirst | libs/utils/nx-calendar-heatmap-utils/src/lib/utils/calendar/calendar.spec.ts:175-190 | the end of a month is its first day plus its length minus one |
| Calendar.FirstWeekOffsetOf2024 | libs/utils/nx-calendar-heatmap-utils/src/lib/utils/calendar/calendar.spec.ts:10-24 | 2024-01-01 needs no leading padding |
| Calendar.FirstWeekOffsetOf2025 | libs/utils/nx-calendar-heatmap-utils/src/lib/utils/calendar/calendar.spec.ts:26-43 | 2025-01-01 needs two padding days |
| Calendar.FirstWeekOffsets2024 | libs/utils/nx-calendar-heatmap-utils/src/lib/utils/calendar/calendar.spec.ts:80-95 | the leading paddings of the month starts of 2024 are `[0,3,4,0,2,5,0,3,6,1,4,6]` |
| Calendar.FirstWeekOffsetOfMonth2024 | libs/utils/nx-calendar-heatmap-utils/src/lib/utils/calendar/calendar.spec.ts:80-95 | `DateTime.local(2024, m, 1)` has the leading padding of entry m-1 of that list |
| Calendar.LastWeekOffsetOf2024 | libs/utils/nx-calendar-heatmap-utils/src/lib/utils/calendar/calendar.spec.ts:101-115 | 2024-12-31 is followed by five padding days |
| Calendar.LastWeekOffsetOf2025 | libs/utils/nx-calendar-heatmap-utils/src/lib/utils/calendar/calendar.spec.ts:117-134 | 2025-12-31 is followed by four padding days |
| Calendar.LastWeekOffsetOfYear2024 | libs/utils/nx-calendar-heatmap-utils/src/lib/utils/calendar/calendar.spec.ts:101-115 | the yearly period of 2024 ends with five padding days |
| Calendar.LastDayOfDecember | libs/utils/nx-calendar-heatmap-utils/src/lib/utils/calendar/calendar.spec.ts:136-152 | `endOf("month")` of December 1 is December 31 |
| Calendar.LastWeekOffsetOfDecember2024 | libs/utils/nx-calendar-heatmap-utils/src/lib/utils/calendar/calendar.spec.ts:136-152 | the monthly period of December 2024 ends with five padding days |
| Calendar.LastWeekOffsetOfDecember2025 | libs/utils/nx-calendar-heatmap-utils/src/lib/utils/calendar/calendar.spec.ts:154-173 | the monthly period of December 2025 ends with four padding days |
| Calendar.LastWeekOffsets2024 | libs/utils/nx-calendar-heatmap-utils/src/lib/utils/calendar/calendar.spec.ts:175-190 | the trailing paddings of the month ends of 2024 are `[4,3,0,5,2,0,4,1,6,3,1,5]` |
| Calendar.LastWeekOffsetOfMonth2024 | libs/utils/nx-calendar-heatmap-utils/src/lib/utils/calendar/calendar.spec.ts:175-190 | `endOf("month")` of `DateTime.local(2024, m, 1)` has the trailing padding of entry m-1 of that list |
| Levels.FirstIndex | libs/features/nx-angular-calendar-heatmap/src/lib/components/nx-calendar-heatmap/nx-calendar-heatmap.component.ts:148-151 | the search result is the first element satisfying the test, or the length when none does; every earlier element fails the test |
| Levels.FirstIndexUnique | libs/features/nx-angular-calendar-heatmap/src/lib/components/nx-calendar-heatmap/nx-calendar-heatmap.component.ts:142-145 | an index whose element passes and whose predecessors all fail is the search result |
| Levels.QuantileFrom | libs/features/nx-angular-calendar-heatmap/src/lib/components/nx-calendar-heatmap/nx-calendar-heatmap.component.ts:134-138 | 0 exactly when the value exceeds every bucket bound; otherwise j+1 for the first bucket j whose bound `min + step*(j+1)` the value does not exceed |
| Levels.DefaultLevel | libs/features/nx-angular-calendar-heatmap/src/lib/components/nx-calendar-heatmap/nx-calendar-heatmap.component.ts:148-152 | a non-empty table falls back to its first `isDefault` entry, else its first entry; only an empty table has no entry |
| Levels.Classify | libs/features/nx-angular-calendar-heatmap/src/lib/components/nx-calendar-heatmap/nx-calendar-heatmap.component.ts:128-153 | empty table: undefined and 0 are level 0 and any level is at most `levels`; non-empty table: the result is always some entry's class |
| Levels.QuantileLevel | libs/features/nx-angular-calendar-heatmap/src/lib/components/nx-calendar-heatmap/nx-calendar-heatmap.component.ts:132-137 | a non-zero value gets level j+1 if and only if j is the first bucket whose bound it does not exceed |
| Levels.AboveRangeIsLevelZero | libs/features/nx-angular-calendar-heatmap/src/lib/components/nx-calendar-heatmap/nx-calendar-heatmap.component.ts:138 | a value above `min + step*levels` falls through the loop to level 0 |
| Levels.TableMatch | libs/features/nx-angular-calendar-heatmap/src/lib/components/nx-calendar-heatmap/nx-calendar-heatmap.component.ts:141-145 | the first entry with truthy bounds containing the value wins, whatever follows it |
| Levels.TableFallback | libs/features/nx-angular-calendar-heatmap/src/lib/components/nx-calendar-heatmap/nx-calendar-heatmap.component.ts:148-152 | with no containing entry, or no value, the default entry's class is returned |
| Levels.ZeroBoundIsSkipped | libs/features/nx-angular-calendar-heatmap/src/lib/components/nx-calendar-heatmap/nx-calendar-heatmap.component.ts:143 | an entry with `min: 0` is skipped even though it contains the value |
| Levels.HeatmapClassName | libs/features/nx-angular-calendar-heatmap/src/lib/components/nx-calendar-heatmap/nx-calendar-heatmap.component.ts:129-138 | a quantile level is `clickable level-n` with a click handler and ` level-n` without one; a table entry's class is used as it is |
| Levels.LegendClassName | libs/features/nx-angular-calendar-heatmap/src/lib/components/nx-calendar-legend/nx-calendar-legend.component.ts:51-56 | the legend names a quantile level `level-n`, with no prefix |
| Levels.ClassNamesAgree | libs/features/nx-react-calendar-heatmap/src/lib/components/heatmap-legend.tsx:41-75 | the heatmap and legend copies differ only in the prefix; distinct quantile levels get distinct names |
| Levels.ScanLevel | libs/features/nx-angular-calendar-heatmap/src/lib/components/nx-calendar-heatmap/nx-calendar-heatmap.component.ts:128-153 | the early-return loops (bucket loop, table loop, default search) compute exactly `Classify` |
| Levels.EmptyDayClass | libs/features/nx-angular-calendar-heatmap/src/lib/components/nx-calendar-heatmap/nx-calendar-heatmap.component.ts:155-160 | a padding cell gets the first `isDefault` entry's class, else `level-0` even when the table is non-empty |
| Levels.GeneratedLevels | libs/features/nx-angular-calendar-heatmap/src/lib/components/nx-calendar-legend/nx-calendar-legend.component.ts:40-45 | `levels` entries (none for a negative count), entry i spanning `i*step` to `i*step` and named `level-i` |
| Levels.LevelMap | libs/features/nx-angular-calendar-heatmap/src/lib/components/nx-calendar-legend/nx-calendar-legend.component.ts:36-47 | the caller's table when it is non-empty, otherwise the generated levels |
| Levels.GeneratedNamesDistinct | libs/features/nx-angular-calendar-heatmap/src/lib/components/nx-calendar-legend/nx-calendar-legend.component.ts:44 | generated levels have pairwise distinct class names |
| Levels.MultipleOfStep | libs/features/nx-angular-calendar-heatmap/src/lib/components/nx-calendar-legend/nx-calendar-legend.component.ts:50-56 | with min 0 and a positive step, `i*step` falls in bucket i |
| Levels.GeneratedLevelClassifiesToItself | libs/features/nx-angular-calendar-heatmap/src/lib/components/nx-calendar-legend/nx-calendar-legend.component.ts:40-56 | a generated level classified by its own `min` gets its own name `level-i` |
| TooltipContent.DayText | libs/utils/nx-calendar-heatmap-utils/src/lib/utils/tippy/day-tippy.utils.ts:60-67 | the text is lead, unit, the `on` label and the date formatted with `dateFormat ?? "MMMM d"`, separated by single spaces |
| TooltipContent.DayContent | libs/utils/nx-calendar-heatmap-utils/src/lib/utils/tippy/day-tippy.utils.ts:47-72 | null if and only if the tooltip is off, or the day has no count and no no-data label; otherwise the formatter with `unit ?? "contributions"`, the bold count or the no-data text |
| TooltipContent.LevelContent | libs/utils/nx-calendar-heatmap-utils/src/lib/utils/tippy/levels-tippy.utils.ts:50-66 | shown exactly when the tooltip is on; the legend formatter wins; otherwise `min: v unit` for a single value and `min: a - max: b` without the unit |
| TooltipContent.LegacyDayContent | libs/utils/nx-calendar-heatmap-utils/src/lib/utils/tippy.utils.ts:80-105 | null if and only if `showTooltip` is off, or the day has no count and no no-data label |
| TooltipContent.LegacyLevelContent | libs/utils/nx-calendar-heatmap-utils/src/lib/utils/levels-tippy.utils.ts:49-65 | shown exactly when `showTooltip` is set |
| TooltipContent.Modernize | libs/utils/nx-calendar-heatmap-utils/src/lib/models/calendar-heatmap.ts:56-66 | the flat tooltip options moved into `tooltip`, and `heatmapLevels` into `heatmapLegend` |
| TooltipContent.LegacyContentIsModernized | libs/utils/nx-calendar-heatmap-utils/src/lib/utils/day-tippy.utils.ts:46-71 | the older day and level texts are the current ones computed from the options with the flat settings moved to their nested places |
| TippyPool.Spread | libs/utils/nx-calendar-heatmap-utils/src/lib/utils/tippy/tippy.utils.ts:27-31 | an object spread has both key sets, the later object winning |
| TippyPool.SingletonProps | libs/utils/nx-calendar-heatmap-utils/src/lib/utils/tippy/tippy.utils.ts:27-31 | the singleton gets `moveTransition`/`allowHTML`, with the caller's `tippyProps` spread after them |
| TippyPool.InstanceProps | libs/utils/nx-calendar-heatmap-utils/src/lib/utils/tippy/day-tippy.utils.ts:26-29 | a new instance gets the content and every caller prop, a caller `content` replacing the text |
| TippyPool.SetContent | libs/utils/nx-calendar-heatmap-utils/src/lib/utils/tippy/day-tippy.utils.ts:20 | only the instance's content changes |
| TippyPool.Values | libs/utils/nx-calendar-heatmap-utils/src/lib/utils/tippy/tippy.utils.ts:24 | `Array.from(map.values())` lists the pooled instances in key insertion order |
| TippyPool.DestroyAll | libs/utils/nx-calendar-heatmap-utils/src/lib/utils/tippy/tippy.utils.ts:50 | the doomed instances are marked destroyed, keeping element and props; the others are untouched |
| TippyPool.AddKeepsShape | libs/utils/nx-calendar-heatmap-utils/src/lib/utils/tippy/day-tippy.utils.ts:22-35 | adding an instance for a new target to the map and refreshing the singleton keeps the invariant "singleton list = pool values in order" |
| TippyPool.ValuesAppend | libs/utils/nx-calendar-heatmap-utils/src/lib/utils/tippy/day-tippy.utils.ts:33-35 | after adding a new key, the values are the old values plus the new instance |
| TippyPool.TippyUtils.constructor | libs/utils/nx-calendar-heatmap-utils/src/lib/utils/tippy/tippy.utils.ts:11-14 | the helper starts with an empty pool and no singleton; caller props go into the singleton and every instance |
| TippyPool.TippyUtils.Legacy | libs/utils/nx-calendar-heatmap-utils/src/lib/utils/tippy.utils.ts:29-36 | the older helper creates its singleton with `overrides: []`, `moveTransition` and `allowHTML` only, and its instances with their content only |
| TippyPool.TippyUtils.Init | libs/utils/nx-calendar-heatmap-utils/src/lib/utils/tippy/tippy.utils.ts:19-38 | the pool is emptied; an existing singleton is reused with an empty list, otherwise one is created; afterwards a singleton exists |
| TippyPool.TippyUtils.Reset | libs/utils/nx-calendar-heatmap-utils/src/lib/utils/tippy/tippy.utils.ts:40-43 | pool and singleton list emptied; the singleton is neither destroyed, replaced nor created |
| TippyPool.TippyUtils.Destroy | libs/utils/nx-calendar-heatmap-utils/src/lib/utils/tippy/tippy.utils.ts:48-51 | the singleton and every pooled instance are destroyed; the pool keeps its entries and the field keeps the singleton |
| TippyPool.DestroyPooled | libs/utils/nx-calendar-heatmap-utils/src/lib/utils/tippy/tippy.utils.ts:50 | the `forEach` loop destroys exactly the pooled instances |
| TippyPool.TippyUtils.LazyLoad | libs/utils/nx-calendar-heatmap-utils/src/lib/utils/tippy/day-tippy.utils.ts:12-39 | no singleton or empty content: nothing changes; pooled target: only its content; new target: one instance appended to pool and singleton list |
| TippyPool.TippyUtils.ReplaceContent | libs/utils/nx-calendar-heatmap-utils/src/lib/utils/tippy/day-tippy.utils.ts:17-20 | only the pooled instance's content changes; keys and singleton list stay |
| TippyPool.TippyUtils.AddInstance | libs/utils/nx-calendar-heatmap-utils/src/lib/utils/tippy/day-tippy.utils.ts:21-35 | exactly one entry is added, created with the content and caller props, and the singleton list becomes the pool values |
| TippyPool.TippyUtils.LazyLoadDay | libs/utils/nx-calendar-heatmap-utils/src/lib/utils/tippy/day-tippy.utils.ts:12-39 | the day tooltip's `lazyLoadTooltip` is the pool step on the day's content |
| TippyPool.TippyUtils.LazyLoadLevel | libs/utils/nx-calendar-heatmap-utils/src/lib/utils/tippy/levels-tippy.utils.ts:12-42 | the level tooltip's `lazyLoadTooltip` is the pool step on the level's content |
| TippyPool.TippyUtils.LegacyLazyLoadDay | libs/utils/nx-calendar-heatmap-utils/src/lib/utils/day-tippy.utils.ts:12-38 | the older day `lazyLoadTooltip` is the pool step on the `showTooltip`-gated content |
| TippyPool.TippyUtils.LegacyLazyLoadLevel | libs/utils/nx-calendar-heatmap-utils/src/lib/utils/levels-tippy.utils.ts:12-41 | the older level `lazyLoadTooltip` is the pool step on the older level content |
| Options.EnglishLabels | libs/features/nx-angular-calendar-heatmap/src/lib/components/nx-calendar-heatmap/nx-calendar-heatmap.component.ts:29-38 | the default labels: English weekdays, "on", "less", "more", "No", "min", "max" |
| Options.Defaults | libs/features/nx-angular-calendar-heatmap/src/lib/components/nx-calendar-heatmap/nx-calendar-heatmap.component.ts:15-39 | yearly from the start of the year, locale "en", tooltip on with unit "contribution" and format "MMMM d", placement "top", legend on the right |
| Options.AngularDefaults | libs/features/nx-angular-calendar-heatmap/src/lib/components/nx-calendar-heatmap/nx-calendar-heatmap.component.ts:29-31 | the Angular defaults carry an empty month list |
| Options.ReactDefaults | libs/features/nx-react-calendar-heatmap/src/lib/components/CalendarHeatmap.tsx:58-86 | the React defaults are the same but without a month list |
| Options.ShallowMerge | libs/features/nx-angular-calendar-heatmap/src/lib/components/nx-calendar-heatmap/nx-calendar-heatmap.component.ts:68 | for each of the seventeen top-level properties, the caller's value replaces the default's as a whole when given (nested objects included) and the default's is kept otherwise |
| Options.MergeLocale | libs/features/nx-react-calendar-heatmap/src/lib/components/CalendarHeatmap.tsx:93-96 | each of the eight labels is the caller's when the caller gives it and the default's otherwise; either object absent gives the other |
| Options.MergeLegend | libs/features/nx-react-calendar-heatmap/src/lib/components/CalendarHeatmap.tsx:97-100 | `display`, `direction` and `tooltipFormatter` are each the caller's when given and the default's otherwise; either object absent gives the other |
| Options.MergeTooltip | libs/features/nx-react-calendar-heatmap/src/lib/components/CalendarHeatmap.tsx:101-104 | `display`, `unit`, `dateFormat` and `tooltipFormatter` are each the caller's when given and the default's otherwise; either object absent gives the other |
| Options.DeepMerge | libs/features/nx-react-calendar-heatmap/src/lib/components/CalendarHeatmap.tsx:89-107 | `i18n`, `heatmapLegend` and `tooltip` are always present and merged per field; every other property is as in the shallow merge |
| Options.ShallowMergeLaws | libs/features/nx-angular-calendar-heatmap/src/lib/components/nx-calendar-heatmap/nx-calendar-heatmap.component.ts:68 | merging nothing keeps the defaults, merging over nothing gives the options, merging twice is merging once |
| Options.MergesAgreeWithoutNestedOptions | libs/features/nx-react-calendar-heatmap/src/lib/components/CalendarHeatmap.tsx:89-107 | without nested caller groups both merges agree, and the React merge of no options is the defaults |
| Options.ShallowMergeDropsNoDataLabel | libs/features/nx-angular-calendar-heatmap/src/lib/components/nx-calendar-heatmap/nx-calendar-heatmap.component.ts:68 | a caller `i18n` with only `on` loses the no-data label under the Angular merge (no tooltip for an empty day) but not under the React merge |
| Options.LegendDisplayUnderMerges | libs/features/nx-react-calendar-heatmap/src/lib/components/CalendarHeatmap.tsx:97-100 | a caller legend without `display` hides the legend under the shallow merge and keeps it under the React merge |
| Options.LevelCount | libs/features/nx-angular-calendar-heatmap/src/lib/components/nx-calendar-heatmap/nx-calendar-heatmap.component.ts:94 | the table length, or 5 without a table; always at least 1 |
| Options.Step | libs/features/nx-angular-calendar-heatmap/src/lib/components/nx-calendar-heatmap/nx-calendar-heatmap.component.ts:95-96 | the bucket width is positive |
| Options.StepFillsRange | libs/features/nx-angular-calendar-heatmap/src/lib/components/nx-calendar-heatmap/nx-calendar-heatmap.component.ts:95-96 | `levels` buckets of that width fill the range 100 exactly |
| Options.PeriodEnd | libs/features/nx-angular-calendar-heatmap/src/lib/components/nx-calendar-heatmap/nx-calendar-heatmap.component.ts:98-111 | the end never precedes the start; weekly is six days after it |
| Options.PeriodEndIsLastDay | libs/features/nx-angular-calendar-heatmap/src/lib/components/nx-calendar-heatmap/nx-calendar-heatmap.component.ts:101-111 | monthly ends on the last day of the start's month, yearly on December 31 of its year |
| Options.PaddingCellSize | libs/features/nx-angular-calendar-heatmap/src/lib/components/nx-calendar-heatmap/nx-calendar-heatmap.component.ts:89-90 | `cellSize || 15`: 0 and absent both give 15 |
| Options.EmptyCellStyle | libs/features/nx-angular-calendar-heatmap/src/lib/components/nx-calendar-heatmap/nx-calendar-heatmap.component.ts:88-92 | height and width from the padding size, with caller overrides winning |
| Options.ZeroCellSizeDiffers | libs/features/nx-react-calendar-heatmap/src/lib/components/CalendarHeatmap.tsx:199-203 | with `cellSize: 0` a padding cell is 15px high while a data cell is 0px high |
| Options.Localized | libs/features/nx-angular-calendar-heatmap/src/lib/components/nx-calendar-heatmap/nx-calendar-heatmap.component.ts:81-86 | with `i18n`, only its months and weekdays change, to the localized lists; without it nothing changes |
| Options.LocalizedKeepsTooltips | libs/features/nx-angular-calendar-heatmap/src/lib/components/nx-calendar-heatmap/nx-calendar-heatmap.component.ts:81-86 | localizing the labels changes no day or level tooltip |
| Options.PaddedPeriodFillsWeeks | libs/features/nx-angular-calendar-heatmap/src/lib/components/nx-calendar-heatmap/nx-calendar-heatmap.component.ts:113-118 | for a monthly or yearly period the padding and the days fill whole weeks, each day in its weekday's row |
| Angular.NxHeatmapCalendar.constructor | libs/features/nx-angular-calendar-heatmap/src/lib/components/nx-calendar-heatmap/nx-calendar-heatmap.component.ts:48-65 | five levels, all numbers 0, no padding, utility over the defaults, no tooltip helper |
| Angular.NxHeatmapCalendar.UpdateHeatmapData | libs/features/nx-angular-calendar-heatmap/src/lib/components/nx-calendar-heatmap/nx-calendar-heatmap.component.ts:78-119 | utility rebuilt over the merged options, labels localized, padding style, level count and step set; padding recomputed only when not weekly |
| Angular.NxHeatmapCalendar.NgOnInit | libs/features/nx-angular-calendar-heatmap/src/lib/components/nx-calendar-heatmap/nx-calendar-heatmap.component.ts:67-72 | options shallow-merged over the defaults; the merged options have a type and a start date; padding style, level count, range 100 and step set from them, `min` and `max` kept, padding recomputed unless weekly (`PaddingUpdated`); a fresh initialised tooltip helper over the localized options |
| Angular.NxHeatmapCalendar.CreateTooltips | libs/features/nx-angular-calendar-heatmap/src/lib/components/nx-calendar-heatmap/nx-calendar-heatmap.component.ts:70-71 | the new helper has an empty pool and a fresh singleton; no other field changes |
| Angular.NxHeatmapCalendar.NgOnDestroy | libs/features/nx-angular-calendar-heatmap/src/lib/components/nx-calendar-heatmap/nx-calendar-heatmap.component.ts:74-76 | the helper, if any, is destroyed as `destroy` does |
| Angular.NxHeatmapCalendar.GetGridPosition | libs/features/nx-angular-calendar-heatmap/src/lib/components/nx-calendar-heatmap/nx-calendar-heatmap.component.ts:121-126 | a day is placed after the stored leading padding, by the utility's options |
| Angular.NxHeatmapCalendar.GetDayClass | libs/features/nx-angular-calendar-heatmap/src/lib/components/nx-calendar-heatmap/nx-calendar-heatmap.component.ts:128-153 | the shared classification, `clickable` prefix iff `onClick` is set |
| Angular.NxHeatmapCalendar.GetEmptyDayClass | libs/features/nx-angular-calendar-heatmap/src/lib/components/nx-calendar-heatmap/nx-calendar-heatmap.component.ts:155-160 | the shared padding-cell class of the merged table |
| Angular.NxHeatmapCalendar.OnDayMouseOver | libs/features/nx-angular-calendar-heatmap/src/lib/components/nx-calendar-heatmap/nx-calendar-heatmap.component.ts:166-168 | the day tooltip is lazily loaded once the helper exists |
| Angular.NxHeatmapCalendarLegend.constructor | libs/features/nx-angular-calendar-heatmap/src/lib/components/nx-calendar-legend/nx-calendar-legend.component.ts:16-24 | input defaults min 0, max 100, range 100, step 20, five levels |
| Angular.NxHeatmapCalendarLegend.UpdateLevelMap | libs/features/nx-angular-calendar-heatmap/src/lib/components/nx-calendar-legend/nx-calendar-legend.component.ts:36-47 | the level list is the caller's table or generated entries marked `isDefault: false`; nothing else changes |
| Angular.NxHeatmapCalendarLegend.NgOnInit | libs/features/nx-angular-calendar-heatmap/src/lib/components/nx-calendar-legend/nx-calendar-legend.component.ts:26-30 | level list built, then a fresh initialised level-tooltip helper over the options |
| Angular.NxHeatmapCalendarLegend.NgOnDestroy | libs/features/nx-angular-calendar-heatmap/src/lib/components/nx-calendar-legend/nx-calendar-legend.component.ts:32-34 | the helper, if any, is destroyed |
| Angular.NxHeatmapCalendarLegend.GetDayClass | libs/features/nx-angular-calendar-heatmap/src/lib/components/nx-calendar-legend/nx-calendar-legend.component.ts:49-70 | the shared classification without any prefix |
| Angular.NxHeatmapCalendarLegend.OnMouseOver | libs/features/nx-angular-calendar-heatmap/src/lib/components/nx-calendar-legend/nx-calendar-legend.component.ts:72-74 | the level tooltip is lazily loaded once the helper exists |
| Angular.LegendCellsMatchHeatmap | libs/features/nx-angular-calendar-heatmap/src/lib/components/nx-calendar-legend/nx-calendar-legend.component.ts:40-57 | with the heatmap's level count and step, each generated legend cell classifies to its own name |
| React.PeriodEffect | libs/features/nx-react-calendar-heatmap/src/lib/components/CalendarHeatmap.tsx:198-240 | level count, min 0, max 100, range 100, padding style set; the step uses the render's stale `levels`; padding recomputed only when not weekly |
| React.Settle | libs/features/nx-react-calendar-heatmap/src/lib/components/CalendarHeatmap.tsx:240 | with props whose identity is stable across renders, the re-run on `levels` settles on the first run's state with the step of the new count, a fixed point of the effect |
| React.PeriodEffectIgnoresLabels | libs/features/nx-react-calendar-heatmap/src/lib/components/CalendarHeatmap.tsx:242-247 | writing the localized labels does not change what the period effect sets |
| React.MergedOptionsHavePeriod | libs/features/nx-react-calendar-heatmap/src/lib/components/CalendarHeatmap.tsx:89-107 | the merged options always have a type and a start date |
| React.MountedLabels | libs/features/nx-react-calendar-heatmap/src/lib/components/CalendarHeatmap.tsx:169-176 | `updateCalendarLabels` always writes twelve month names and seven weekday names, keeping the other labels |
| React.GetDayClass | libs/features/nx-react-calendar-heatmap/src/lib/components/CalendarHeatmap.tsx:121-158 | the shared classification in the current state, `clickable` prefix iff `onClick` is set |
| React.GetLegendDayClass | libs/features/nx-react-calendar-heatmap/src/lib/components/heatmap-legend.tsx:41-75 | the shared classification with the level props, without a prefix |
| React.PaddingButtons | libs/features/nx-react-calendar-heatmap/src/lib/components/CalendarHeatmap.tsx:296-306 | one button per padding day, with the empty-day class and the padding style |
| React.DataButtons | libs/features/nx-react-calendar-heatmap/src/lib/components/CalendarHeatmap.tsx:309-319 | button i shows data day i, with its count's class and grid position i after the leading padding |
| React.RenderedDaysInOrder | libs/features/nx-react-calendar-heatmap/src/lib/components/CalendarHeatmap.tsx:296-332 | leading padding, data, trailing padding, in that order; only the data when `hideEmptyDays` is truthy |
| React.HidingKeepsDataButtons | libs/features/nx-react-calendar-heatmap/src/lib/components/CalendarHeatmap.tsx:296-332 | hiding the empty days removes exactly the two padding runs |
| React.DaysSitInWeekdayRows | libs/features/nx-react-calendar-heatmap/src/lib/components/CalendarHeatmap.tsx:111-119 | with the period's leading padding and day-by-day data, the button of data day k shows that day in the `gridRow` of its weekday |
| React.GridRowIsWeekday | libs/utils/nx-calendar-heatmap-utils/src/lib/utils/calendar/calendar.utils.ts:126 | with the start date's leading padding as offset, the `gridRow` of day k in a monthly or yearly grid is that day's weekday |
| React.DefaultLayout | libs/features/nx-react-calendar-heatmap/src/lib/components/calendar-heatmap.tsx:41-68 | the older heatmap's utility options are yearly, with no cell size or overrides |
| React.OlderGridIgnoresCallerLayout | libs/features/nx-react-calendar-heatmap/src/lib/components/calendar-heatmap.tsx:129-137 | placing by `ReactDefaults`, as the utility built at line 68 does, puts a weekly calendar's second day in row 2 at 15px, where the merged options give row 1 at the caller's 20px |
| React.DirectionClass | libs/features/nx-react-calendar-heatmap/src/lib/components/heatmap-legend.tsx:96-99 | "left" if and only if the legend direction is left, otherwise "right" |
| React.LevelCellStyle | libs/features/nx-react-calendar-heatmap/src/lib/components/heatmap-legend.tsx:107-110 | width and height are `(cellSize || 15) - 2` px |
| React.DefaultLevelCellSize | libs/features/nx-react-calendar-heatmap/src/lib/components/heatmap-legend.tsx:107-110 | without a size, or with 0, a legend cell is 13px |
| React.Legend | libs/features/nx-react-calendar-heatmap/src/lib/components/heatmap-legend.tsx:95-115 | container class by direction; one button per level of the level map, classified by its own `min` |
| React.LegendButtonsNameTheirLevels | libs/features/nx-react-calendar-heatmap/src/lib/components/heatmap-legend.tsx:103-106 | without a table and with a positive step, button i is `level-i` |
| React.GeneratedLegendButton | libs/features/nx-react-calendar-heatmap/src/lib/components/heatmap-legend.tsx:32-36 | without a table button i shows generated level i |
| React.LegendShowsTable | libs/features/nx-react-calendar-heatmap/src/lib/components/heatmap-legend.tsx:28-31 | with a table the buttons show its entries in order, each with some entry's class |
| React.DefaultLegendNamesLevels | libs/features/nx-react-calendar-heatmap/src/lib/components/heatmap-legend.tsx:17-24 | the prop defaults (step 100, five levels) give buttons `level-0` to `level-4` starting at `100*i` |
| React.Render | libs/features/nx-react-calendar-heatmap/src/lib/components/CalendarHeatmap.tsx:339-356 | the rendered days, and the legend with the heatmap's levels, min and step exactly when `heatmapLegend.display` is truthy |
| React.TableRenderIgnoresStep | libs/features/nx-react-calendar-heatmap/src/lib/components/CalendarHeatmap.tsx:121-158 | with a table no part of the render reads the step |
| React.TableDaysIgnoreStep | libs/features/nx-react-calendar-heatmap/src/lib/components/CalendarHeatmap.tsx:139-155 | with a table the day buttons do not depend on the step |
| React.TableLegendIgnoresStep | libs/features/nx-react-calendar-heatmap/src/lib/components/heatmap-legend.tsx:56-72 | with a table the legend does not depend on the step |
| React.StaleStepIsInvisible | libs/features/nx-react-calendar-heatmap/src/lib/components/CalendarHeatmap.tsx:215 | the render after the effect's first run equals the settled render despite the stale step |
| React.SettledLegendNamesLevels | libs/features/nx-react-calendar-heatmap/src/lib/components/CalendarHeatmap.tsx:346-353 | in the settled state without a table the legend names its levels `level-0` to `level-4` in order |
| React.MountTooltips | libs/features/nx-react-calendar-heatmap/src/lib/components/CalendarHeatmap.tsx:48-56 | a fresh helper over the given options, initialised: empty pool and a new singleton |
| React.OlderDayMouseOver | libs/features/nx-react-calendar-heatmap/src/lib/components/calendar-heatmap.tsx:36-39 | a helper built from the unmerged options and never initialised loads no tooltip on hover |

## Left out

- Luxon itself is not reimplemented. Locale data, `toFormat` and number printing are parameters (`DateLib`), and dates carry no time of day or time zone. So `endOf("month")` is the last day, not its last millisecond.
- IEEE-754 rounding of `100 / levels` and `min + step * (i + 1)` is not modelled; numbers are exact reals.
- Time and randomness are inputs. `DateTime.now()` is a `now: Date` parameter, and the load time of the Angular module is a constructor parameter.
- tippy.js internals are not modelled: placement, animation and the DOM. Elements and instances are opaque handles.
- React hook scheduling is modelled only in two places: the re-run of the period effect on `levels` (`React.Settle`) and the labels effect. The effect order and the stale closures beyond that are not modelled, including the `let tippyUtils` that the hover handler captures before the mount effect assigns it. The first render, which uses the initial state before any effect runs, is not a lemma.
- The JSX label headers, the footer content, the monthly header and CSS beyond the inline styles are not modelled. Whether `onClick` is present is modelled; the callback itself is a foreign call.
- Cell sizes are integers. A fractional `cellSize` would print differently.
- `mergedOptions.i18n` is mutated in place in the source. The model treats it as a value (`Options.Localized`), so it does not capture aliasing with the caller's `i18n` object.
- Angular.NxHeatmapCalendar.NgOnInit: without a caller `i18n`, the shallow merge (nx-calendar-heatmap.component.ts:68) shares the module-level `defaultOptions.i18n` object (lines 29-38). `updateHeatmapData` then writes months and weekdays into it (lines 81-86). So every Angular heatmap on a page shares one label object, and the last one to initialise sets the labels of all of them. The model gives each component its own `mergedOptions` value and does not capture this sharing.
- React.Settle: it holds only when the `options` and `heatmapData` props keep their identity across renders. When either prop is omitted, its destructuring default (CalendarHeatmap.tsx:29-30, calendar-heatmap.tsx:19-20) is a new `{}` or `[]` on every render. Then `mergedOptions` and the effect's dependencies change on every render, and each run sets a fresh `emptyCellStyle` object, so by this reading the effect never settles. Renders are not modelled, so the model does not capture this loop.
- `CalendarHeatmap.tsx` imports its legend from `./HeatmapLegend`, which is not part of this model. The model uses `heatmap-legend.tsx` in its place.
- The order of the exports of the utility library is not modelled. The components are assumed to use the current tooltip generation.
- Both heatmaps throw when the merged options lack a type or a start date. `Angular.NxHeatmapCalendar.UpdateHeatmapData` and `React.PeriodEffect` require them instead. Both merges always provide them from the defaults (`React.MergedOptionsHavePeriod`) unless a caller passes an explicit empty value, which is modelled as absent.
- `Init` empties the pool without destroying the instances it drops. The model keeps those instances in `tooltips` unchanged, so the leak is visible, but no lemma states it.
- TooltipContent.LegacyDayContent: its own ensures gives only the null condition. The full text follows from `TooltipContent.LegacyContentIsModernized`.
- TooltipContent.LegacyLevelContent: its own ensures gives only the null condition. The full text follows from `TooltipContent.LegacyContentIsModernized`.
- `reset` exists only in the current generation, so the older helper's `Reset` is not used.
- Angular.NxHeatmapCalendar.UpdateHeatmapData: its padding clause (`PaddingUpdated`) states only the padding equalities. The whole-week and weekday-row properties are the value lemma `Options.PaddedPeriodFillsWeeks`.
- React.PeriodEffect: it requires a state with at least one level, as every reachable state has (5 initially, then `LevelCount`). A zero count would make the source divide by zero, giving `Infinity`.
- The empty Angular wrapper component, the demo apps and the build configurations are not part of this model.
- The type file `calendar-heatmap.ts` shows only the older flat options. The nested `tooltip`, `heatmapLegend`, `tippyProps` and `overWritedDayStyle` options that the components read are modelled from their use in the components.
