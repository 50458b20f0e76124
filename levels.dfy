/** The level classifier every component copies (`getDayClass`, `getEmptyDayClass`) and the
    legend's level list (`updateLevelMap`). Without a colour table a value falls into one of
    `levels` equal buckets above `min`; with a table the first entry whose truthy bounds
    contain the value wins. */
module Levels {
  import opened Wrappers
  import opened Models
  import opened Text

  // ----- searching a sequence -----

  /** The index of the first element satisfying `p`, or `|s|` when there is none
      (`Array.prototype.find` and the early-return `for` loops). */
  function FirstIndex<T>(s: seq<T>, p: T -> bool): (k: nat)
    ensures k <= |s|
    ensures k < |s| ==> p(s[k])
    ensures forall j :: 0 <= j < k ==> !p(s[j])
  {
    if |s| == 0 then 0
    else if p(s[0]) then 0
    else 1 + FirstIndex(s[1..], p)
  }

  /** Any index satisfying `p` that every earlier element fails is the first index. */
  lemma {:induction false} FirstIndexUnique<T>(s: seq<T>, p: T -> bool, k: nat)
    requires k <= |s|
    requires k < |s| ==> p(s[k])
    requires forall j :: 0 <= j < k ==> !p(s[j])
    ensures FirstIndex(s, p) == k
  {
    if |s| > 0 && !p(s[0]) {
      FirstIndexUnique(s[1..], p, k - 1);
    }
  }

  // ----- the classification -----

  /** JavaScript truthiness of an optional number: `undefined` and `0` are falsy. */
  predicate Truthy(x: Option<real>) {
    x.Some? && x.value != 0.0
  }

  /** The table-mode test `color.min && color.max && value >= color.min && value <= color.max`. */
  predicate Contains(c: HeatmapColor, v: real) {
    Truthy(c.min) && Truthy(c.max) && c.min.value <= v <= c.max.value
  }

  /** `color.isDefault`, as a truthy test. */
  predicate MarkedDefault(c: HeatmapColor) {
    c.isDefault == Some(true)
  }

  /** The upper bound of quantile bucket `i`: `min + step * (i + 1)`. */
  function Bound(min: real, step: real, i: int): real {
    min + step * ((i + 1) as real)
  }

  /** The quantile loop from bucket `i` on: `j + 1` for the first bucket `j` whose bound `v`
      does not exceed, and 0 when `v` exceeds every bound. */
  function QuantileFrom(v: real, levels: int, min: real, step: real, i: nat): (n: nat)
    decreases levels - i
    ensures n == 0 <==> forall j :: i <= j < levels ==> v > Bound(min, step, j)
    ensures n != 0 ==> i < n <= levels && v <= Bound(min, step, n - 1)
    ensures forall j :: i <= j < n - 1 ==> v > Bound(min, step, j)
  {
    if i >= levels then 0
    else if v <= Bound(min, step, i) then i + 1
    else QuantileFrom(v, levels, min, step, i + 1)
  }

  /** The outcome of classifying a value: a quantile level, or a table entry's class. */
  datatype Level = Bucket(n: nat) | Entry(className: string)

  /** The table fallback `colors.find(c => c.isDefault) || colors[0]`: the first entry marked
      default, else the first entry; `Bucket(0)` only for an empty table. */
  function DefaultLevel(table: seq<HeatmapColor>): (l: Level)
    ensures |table| > 0 <==> l.Entry?
    ensures (exists k :: 0 <= k < |table| && MarkedDefault(table[k])) ==>
      l == Entry(table[FirstIndex(table, MarkedDefault)].className)
    ensures |table| > 0 && (forall k :: 0 <= k < |table| ==> !MarkedDefault(table[k])) ==>
      l == Entry(table[0].className)
  {
    var d := FirstIndex(table, MarkedDefault);
    if d < |table| then Entry(table[d].className)
    else if |table| > 0 then Entry(table[0].className)
    else Bucket(0)
  }

  /** The classification all `getDayClass` copies share, before it is rendered as a class
      name. With an empty table: `undefined` and 0 are level 0, other values the quantile
      bucket. With a table: the first containing entry, else the default entry. */
  function Classify(value: Option<real>, table: seq<HeatmapColor>, levels: int, min: real, step: real): (l: Level)
    ensures |table| == 0 ==> l.Bucket? && (l.n == 0 || l.n <= levels)
    ensures |table| == 0 && (value.None? || value == Some(0.0)) ==> l == Bucket(0)
    ensures |table| > 0 ==> l.Entry? && exists k :: 0 <= k < |table| && l.className == table[k].className
  {
    if |table| == 0 then
      if value.None? || value.value == 0.0 then Bucket(0)
      else Bucket(QuantileFrom(value.value, levels, min, step, 0))
    else
      var k := if value.Some? then FirstIndex(table, c => Contains(c, value.value)) else |table|;
      if k < |table| then Entry(table[k].className) else DefaultLevel(table)
  }

  /** Quantile mode: a non-zero value gets level `j + 1` exactly when `j` is the first bucket
      whose bound it does not exceed. */
  lemma QuantileLevel(v: real, levels: int, min: real, step: real, j: nat)
    requires v != 0.0 && j < levels
    ensures Classify(Some(v), [], levels, min, step) == Bucket(j + 1) <==>
      v <= Bound(min, step, j) && forall i :: 0 <= i < j ==> v > Bound(min, step, i)
  {
    var n := QuantileFrom(v, levels, min, step, 0);
    if v <= Bound(min, step, j) && forall i :: 0 <= i < j ==> v > Bound(min, step, i) {
      assert n != 0;
      assert v <= Bound(min, step, n - 1);
    }
  }

  /** Quantile mode: a value above every bucket is level 0, like a day without data. */
  lemma AboveRangeIsLevelZero(v: real, levels: int, min: real, step: real)
    requires step >= 0.0 && v > min + step * (levels as real)
    ensures Classify(Some(v), [], levels, min, step) == Bucket(0)
  {
    if v != 0.0 {
      forall j | 0 <= j < levels
        ensures v > Bound(min, step, j)
      {
        assert step * ((j + 1) as real) <= step * (levels as real) by {
          MulMonotone((j + 1) as real, levels as real, step);
        }
      }
    }
  }

  /** `a * s <= b * s` for `a <= b` and `s >= 0`. */
  lemma MulMonotone(a: real, b: real, s: real)
    requires a <= b && s >= 0.0
    ensures a * s <= b * s
  {
    assert b * s - a * s == (b - a) * s;
  }

  /** Table mode: entry `k` wins exactly when it is the first entry containing the value. */
  lemma TableMatch(v: real, table: seq<HeatmapColor>, levels: int, min: real, step: real, k: nat)
    requires k < |table| && Contains(table[k], v)
    requires forall j :: 0 <= j < k ==> !Contains(table[j], v)
    ensures Classify(Some(v), table, levels, min, step) == Entry(table[k].className)
  {
    FirstIndexUnique(table, c => Contains(c, v), k);
  }

  /** Table mode: with no containing entry (or no value) the result is the default entry. */
  lemma TableFallback(value: Option<real>, table: seq<HeatmapColor>, levels: int, min: real, step: real)
    requires |table| > 0
    requires value.Some? ==> forall j :: 0 <= j < |table| ==> !Contains(table[j], value.value)
    ensures Classify(value, table, levels, min, step) == DefaultLevel(table)
  {
    if value.Some? {
      FirstIndexUnique(table, c => Contains(c, value.value), |table|);
    }
  }

  /** An entry with a bound of 0 is skipped even when it contains the value. */
  lemma ZeroBoundIsSkipped()
    ensures Classify(Some(5.0), [HeatmapColor(Some(0.0), Some(10.0), None, "low"),
                                 HeatmapColor(Some(1.0), Some(10.0), None, "high")], 5, 0.0, 20.0)
      == Entry("high")
  {
    TableMatch(5.0, [HeatmapColor(Some(0.0), Some(10.0), None, "low"),
                     HeatmapColor(Some(1.0), Some(10.0), None, "high")], 5, 0.0, 20.0, 1);
  }

  // ----- rendering a level as a class name -----

  /** The calendar's class: a quantile level behind the `clickable` prefix (empty when there
      is no click handler), a table entry's class as it is. */
  function HeatmapClassName(l: Level, clickable: bool): (s: string)
    ensures l.Entry? ==> s == l.className
    ensures l.Bucket? && clickable ==> s == "clickable level-" + NatText(l.n)
    ensures l.Bucket? && !clickable ==> s == " level-" + NatText(l.n)
  {
    match l
    case Bucket(n) => (if clickable then "clickable" else "") + " level-" + NatText(n)
    case Entry(c) => c
  }

  /** The legend's class: the same levels without any prefix. */
  function LegendClassName(l: Level): (s: string)
    ensures l.Entry? ==> s == l.className
    ensures l.Bucket? ==> s == "level-" + NatText(l.n)
  {
    match l
    case Bucket(n) => "level-" + NatText(n)
    case Entry(c) => c
  }

  /** The calendar's and the legend's renderings differ only in the prefix before a quantile
      level; distinct quantile levels render differently. */
  lemma ClassNamesAgree(l: Level, l': Level, clickable: bool)
    ensures l.Bucket? ==>
      HeatmapClassName(l, clickable) == (if clickable then "clickable" else "") + " " + LegendClassName(l)
    ensures l.Entry? ==> HeatmapClassName(l, clickable) == LegendClassName(l)
    ensures l.Bucket? && l'.Bucket? && l.n != l'.n ==> LegendClassName(l) != LegendClassName(l')
  {
    if l.Bucket? && l'.Bucket? {
      PrefixedNatInjective("level-", l.n, l'.n);
    }
  }

  /** The loops every `getDayClass` copy runs, producing the classification. */
  method ScanLevel(value: Option<real>, table: seq<HeatmapColor>, levels: int, min: real, step: real)
      returns (l: Level)
    ensures l == Classify(value, table, levels, min, step)
  {
    if |table| == 0 {
      if value.None? || value.value == 0.0 {
        return Bucket(0);
      }
      var v := value.value;
      var i := 0;
      while i < levels
        invariant 0 <= i
        invariant i <= levels || i == 0
        invariant forall j :: 0 <= j < i ==> v > Bound(min, step, j)
      {
        if v <= min + step * ((i + 1) as real) {
          QuantileLevel(v, levels, min, step, i);
          return Bucket(i + 1);
        }
        i := i + 1;
      }
      return Bucket(0);
    }
    if value.Some? {
      var v := value.value;
      for k := 0 to |table|
        invariant forall j :: 0 <= j < k ==> !Contains(table[j], v)
      {
        var color := table[k];
        if Truthy(color.min) && Truthy(color.max) && v >= color.min.value && v <= color.max.value {
          TableMatch(v, table, levels, min, step, k);
          return Entry(color.className);
        }
      }
    }
    TableFallback(value, table, levels, min, step);
    var d := 0;
    while d < |table| && !MarkedDefault(table[d])
      invariant d <= |table|
      invariant forall j :: 0 <= j < d ==> !MarkedDefault(table[j])
    {
      d := d + 1;
    }
    FirstIndexUnique(table, MarkedDefault, d);
    if d < |table| {
      l := Entry(table[d].className);
    } else {
      l := Entry(table[0].className);
    }
  }

  /** `getEmptyDayClass`: the class of a padding cell is the first entry marked default, and
      otherwise `level-0`; unlike `getDayClass` it never falls back to the first entry. */
  function EmptyDayClass(table: seq<HeatmapColor>): (s: string)
    ensures (exists k :: 0 <= k < |table| && MarkedDefault(table[k])) ==>
      s == table[FirstIndex(table, MarkedDefault)].className
    ensures (forall k :: 0 <= k < |table| ==> !MarkedDefault(table[k])) ==> s == "level-0"
  {
    var d := FirstIndex(table, MarkedDefault);
    if d < |table| then table[d].className else "level-0"
  }

  // ----- the legend's level list -----

  /** `Array.from({ length: levels }, ...)`: entry `i` spans `i * step` to `i * step` and is
      named `level-i` (`GeneratedLevel`). The Angular legend marks every entry `isDefault: false`, the React
      legend leaves the flag out. */
  function GeneratedLevels(levels: int, step: real, isDefault: Option<bool>): (colors: seq<HeatmapColor>)
    ensures |colors| == if levels < 0 then 0 else levels
    ensures forall i: nat :: i < |colors| ==> colors[i] == GeneratedLevel(i, step, isDefault)
  {
    var n := if levels < 0 then 0 else levels;
    seq(n, i requires 0 <= i < n => GeneratedLevel(i, step, isDefault))
  }

  /** Generated legend level `i`. */
  function GeneratedLevel(i: nat, step: real, isDefault: Option<bool>): HeatmapColor {
    HeatmapColor(Some((i as real) * step), Some((i as real) * step), isDefault, "level-" + NatText(i))
  }

  /** `updateLevelMap`: the caller's table when it is non-empty, otherwise generated levels. */
  function LevelMap(colors: Option<seq<HeatmapColor>>, levels: int, step: real, isDefault: Option<bool>)
      : (list: seq<HeatmapColor>)
    ensures colors.Some? && |colors.value| > 0 ==> list == colors.value
    ensures colors.None? || |colors.value| == 0 ==> list == GeneratedLevels(levels, step, isDefault)
  {
    if colors.Some? && |colors.value| > 0 then colors.value else GeneratedLevels(levels, step, isDefault)
  }

  /** Generated levels have distinct class names. */
  lemma GeneratedNamesDistinct(levels: int, step: real, isDefault: Option<bool>, i: nat, j: nat)
    requires i < j < |GeneratedLevels(levels, step, isDefault)|
    ensures GeneratedLevels(levels, step, isDefault)[i].className
      != GeneratedLevels(levels, step, isDefault)[j].className
  {
    PrefixedNatInjective("level-", i, j);
  }

  /** In quantile mode with `min = 0` and a positive step, `i * step` is level `i`. */
  lemma MultipleOfStep(levels: int, step: real, i: nat)
    requires step > 0.0 && 0 < i <= levels
    ensures Classify(Some((i as real) * step), [], levels, 0.0, step) == Bucket(i)
  {
    var v := (i as real) * step;
    assert v == Bound(0.0, step, i - 1);
    StrictMulMonotone(0.0, i as real, step);
    forall j | 0 <= j < i - 1
      ensures v > Bound(0.0, step, j)
    {
      StrictMulMonotone((j + 1) as real, i as real, step);
    }
    QuantileLevel(v, levels, 0.0, step, i - 1);
  }

  /** A generated legend level, classified by its own lower bound with `min = 0` and a
      positive step, gets its own class name. */
  lemma GeneratedLevelClassifiesToItself(levels: int, step: real, isDefault: Option<bool>, i: nat)
    requires step > 0.0 && i < levels
    ensures var c := GeneratedLevels(levels, step, isDefault)[i];
      LegendClassName(Classify(c.min, [], levels, 0.0, step)) == c.className
  {
    var c := GeneratedLevels(levels, step, isDefault)[i];
    assert c == GeneratedLevel(i, step, isDefault);
    if i > 0 {
      MultipleOfStep(levels, step, i);
    }
  }

  /** `a * s < b * s` for `a < b` and `s > 0`. */
  lemma StrictMulMonotone(a: real, b: real, s: real)
    requires a < b && s > 0.0
    ensures a * s < b * s && s * a < s * b
  {
    assert b * s - a * s == (b - a) * s;
  }
}
