/** The tooltip pool shared by the day and legend tooltips (`TippyUtils` with its
    `DayTippyUtils` and `LevelsTippyUtils` subclasses), in both generations: the current
    one under `utils/tippy/` and the older flat one under `utils/`.

    tippy.js objects are opaque handles. The pool records, for each created tooltip, the
    element it is attached to, the props it was created with (content included) and whether
    it was destroyed; the singleton is a record of its instance list, its props and whether
    it was destroyed. `Map` insertion order, which `Array.from(map.values())` follows, is
    the `order` sequence of keys. */
module TippyPool {
  import opened Wrappers
  import opened Dates
  import opened Models
  import opened TooltipContent

  /** A DOM element a tooltip is attached to (`event.target`). */
  datatype Element = Element(id: nat)

  /** A tippy.js instance handle. */
  datatype Instance = Instance(id: nat)

  /** What a tippy.js instance holds: its element, its props and whether it was destroyed. */
  datatype Tooltip = Tooltip(target: Element, props: Props, destroyed: bool)

  /** A `createSingleton` instance: the list given to `setInstances`, its props, and
      whether it was destroyed. */
  datatype Singleton = Singleton(instances: seq<Instance>, props: Props, destroyed: bool)

  /** `{ ...base, ...over }`: the keys of both, the later object winning. */
  function Spread(base: Props, over: Props): (p: Props)
    ensures p.Keys == base.Keys + over.Keys
    ensures forall k :: k in over ==> p[k] == over[k]
    ensures forall k :: k in base && k !in over ==> p[k] == base[k]
  {
    base + over
  }

  /** The props the current `init` gives `createSingleton`. */
  const SingletonDefaults: Props :=
    map["moveTransition" := Text("transform 0.1s ease-out"), "allowHTML" := Flag(true)]

  /** The props the older `init` gives `createSingleton`; caller props are not used. */
  const LegacySingletonProps: Props :=
    map["overrides" := EmptyList, "moveTransition" := Text("transform 0.1s ease-out"),
        "allowHTML" := Flag(true)]

  /** The caller's `tippyProps`, spread after the singleton defaults. */
  function SingletonProps(tippyProps: Option<Props>): (p: Props)
    ensures tippyProps.None? ==> p == SingletonDefaults
    ensures tippyProps.Some? ==> p == Spread(SingletonDefaults, tippyProps.value)
  {
    Spread(SingletonDefaults, tippyProps.GetOr(map[]))
  }

  /** `{ content, ...tippyProps }`: the props of a new instance. A `content` key among the
      caller's props replaces the tooltip text. */
  function InstanceProps(content: string, tippyProps: Props): (p: Props)
    ensures p.Keys == {"content"} + tippyProps.Keys
    ensures "content" !in tippyProps ==> p["content"] == Text(content)
    ensures forall k :: k in tippyProps ==> p[k] == tippyProps[k]
  {
    Spread(map["content" := Text(content)], tippyProps)
  }

  /** `instance.setContent(content)`. */
  function SetContent(t: Tooltip, content: string): (u: Tooltip)
    ensures u.target == t.target && u.destroyed == t.destroyed
    ensures u.props.Keys == t.props.Keys + {"content"}
    ensures u.props["content"] == Text(content)
    ensures forall k :: k in t.props && k != "content" ==> u.props[k] == t.props[k]
  {
    t.(props := t.props["content" := Text(content)])
  }

  /** `Array.from(map.values())`: the pooled instances in insertion order. */
  function Values(order: seq<Element>, pool: map<Element, Instance>): (vs: seq<Instance>)
    requires forall e :: e in order ==> e in pool
    ensures |vs| == |order|
    ensures forall i :: 0 <= i < |order| ==> vs[i] == pool[order[i]]
  {
    seq(|order|, i requires 0 <= i < |order| => pool[order[i]])
  }

  /** `instance.destroy()` on every instance in `doomed`; the others are left as they are. */
  function DestroyAll(tooltips: map<Instance, Tooltip>, doomed: set<Instance>): (r: map<Instance, Tooltip>)
    ensures r.Keys == tooltips.Keys
    ensures forall t :: t in doomed && t in tooltips ==>
      r[t].destroyed && r[t].target == tooltips[t].target && r[t].props == tooltips[t].props
    ensures forall t :: t in tooltips && t !in doomed ==> r[t] == tooltips[t]
  {
    map t | t in tooltips :: if t in doomed then tooltips[t].(destroyed := true) else tooltips[t]
  }

  /** The instances pooled under the first `k` keys. */
  function PooledBefore(order: seq<Element>, pool: map<Element, Instance>, k: nat): (s: set<Instance>)
    requires k <= |order|
    requires forall e :: e in order ==> e in pool
    ensures forall j :: 0 <= j < k ==> pool[order[j]] in s
    ensures forall t :: t in s ==> exists j :: 0 <= j < k && pool[order[j]] == t
  {
    set j | 0 <= j < k :: pool[order[j]]
  }

  /** The pool's keys are `order` without repetition, every pooled instance is attached
      to its key, every recorded instance was numbered below `created`, and the singleton's
      list is always the pool's values in order. */
  ghost predicate PoolShape(order: seq<Element>, pool: map<Element, Instance>,
                            tooltips: map<Instance, Tooltip>, created: nat, singleton: Option<Singleton>)
  {
    (forall e :: e in order <==> e in pool)
    && (forall i, j :: 0 <= i < j < |order| ==> order[i] != order[j])
    && (forall e :: e in pool ==> pool[e] in tooltips && tooltips[pool[e]].target == e)
    && (forall t :: t in tooltips ==> t.id < created)
    && (singleton.Some? ==> singleton.value.instances == Values(order, pool))
  }

  /** A new instance for a target that is not pooled yet, appended to the pool and to the
      singleton's list, keeps the pool's shape. */
  lemma AddKeepsShape(order: seq<Element>, pool: map<Element, Instance>, tooltips: map<Instance, Tooltip>,
                      created: nat, singleton: Option<Singleton>, target: Element, tooltip: Tooltip)
    requires PoolShape(order, pool, tooltips, created, singleton)
    requires singleton.Some? && target !in pool && tooltip.target == target
    ensures PoolShape(order + [target], pool[target := Instance(created)],
                      tooltips[Instance(created) := tooltip], created + 1,
                      Some(singleton.value.(instances := singleton.value.instances + [Instance(created)])))
  {
    ValuesAppend(order, pool, target, Instance(created));
  }

  class TippyUtils {
    /** The options the helper was built with (`TippyUtils.options`). */
    const options: CalendarOptions
    /** The props `init` creates the singleton with. */
    const singletonProps: Props
    /** The caller props spread into every new instance. */
    const tippyProps: Props

    /** `tippySingletonInstance`. */
    var singleton: Option<Singleton>
    /** `tippyInstances`: element to instance. */
    var pool: map<Element, Instance>
    /** The keys of `tippyInstances` in insertion order. */
    var order: seq<Element>
    /** The state of every tippy.js instance this helper created. */
    var tooltips: map<Instance, Tooltip>
    /** How many instances this helper created; the next one is `Instance(created)`. */
    var created: nat

    /** The helper's fields have the pool's shape (`PoolShape`). */
    ghost predicate Valid()
      reads this
    {
      PoolShape(order, pool, tooltips, created, singleton)
    }

    /** `new TippyUtils(options)` of the current generation: the singleton gets the
        defaults with `tippyProps` spread over them, and every instance `tippyProps`. */
    constructor (options: CalendarOptions)
      ensures Valid()
      ensures this.options == options
      ensures singletonProps == SingletonProps(options.tippyProps)
      ensures tippyProps == options.tippyProps.GetOr(map[])
      ensures singleton.None? && pool == map[] && order == [] && tooltips == map[] && created == 0
    {
      this.options := options;
      singletonProps := SingletonProps(options.tippyProps);
      tippyProps := options.tippyProps.GetOr(map[]);
      singleton := None;
      pool := map[];
      order := [];
      tooltips := map[];
      created := 0;
    }

    /** `new TippyUtils(options)` of the older generation: fixed singleton props and
        instances created with their content only. */
    constructor Legacy(options: CalendarOptions)
      ensures Valid()
      ensures this.options == options
      ensures singletonProps == LegacySingletonProps && tippyProps == map[]
      ensures singleton.None? && pool == map[] && order == [] && tooltips == map[] && created == 0
    {
      this.options := options;
      singletonProps := LegacySingletonProps;
      tippyProps := map[];
      singleton := None;
      pool := map[];
      order := [];
      tooltips := map[];
      created := 0;
    }

    /** `init`: the pool is emptied (its instances are not destroyed); an existing
        singleton is kept and its list emptied, otherwise one is created over the empty
        list. Afterwards a singleton exists and the pool is empty. */
    method Init()
      requires Valid()
      modifies this
      ensures Valid()
      ensures pool == map[] && order == []
      ensures singleton.Some? && singleton.value.instances == []
      ensures old(singleton).Some? ==> singleton == Some(old(singleton).value.(instances := []))
      ensures old(singleton).None? ==> singleton == Some(Singleton([], singletonProps, false))
      ensures tooltips == old(tooltips) && created == old(created)
    {
      pool := map[];
      order := [];
      if singleton.Some? {
        singleton := Some(singleton.value.(instances := Values(order, pool)));
      } else {
        singleton := Some(Singleton(Values(order, pool), singletonProps, false));
      }
    }

    /** `reset`: the pool and the singleton's list are emptied; the singleton is neither
        destroyed nor replaced, and none is created. */
    method Reset()
      requires Valid()
      modifies this
      ensures Valid()
      ensures pool == map[] && order == []
      ensures old(singleton).Some? ==> singleton == Some(old(singleton).value.(instances := []))
      ensures old(singleton).None? ==> singleton.None?
      ensures tooltips == old(tooltips) && created == old(created)
    {
      pool := map[];
      order := [];
      if singleton.Some? {
        singleton := Some(singleton.value.(instances := []));
      }
    }

    /** `destroy`: the singleton, if any, and every pooled instance are destroyed. The pool
        keeps its entries and the singleton field keeps the destroyed singleton. */
    method Destroy()
      requires Valid()
      modifies this
      ensures Valid()
      ensures pool == old(pool) && order == old(order) && created == old(created)
      ensures old(singleton).Some? ==> singleton == Some(old(singleton).value.(destroyed := true))
      ensures old(singleton).None? ==> singleton.None?
      ensures tooltips == DestroyAll(old(tooltips), pool.Values)
    {
      var destroyed := DestroyPooled(tooltips, order, pool);
      if singleton.Some? {
        singleton := Some(singleton.value.(destroyed := true));
      }
      tooltips := destroyed;
    }

    /** What one `lazyLoadTooltip` call with `content` does to the pool. Without a
        singleton, or with null or empty content, nothing changes. A pooled target only gets
        its content replaced. A new target gets one new instance, created with the content and
        the caller props, added last to the pool and to the singleton's list. */
    twostate predicate Loaded(target: Element, content: Option<string>)
      requires old(Valid())
      reads this
    {
      (old(singleton).None? || !HasText(content) ==>
        singleton == old(singleton) && pool == old(pool) && order == old(order)
        && tooltips == old(tooltips) && created == old(created))
      && (old(singleton).Some? && HasText(content) && target in old(pool) ==>
        singleton == old(singleton) && pool == old(pool) && order == old(order)
        && created == old(created)
        && tooltips == old(tooltips)[old(pool)[target] := SetContent(old(tooltips)[old(pool)[target]], content.value)])
      && (old(singleton).Some? && HasText(content) && target !in old(pool) ==>
        created == old(created) + 1
        && order == old(order) + [target]
        && pool == old(pool)[target := Instance(old(created))]
        && tooltips == old(tooltips)[Instance(old(created)) := Tooltip(target, InstanceProps(content.value, tippyProps), false)]
        && singleton == Some(old(singleton).value.(instances := old(singleton).value.instances + [Instance(old(created))])))
    }

    /** The content step shared by both subclasses' `lazyLoadTooltip`. */
    method LazyLoad(target: Element, content: Option<string>)
      requires Valid()
      modifies this
      ensures Valid()
      ensures Loaded(target, content)
    {
      if singleton.Some? {
        if content.Some? && content.value != "" {
          if target in pool {
            ReplaceContent(target, content.value);
          } else {
            AddInstance(target, content.value);
          }
        }
      }
    }

    /** `instance.setContent(content)` on the instance pooled under `target`. */
    method ReplaceContent(target: Element, content: string)
      requires Valid() && target in pool
      modifies this
      ensures Valid()
      ensures singleton == old(singleton) && pool == old(pool) && order == old(order)
      ensures created == old(created)
      ensures tooltips == old(tooltips)[pool[target] := SetContent(old(tooltips)[pool[target]], content)]
    {
      var instance := pool[target];
      tooltips := tooltips[instance := SetContent(tooltips[instance], content)];
    }

    /** `tippy(target, { content, ...tippyProps })`, pooled under `target` and appended to
        the singleton's list. */
    method AddInstance(target: Element, content: string)
      requires Valid() && singleton.Some? && target !in pool
      modifies this
      ensures Valid()
      ensures created == old(created) + 1
      ensures order == old(order) + [target]
      ensures pool == old(pool)[target := Instance(old(created))]
      ensures tooltips == old(tooltips)[Instance(old(created)) := Tooltip(target, InstanceProps(content, tippyProps), false)]
      ensures singleton == Some(old(singleton).value.(instances := old(singleton).value.instances + [Instance(old(created))]))
    {
      var instance := Instance(created);
      var tooltip := Tooltip(target, InstanceProps(content, tippyProps), false);
      AddKeepsShape(order, pool, tooltips, created, singleton, target, tooltip);
      tooltips, created, pool, order, singleton :=
        tooltips[instance := tooltip], created + 1, pool[target := instance], order + [target],
        Some(singleton.value.(instances := singleton.value.instances + [instance]));
    }

    /** `DayTippyUtils.lazyLoadTooltip` of the current generation. */
    method LazyLoadDay(lib: DateLib, target: Element, day: HeatmapDay)
      requires Valid()
      modifies this
      ensures Valid()
      ensures Loaded(target, DayContent(lib, options, day))
    {
      LazyLoad(target, DayContent(lib, options, day));
    }

    /** `LevelsTippyUtils.lazyLoadTooltip` of the current generation. */
    method LazyLoadLevel(lib: DateLib, target: Element, color: HeatmapColor)
      requires Valid()
      modifies this
      ensures Valid()
      ensures Loaded(target, LevelContent(lib, options, color))
    {
      LazyLoad(target, LevelContent(lib, options, color));
    }

    /** The older `TippyUtils.lazyLoadTooltip` and `DayTippyUtils.lazyLoadTooltip`, whose
        content is gated by `showTooltip`. */
    method LegacyLazyLoadDay(lib: DateLib, target: Element, day: HeatmapDay)
      requires Valid()
      modifies this
      ensures Valid()
      ensures Loaded(target, LegacyDayContent(lib, options, day))
    {
      LazyLoad(target, LegacyDayContent(lib, options, day));
    }

    /** The older `LevelsTippyUtils.lazyLoadTooltip`. */
    method LegacyLazyLoadLevel(lib: DateLib, target: Element, color: HeatmapColor)
      requires Valid()
      modifies this
      ensures Valid()
      ensures Loaded(target, LegacyLevelContent(lib, options, color))
    {
      LazyLoad(target, LegacyLevelContent(lib, options, color));
    }
  }

  /** Adding a new key appends its instance to the values. */
  lemma ValuesAppend(order: seq<Element>, pool: map<Element, Instance>, e: Element, t: Instance)
    requires forall x :: x in order ==> x in pool
    requires e !in order
    ensures Values(order + [e], pool[e := t]) == Values(order, pool) + [t]
  {
    var vs := Values(order + [e], pool[e := t]);
    forall i | 0 <= i < |order|
      ensures vs[i] == Values(order, pool)[i]
    {
      assert (order + [e])[i] == order[i];
    }
  }

  /** The loop of `destroy`: `instance.destroy()` on each pooled instance, in pool order. */
  method DestroyPooled(tooltips: map<Instance, Tooltip>, order: seq<Element>, pool: map<Element, Instance>)
    returns (destroyed: map<Instance, Tooltip>)
    requires forall e :: e in order <==> e in pool
    requires forall e :: e in pool ==> pool[e] in tooltips
    ensures destroyed == DestroyAll(tooltips, pool.Values)
  {
    destroyed := tooltips;
    var i := 0;
    DestroyNone(tooltips, PooledBefore(order, pool, 0));
    while i < |order|
      invariant 0 <= i <= |order|
      invariant destroyed == DestroyAll(tooltips, PooledBefore(order, pool, i))
    {
      var t := pool[order[i]];
      DestroyOneMore(tooltips, order, pool, i, destroyed, t);
      destroyed := destroyed[t := destroyed[t].(destroyed := true)];
      i := i + 1;
    }
    AllPooled(order, pool);
  }

  /** Destroying no instance changes nothing. */
  lemma DestroyNone(tooltips: map<Instance, Tooltip>, doomed: set<Instance>)
    requires doomed == {}
    ensures DestroyAll(tooltips, doomed) == tooltips
  {
  }

  /** One more key destroyed: destroying the instances of the first `i + 1` keys is
      destroying those of the first `i` and then the `i`-th key's. */
  lemma DestroyOneMore(tooltips: map<Instance, Tooltip>, order: seq<Element>, pool: map<Element, Instance>, i: nat,
                       before: map<Instance, Tooltip>, t: Instance)
    requires i < |order|
    requires forall e :: e in order ==> e in pool
    requires t == pool[order[i]] && t in tooltips
    requires before == DestroyAll(tooltips, PooledBefore(order, pool, i))
    ensures t in before
    ensures DestroyAll(tooltips, PooledBefore(order, pool, i + 1)) == before[t := before[t].(destroyed := true)]
  {
    assert PooledBefore(order, pool, i + 1) == PooledBefore(order, pool, i) + {t};
  }

  /** The instances under all keys are the pool's values. */
  lemma AllPooled(order: seq<Element>, pool: map<Element, Instance>)
    requires forall e :: e in order <==> e in pool
    ensures PooledBefore(order, pool, |order|) == pool.Values
  {
    forall t | t in pool.Values
      ensures t in PooledBefore(order, pool, |order|)
    {
      var e :| e in pool && pool[e] == t;
      var j :| 0 <= j < |order| && order[j] == e;
    }
  }
}
