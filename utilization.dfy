// The utilization tables of the SignalFx metadata plugin: collectd values
// filed per time bucket, then read back in time order to dispatch
// utilization percentages. Times are whole numbers of tenths of a second.

module MetadataUtilization {
  import opened Wrappers
  import opened Dicts

  /** `INTERVAL`: the interval, in seconds, used when a value list reports none. */
  const DefaultInterval: real := 10.0

  /** How many time buckets the memory and total tables see before fixing their size. */
  const WaitThreshold: nat := 3

  /** How many values a CPU time bucket needs before it is used (the Linux count). */
  const MinExpectedCpuMetrics: nat := 8

  /** collectd never dispatches an empty value list. */
  type Reading = s: seq<real> | s != [] witness [0.0]

  /** A value list as the write callback receives it; `time` and `interval` are in seconds. */
  datatype Values = Values(plugin: string, pluginInstance: string, typ: string, typeInstance: string,
                           time: real, interval: real, values: Reading)

  /** `round(time, 1)` as a count of tenths: the nearest tenth, halves rounded away from zero. */
  function TimeKey(time: real): (k: int)
    ensures -0.5 <= time * 10.0 - k as real <= 0.5
    ensures time >= 0.0 ==> k >= 0
    ensures time < 0.0 ==> k <= 0
  {
    if time >= 0.0 then (time * 10.0 + 0.5).Floor else -((-time * 10.0 + 0.5).Floor)
  }

  /** The name values are filed under: their type, then `.type_instance` when there is one. */
  function MetricName(v: Values): string {
    if v.typeInstance != "" then v.typ + "." + v.typeInstance else v.typ
  }

  /** An `mdict`: entries by key, and the flag a read sets when it passes the bucket over once. */
  datatype Bucket<V> = Bucket(entries: Dict<V>, skipped: bool)

  /** A time bucket keyed by metric name. */
  type Flat = Bucket<Reading>

  /** A time bucket keyed by plugin instance, each holding its own bucket by metric name. */
  type Nested = Bucket<Flat>

  /** `Utilization.add_metric`: `metrics.setdefault(t, mdict())[name] = values`. */
  function AddFlat(metrics: map<int, Flat>, v: Values): map<int, Flat> {
    var t := TimeKey(v.time);
    var b := if t in metrics then metrics[t] else Bucket([], false);
    metrics[t := b.(entries := Put(b.entries, MetricName(v), v.values))]
  }

  /**
   * `PluginInstanceUtilization.add_metric`: the same, one level down, under
   * the value's plugin instance.
   */
  function AddNested(metrics: map<int, Nested>, v: Values): map<int, Nested> {
    var t := TimeKey(v.time);
    var b := if t in metrics then metrics[t] else Bucket([], false);
    var inner := match Lookup(b.entries, v.pluginInstance) case Some(m) => m case None => Bucket([], false);
    metrics[t := b.(entries := Put(b.entries, v.pluginInstance, inner.(entries := Put(inner.entries, MetricName(v), v.values))))]
  }

  /** Adding values files them under their time and name, creating the bucket unskipped, and changes nothing else. */
  lemma AddFlatFiles(metrics: map<int, Flat>, v: Values, t: int, name: string)
    ensures var r := AddFlat(metrics, v);
      && r.Keys == metrics.Keys + {TimeKey(v.time)}
      && (t in metrics && t != TimeKey(v.time) ==> r[t] == metrics[t])
      && (t == TimeKey(v.time) ==>
        && r[t].skipped == (t in metrics && metrics[t].skipped)
        && Lookup(r[t].entries, name) ==
          if name == MetricName(v) then Some(v.values)
          else if t in metrics then Lookup(metrics[t].entries, name) else None)
  {
    var b := if TimeKey(v.time) in metrics then metrics[TimeKey(v.time)] else Bucket([], false);
    PutLookup(b.entries, MetricName(v), v.values, name);
  }

  /** Adding values files them under their time, plugin instance and name, and changes no other entry. */
  lemma AddNestedFiles(metrics: map<int, Nested>, v: Values, pi: string, name: string)
    ensures var r := AddNested(metrics, v);
      var t := TimeKey(v.time);
      && r.Keys == metrics.Keys + {t}
      && (forall u | u in metrics && u != t :: r[u] == metrics[u])
      && (pi != v.pluginInstance ==> Lookup(r[t].entries, pi) == if t in metrics then Lookup(metrics[t].entries, pi) else None)
      && Lookup(r[t].entries, v.pluginInstance).Some?
      && Lookup(Lookup(r[t].entries, v.pluginInstance).value.entries, name) ==
        if name == MetricName(v) then Some(v.values)
        else if t in metrics && Lookup(metrics[t].entries, v.pluginInstance).Some? then
          Lookup(Lookup(metrics[t].entries, v.pluginInstance).value.entries, name)
        else None
  {
    var t := TimeKey(v.time);
    var b := if t in metrics then metrics[t] else Bucket([], false);
    var inner := match Lookup(b.entries, v.pluginInstance) case Some(m) => m case None => Bucket([], false);
    var inner' := inner.(entries := Put(inner.entries, MetricName(v), v.values));
    PutLookup(b.entries, v.pluginInstance, inner', pi);
    PutLookup(b.entries, v.pluginInstance, inner', v.pluginInstance);
    PutLookup(inner.entries, MetricName(v), v.values, name);
  }

  /** The interval once a matching value list has been written: set from the first one only. */
  function NextInterval(interval: real, v: Values): real {
    if interval != 0.0 then interval
    else if v.interval != 0.0 then v.interval
    else DefaultInterval
  }

  /** The interval is set once, from the first matching value list or to `INTERVAL`, and never changes again. */
  lemma IntervalSetOnce(interval: real, v: Values, w: Values)
    ensures NextInterval(interval, v) != 0.0
    ensures interval != 0.0 ==> NextInterval(interval, v) == interval
    ensures interval == 0.0 ==> NextInterval(interval, v) == if v.interval != 0.0 then v.interval else DefaultInterval
    ensures NextInterval(NextInterval(interval, v), w) == NextInterval(interval, v)
  {
  }

  // ---------------------------------------------------------------- emission

  /** A value passed to `put_val`: plugin instance, metric name, value, time in tenths and interval. */
  datatype Emission = Emission(pluginInstance: string, metric: string, value: real, time: int, interval: real)

  /** `1.0 * used / total * 100`, or 0 for a zero total. */
  function Percent(used: real, total: real): real {
    if total == 0.0 then 0.0 else used / total * 100.0
  }

  /** A share of a positive total is a percentage between 0 and 100. */
  lemma PercentInRange(used: real, total: real)
    requires 0.0 <= used <= total && 0.0 < total
    ensures 0.0 <= Percent(used, total) <= 100.0
  {
    assert used / total <= 1.0 by {
      assert used / total * total == used;
    }
  }

  /** What `emit_utilization` dispatches, if anything, and the table's last time after it. */
  datatype Emitted = Emitted(dispatched: Option<Emission>, lastTime: int)

  /**
   * `emit_utilization`: a percentage below 0 or above 100 is logged and
   * dropped, one for a time before the last one dispatched is dropped as too
   * old; otherwise it is dispatched and its time becomes the last time.
   */
  function EmitUtilization(lastTime: int, interval: real, t: int, used: real, total: real,
                           metric: string, pluginInstance: string): (e: Emitted)
    ensures e.dispatched.Some? <==> 0.0 <= Percent(used, total) <= 100.0 && lastTime <= t
    ensures e.dispatched.Some? ==>
      e.dispatched.value == Emission(pluginInstance, metric, Percent(used, total), t, interval) && e.lastTime == t
    ensures e.dispatched.None? ==> e.lastTime == lastTime
    ensures lastTime <= e.lastTime
  {
    var percent := Percent(used, total);
    if percent < 0.0 || percent > 100.0 || t < lastTime then Emitted(None, lastTime)
    else Emitted(Some(Emission(pluginInstance, metric, percent, t, interval)), t)
  }

  /** The dispatch log after an emission. */
  function Logged(log: seq<Emission>, e: Emitted): seq<Emission> {
    if e.dispatched.Some? then log + [e.dispatched.value] else log
  }

  /** `sum(c[0] for c in d.values())`. */
  function SumFirsts(d: Dict<Reading>): real {
    if d == [] then 0.0 else SumFirsts(d[..|d| - 1]) + d[|d| - 1].1[0]
  }

  // ---------------------------------------------------------------- time order

  /** `t` is the earliest time of `s`. */
  predicate IsLeast(t: int, s: set<int>) {
    t in s && forall u | u in s :: t <= u
  }

  /** A non-empty set has an element. */
  lemma Inhabited(s: set<int>)
    requires s != {}
    ensures exists t :: t in s
  {
    if forall t :: t !in s {
      assert false;
    }
  }

  lemma {:induction false} LeastExists(s: set<int>)
    requires s != {}
    ensures exists t :: IsLeast(t, s)
    decreases |s|
  {
    Inhabited(s);
    var x :| x in s;
    if s != {x} {
      LeastExists(s - {x});
      var m :| IsLeast(m, s - {x});
      if x < m {
        assert forall u | u in s :: u == x || u in s - {x};
        assert IsLeast(x, s);
      } else {
        assert forall u | u in s :: u == x || u in s - {x};
        assert IsLeast(m, s);
      }
    } else {
      assert IsLeast(x, s);
    }
  }

  ghost function Least(s: set<int>): (t: int)
    requires s != {}
    ensures IsLeast(t, s)
  {
    LeastExists(s);
    var t :| IsLeast(t, s); t
  }

  lemma LeastUnique(t: int, s: set<int>)
    requires IsLeast(t, s)
    ensures t == Least(s)
  {
  }

  /** `sorted(s)`. */
  ghost function Ascending(s: set<int>): seq<int>
    decreases |s|
  {
    if s == {} then [] else [Least(s)] + Ascending(s - {Least(s)})
  }

  /** The sorted keys are the keys, each once, in increasing order. */
  lemma {:induction false} AscendingSorted(s: set<int>)
    ensures forall t :: t in Ascending(s) <==> t in s
    ensures forall i, j | 0 <= i < j < |Ascending(s)| :: Ascending(s)[i] < Ascending(s)[j]
    decreases |s|
  {
    if s != {} {
      var t := Least(s);
      AscendingSorted(s - {t});
      assert Ascending(s) == [t] + Ascending(s - {t});
      forall i, j | 0 <= i < j < |Ascending(s)| ensures Ascending(s)[i] < Ascending(s)[j] {
        if i == 0 {
          assert Ascending(s)[j] in s - {t};
        } else {
          assert Ascending(s)[i] == Ascending(s - {t})[i - 1];
        }
      }
    }
  }

  /** The state of a table as a read sees it: its buckets, its last time, and what it has dispatched. */
  datatype Table<B> = Table(metrics: map<int, B>, lastTime: int, dispatched: seq<Emission>)

  /** The state after a step of a read, and whether the step raised an uncaught error. */
  datatype Outcome<S> = Outcome(state: S, raised: bool)

  /** `max(map(len, metrics.values()))`. */
  predicate IsLargest<V>(metrics: map<int, Bucket<V>>, n: nat) {
    && (forall t | t in metrics :: |metrics[t].entries| <= n)
    && (exists t | t in metrics :: |metrics[t].entries| == n)
  }

  /** The size of the largest bucket of a non-empty table. */
  method LargestSize<V>(metrics: map<int, Bucket<V>>) returns (n: nat)
    requires metrics != map[]
    ensures IsLargest(metrics, n)
  {
    Inhabited(metrics.Keys);
    var t0 :| t0 in metrics;
    n := |metrics[t0].entries|;
    var keys := metrics.Keys - {t0};
    while keys != {}
      invariant keys <= metrics.Keys
      invariant forall t | t in metrics && t !in keys :: |metrics[t].entries| <= n
      invariant exists t | t in metrics :: |metrics[t].entries| == n
      decreases |keys|
    {
      Inhabited(keys);
      var t :| t in keys;
      if |metrics[t].entries| > n {
        n := |metrics[t].entries|;
      }
      keys := keys - {t};
    }
  }

  // ---------------------------------------------------------------- memory

  /** `MemoryUtilization.is_metric`. */
  predicate IsMemoryMetric(v: Values) {
    v.plugin == "memory" && v.typ == "memory"
  }

  /**
   * One time bucket of `MemoryUtilization.read`: a bucket newer than the last
   * time holding exactly `size` entries dispatches `memory.used` over the sum
   * of all entries, and raises `KeyError` when `memory.used` is missing; every
   * other bucket is dropped.
   */
  function MemoryStep(size: nat, interval: real, s: Table<Flat>, t: int): Outcome<Table<Flat>> {
    if t !in s.metrics then Outcome(s, false)
    else if t > s.lastTime && |s.metrics[t].entries| == size then
      var m := s.metrics[t];
      match Lookup(m.entries, "memory.used")
      case None => Outcome(s, true)
      case Some(used) =>
        var e := EmitUtilization(s.lastTime, interval, t, used[0], SumFirsts(m.entries), "memory.utilization", "utilization");
        Outcome(Table(s.metrics - {t}, e.lastTime, Logged(s.dispatched, e)), false)
    else Outcome(s.(metrics := s.metrics - {t}), false)
  }

  /** The buckets at times `ts`, in that order, stopping at the first error. */
  function MemoryRun(size: nat, interval: real, s: Table<Flat>, ts: seq<int>): Outcome<Table<Flat>>
    decreases |ts|
  {
    if ts == [] then Outcome(s, false)
    else
      var o := MemoryStep(size, interval, s, ts[0]);
      if o.raised then o else MemoryRun(size, interval, o.state, ts[1..])
  }

  /** What a read may do to a table: the facts every kind of table keeps. */
  ghost predicate ReadKeeps<B>(s: Table<B>, r: Table<B>, ts: seq<int>) {
    && s.lastTime <= r.lastTime
    && |s.dispatched| <= |r.dispatched| && r.dispatched[..|s.dispatched|] == s.dispatched
    && (forall i | |s.dispatched| <= i < |r.dispatched| ::
          s.lastTime < r.dispatched[i].time && r.dispatched[i].time in ts
          && 0.0 <= r.dispatched[i].value <= 100.0)
  }

  lemma ReadKeepsTrans<B>(s: Table<B>, m: Table<B>, r: Table<B>, t: int, ts: seq<int>)
    requires ReadKeeps(s, m, [t]) && ReadKeeps(m, r, ts)
    ensures ReadKeeps(s, r, [t] + ts)
  {
    forall i | |s.dispatched| <= i < |r.dispatched|
      ensures s.lastTime < r.dispatched[i].time && r.dispatched[i].time in [t] + ts
    {
      if i < |m.dispatched| {
        assert r.dispatched[i] == r.dispatched[..|m.dispatched|][i];
      }
    }
  }

  /**
   * A memory read dispatches only percentages for times after its last time,
   * never moves the last time back and only appends to the log; when it does
   * not raise, every bucket it was given is gone.
   */
  lemma {:induction false} MemoryRunKeeps(size: nat, interval: real, s: Table<Flat>, ts: seq<int>)
    ensures var r := MemoryRun(size, interval, s, ts);
      && ReadKeeps(s, r.state, ts)
      && (!r.raised ==> r.state.metrics.Keys == s.metrics.Keys - set t | t in ts)
    decreases |ts|
  {
    if ts != [] {
      var o := MemoryStep(size, interval, s, ts[0]);
      if o.raised {
        assert o.state == s;
      } else {
        MemoryRunKeeps(size, interval, o.state, ts[1..]);
        ReadKeepsTrans(s, o.state, MemoryRun(size, interval, s, ts).state, ts[0], ts[1..]);
        assert [ts[0]] + ts[1..] == ts;
      }
    }
  }

  class MemoryUtilization {
    var metrics: map<int, Flat>
    var lastTime: int
    var interval: real
    var size: nat
    var dispatched: seq<Emission>

    constructor ()
      ensures metrics == map[] && lastTime == 0 && interval == 0.0 && size == 0 && dispatched == []
    {
      metrics := map[];
      lastTime := 0;
      interval := 0.0;
      size := 0;
      dispatched := [];
    }

    function State(): Table<Flat>
      reads this
    {
      Table(metrics, lastTime, dispatched)
    }

    /** `write`: files a memory value list and reports whether it was one. */
    method Write(v: Values) returns (matched: bool)
      modifies this`metrics, this`interval
      ensures matched == IsMemoryMetric(v)
      ensures metrics == if matched then AddFlat(old(metrics), v) else old(metrics)
      ensures interval == if matched then NextInterval(old(interval), v) else old(interval)
    {
      matched := IsMemoryMetric(v);
      if matched {
        metrics := AddFlat(metrics, v);
        if interval == 0.0 {
          interval := v.interval;
          if interval == 0.0 {
            interval := DefaultInterval;
          }
        }
      }
    }

    /**
     * `read`: nothing until `WaitThreshold` buckets have been seen, when the
     * size is fixed to the largest bucket; then every bucket in time order.
     */
    method Read() returns (raised: bool)
      modifies this
      ensures interval == old(interval)
      ensures old(size) == 0 && |old(metrics)| < WaitThreshold ==> !raised && State() == old(State()) && size == 0
      ensures old(size) == 0 && |old(metrics)| >= WaitThreshold ==> IsLargest(old(metrics), size)
      ensures old(size) != 0 ==> size == old(size)
      ensures old(size) != 0 || |old(metrics)| >= WaitThreshold ==>
        Outcome(State(), raised) == MemoryRun(size, interval, old(State()), Ascending(old(metrics).Keys))
    {
      if size == 0 {
        if |metrics| >= WaitThreshold {
          size := LargestSize(metrics);
        } else {
          return false;
        }
      }
      ghost var start := State();
      var keys := metrics.Keys;
      while keys != {}
        invariant keys <= metrics.Keys
        invariant MemoryRun(size, interval, State(), Ascending(keys)) == MemoryRun(size, interval, start, Ascending(start.metrics.Keys))
        modifies this`metrics, this`lastTime, this`dispatched
        decreases |keys|
      {
        LeastExists(keys);
        var t :| IsLeast(t, keys);
        LeastUnique(t, keys);
        assert Ascending(keys) == [t] + Ascending(keys - {t});
        if t > lastTime {
          var m := metrics[t];
          if |m.entries| == size {
            var used := Lookup(m.entries, "memory.used");
            if used.None? {
              return true;
            }
            var e := EmitUtilization(lastTime, interval, t, used.value[0], SumFirsts(m.entries), "memory.utilization", "utilization");
            dispatched := Logged(dispatched, e);
            lastTime := e.lastTime;
          }
        }
        metrics := metrics - {t};
        keys := keys - {t};
      }
      raised := false;
    }
  }

  /** Once its size is known, a memory read that does not raise leaves no bucket behind. */
  lemma MemoryReadEmpties(size: nat, interval: real, s: Table<Flat>)
    ensures var r := MemoryRun(size, interval, s, Ascending(s.metrics.Keys));
      !r.raised ==> r.state.metrics == map[]
  {
    MemoryRunKeeps(size, interval, s, Ascending(s.metrics.Keys));
    AscendingSorted(s.metrics.Keys);
    var ks := Ascending(s.metrics.Keys);
    var r := MemoryRun(size, interval, s, ks);
    if !r.raised {
      assert r.state.metrics.Keys == {} by {
        forall t ensures t !in r.state.metrics.Keys {
          if t in s.metrics.Keys {
            assert t in ks;
          }
        }
      }
    }
  }

  // ---------------------------------------------------------------- cpu

  /** A `CpuUtilizationCalculator`'s memory: the latest value of each CPU state and the previous sums. */
  datatype CalcState = CalcState(last: Dict<Reading>, oldTotal: real, oldIdle: real, oldUsed: real)

  /** `(t, used_diff, total_diff)`. */
  datatype Usage = Usage(time: int, used: real, total: real)

  /** The calculator's new memory and its answer. */
  datatype Calculated = Calculated(state: CalcState, response: Option<Usage>)

  /** `last.get("cpu.idle", [0])[0]`. */
  function IdleOf(last: Dict<Reading>): real {
    match Lookup(last, "cpu.idle")
    case None => 0.0
    case Some(vs) => vs[0]
  }

  /**
   * `calculateUtilization`: merges the bucket into the latest values, sums
   * them, and answers with the growth of the used and total sums since the
   * previous call, when there was one with a non-zero total.
   */
  function Calculate(c: CalcState, t: int, metric: Dict<Reading>): Calculated {
    var last := Update(c.last, metric);
    var total := SumFirsts(last);
    var idle := IdleOf(last);
    var used := total - idle;
    var usedDiff := used - c.oldUsed;
    var totalDiff := total - c.oldTotal;
    var response :=
      if c.oldTotal == 0.0 then None
      else if usedDiff < 0.0 || totalDiff < 0.0 then None
      else if usedDiff == 0.0 && totalDiff == 0.0 then None
      else Some(Usage(t, usedDiff, totalDiff));
    Calculated(CalcState(last, total, idle, used), response)
  }

  /**
   * The calculator always remembers the new sums; it answers exactly when a
   * previous total exists and neither sum went down nor both stood still.
   */
  lemma CalculateAnswers(c: CalcState, t: int, metric: Dict<Reading>)
    ensures var r := Calculate(c, t, metric);
      && r.state.last == Update(c.last, metric)
      && r.state.oldTotal == SumFirsts(r.state.last)
      && r.state.oldUsed == r.state.oldTotal - IdleOf(r.state.last)
      && (r.response.Some? <==>
            && c.oldTotal != 0.0
            && r.state.oldUsed >= c.oldUsed && r.state.oldTotal >= c.oldTotal
            && (r.state.oldUsed != c.oldUsed || r.state.oldTotal != c.oldTotal))
      && (r.response.Some? ==> r.response.value == Usage(t, r.state.oldUsed - c.oldUsed, r.state.oldTotal - c.oldTotal))
  {
  }

  /** A fresh calculator has no previous total, so its first answer is `None`. */
  lemma FirstCalculationSilent(t: int, metric: Dict<Reading>)
    ensures Calculate(CalcState([], 0.0, 0.0, 0.0), t, metric).response == None
  {
  }

  /** When the idle time has not gone down, an answer is a percentage between 0 and 100. */
  lemma CpuPercentInRange(c: CalcState, t: int, metric: Dict<Reading>)
    requires Calculate(c, t, metric).response.Some?
    requires Calculate(c, t, metric).state.oldIdle >= c.oldIdle
    requires c.oldUsed == c.oldTotal - c.oldIdle
    ensures var u := Calculate(c, t, metric).response.value;
      0.0 <= Percent(u.used, u.total) <= 100.0
  {
    var u := Calculate(c, t, metric).response.value;
    PercentInRange(u.used, u.total);
  }

  /** The new values of a bucket replace the calculator's, the others stay. */
  lemma CalculateMerges(c: CalcState, t: int, metric: Dict<Reading>, k: string)
    requires Distinct(metric)
    ensures Lookup(Calculate(c, t, metric).state.last, k) == if k in Keys(metric) then Lookup(metric, k) else Lookup(c.last, k)
  {
    UpdateLookup(c.last, metric, k);
  }

  class CpuUtilizationCalculator {
    const core: int
    var last: Dict<Reading>
    var oldTotal: real
    var oldIdle: real
    var oldUsed: real

    constructor (core: int)
      ensures this.core == core && State() == CalcState([], 0.0, 0.0, 0.0)
    {
      this.core := core;
      last := [];
      oldTotal := 0.0;
      oldIdle := 0.0;
      oldUsed := 0.0;
    }

    function State(): CalcState
      reads this
    {
      CalcState(last, oldTotal, oldIdle, oldUsed)
    }

    /** `calculateUtilization`. */
    method CalculateUtilization(t: int, metric: Dict<Reading>) returns (response: Option<Usage>)
      modifies this
      ensures Calculated(State(), response) == Calculate(old(State()), t, metric)
    {
      response := None;
      last := Update(last, metric);
      var total := SumFirsts(last);
      var idle := IdleOf(last);
      var used := total - idle;
      if oldTotal != 0.0 {
        var usedDiff := used - oldUsed;
        var totalDiff := total - oldTotal;
        if usedDiff < 0.0 || totalDiff < 0.0 {
        } else if usedDiff == 0.0 && totalDiff == 0.0 {
        } else {
          response := Some(Usage(t, usedDiff, totalDiff));
        }
      }
      oldTotal := total;
      oldIdle := idle;
      oldUsed := used;
    }
  }

  /** `CpuUtilization.is_metric`: the `cpu-average` aggregation. */
  predicate IsCpuMetric(v: Values) {
    v.plugin == "aggregation" && v.typ == "cpu" && v.pluginInstance == "cpu-average"
  }

  /** A CPU table and its calculator. */
  datatype CpuState = CpuState(table: Table<Flat>, memory: CalcState)

  /**
   * One time bucket of `CpuUtilization.read`: a complete bucket newer than
   * the last time goes to the calculator, whose answer is dispatched; an
   * incomplete one is skipped once and dropped the next time; an old one is
   * dropped.
   */
  function CpuStep(interval: real, s: CpuState, t: int): CpuState {
    var table := s.table;
    if t !in table.metrics then s
    else if t > table.lastTime then
      var m := table.metrics[t];
      if |m.entries| >= MinExpectedCpuMetrics then
        var c := Calculate(s.memory, t, m.entries);
        var e := match c.response
          case None => Emitted(None, table.lastTime)
          case Some(u) => EmitUtilization(table.lastTime, interval, u.time, u.used, u.total, "cpu.utilization", "utilization");
        CpuState(Table(table.metrics - {t}, e.lastTime, Logged(table.dispatched, e)), c.state)
      else if m.skipped then s.(table := table.(metrics := table.metrics - {t}))
      else s.(table := table.(metrics := table.metrics[t := m.(skipped := true)]))
    else s.(table := table.(metrics := table.metrics - {t}))
  }

  /** The buckets at times `ts`, in that order. */
  function CpuRun(interval: real, s: CpuState, ts: seq<int>): CpuState
    decreases |ts|
  {
    if ts == [] then s else CpuRun(interval, CpuStep(interval, s, ts[0]), ts[1..])
  }

  /** A CPU read dispatches only for times after its last time and never moves it back. */
  lemma {:induction false} CpuRunKeeps(interval: real, s: CpuState, ts: seq<int>)
    ensures ReadKeeps(s.table, CpuRun(interval, s, ts).table, ts)
    decreases |ts|
  {
    if ts != [] {
      var s1 := CpuStep(interval, s, ts[0]);
      CpuStepKeeps(interval, s, ts[0]);
      CpuRunKeeps(interval, s1, ts[1..]);
      ReadKeepsTrans(s.table, s1.table, CpuRun(interval, s, ts).table, ts[0], ts[1..]);
      assert [ts[0]] + ts[1..] == ts;
    }
  }

  lemma CpuStepKeeps(interval: real, s: CpuState, t: int)
    ensures ReadKeeps(s.table, CpuStep(interval, s, t).table, [t])
  {
    var table := s.table;
    if t in table.metrics && t > table.lastTime && |table.metrics[t].entries| >= MinExpectedCpuMetrics {
      var c := Calculate(s.memory, t, table.metrics[t].entries);
      assert c.response.Some? ==> c.response.value.time == t;
    }
  }

  /**
   * An incomplete bucket newer than the last time is kept and marked on its
   * first read, and dropped on the next.
   */
  lemma CpuSkipOnceThenDrop(interval: real, s: CpuState, t: int)
    requires t in s.table.metrics && t > s.table.lastTime
    requires |s.table.metrics[t].entries| < MinExpectedCpuMetrics && !s.table.metrics[t].skipped
    ensures var s1 := CpuStep(interval, s, t);
      && t in s1.table.metrics && s1.table.metrics[t] == s.table.metrics[t].(skipped := true)
      && s1.table.metrics - {t} == s.table.metrics - {t}
      && t !in CpuStep(interval, s1, t).table.metrics
  {
  }

  class CpuUtilization {
    var metrics: map<int, Flat>
    var lastTime: int
    var interval: real
    var dispatched: seq<Emission>
    const utilCalc: CpuUtilizationCalculator

    constructor ()
      ensures metrics == map[] && lastTime == 0 && interval == 0.0 && dispatched == []
      ensures fresh(utilCalc) && utilCalc.State() == CalcState([], 0.0, 0.0, 0.0)
    {
      metrics := map[];
      lastTime := 0;
      interval := 0.0;
      dispatched := [];
      utilCalc := new CpuUtilizationCalculator(0);
    }

    function State(): CpuState
      reads this, utilCalc
    {
      CpuState(Table(metrics, lastTime, dispatched), utilCalc.State())
    }

    /** `write`: files a CPU value list and reports whether it was one. */
    method Write(v: Values) returns (matched: bool)
      modifies this`metrics, this`interval
      ensures matched == IsCpuMetric(v)
      ensures metrics == if matched then AddFlat(old(metrics), v) else old(metrics)
      ensures interval == if matched then NextInterval(old(interval), v) else old(interval)
    {
      matched := IsCpuMetric(v);
      if matched {
        metrics := AddFlat(metrics, v);
        if interval == 0.0 {
          interval := v.interval;
          if interval == 0.0 {
            interval := DefaultInterval;
          }
        }
      }
    }

    /** `read`: every bucket in time order. */
    method Read()
      modifies this, utilCalc
      ensures interval == old(interval)
      ensures State() == CpuRun(interval, old(State()), Ascending(old(metrics).Keys))
    {
      ghost var start := State();
      var keys := metrics.Keys;
      while keys != {}
        invariant keys <= metrics.Keys
        invariant CpuRun(interval, State(), Ascending(keys)) == CpuRun(interval, start, Ascending(start.table.metrics.Keys))
        modifies this`metrics, this`lastTime, this`dispatched, utilCalc
        decreases |keys|
      {
        LeastExists(keys);
        var t :| IsLeast(t, keys);
        LeastUnique(t, keys);
        assert Ascending(keys) == [t] + Ascending(keys - {t});
        ReadCpuBucket(t);
        keys := keys - {t};
      }
    }

    /** One bucket of `read`. */
    method ReadCpuBucket(t: int)
      requires t in metrics
      modifies this`metrics, this`lastTime, this`dispatched, utilCalc
      ensures metrics.Keys <= old(metrics.Keys) && metrics.Keys - {t} == old(metrics.Keys) - {t}
      ensures State() == CpuStep(interval, old(State()), t)
    {
      if t > lastTime {
        var m := metrics[t];
        if |m.entries| >= MinExpectedCpuMetrics {
          var response := utilCalc.CalculateUtilization(t, m.entries);
          if response.Some? {
            var u := response.value;
            var e := EmitUtilization(lastTime, interval, u.time, u.used, u.total, "cpu.utilization", "utilization");
            dispatched := Logged(dispatched, e);
            lastTime := e.lastTime;
          }
          metrics := metrics - {t};
        } else if m.skipped {
          metrics := metrics - {t};
        } else {
          metrics := metrics[t := m.(skipped := true)];
        }
      } else {
        metrics := metrics - {t};
      }
    }
  }

  // ---------------------------------------------------------------- df

  /** `DfUtilization.is_metric`. */
  predicate IsDfMetric(v: Values) {
    v.plugin == "df" && v.typ == "df_complex"
  }

  /** How far the pass over one bucket's partitions has come. */
  datatype DfPass = DfPass(bucket: Dict<Flat>, lastTime: int, dispatched: seq<Emission>, raised: bool)

  /**
   * The partitions `todo` of the bucket at time `t`, in order: a complete
   * one (three values) dispatches its used share of used plus free and is
   * removed, raising `KeyError` when `df_complex.used` or `df_complex.free`
   * is missing; an incomplete one is marked on its first pass and removed on
   * the next.
   */
  function DfPartitions(interval: real, t: int, p: DfPass, todo: Dict<Flat>): DfPass
    decreases |todo|
  {
    if todo == [] || p.raised then p
    else
      var pi := todo[0].0;
      var m := todo[0].1;
      var next :=
        if |m.entries| == 3 then
          var used := Lookup(m.entries, "df_complex.used");
          var free := Lookup(m.entries, "df_complex.free");
          if used.None? || free.None? then p.(raised := true)
          else
            var e := EmitUtilization(p.lastTime, interval, t, used.value[0], used.value[0] + free.value[0], "disk.utilization", pi);
            DfPass(Remove(p.bucket, pi), e.lastTime, Logged(p.dispatched, e), false)
        else if m.skipped then p.(bucket := Remove(p.bucket, pi))
        else p.(bucket := Put(p.bucket, pi, m.(skipped := true)));
      DfPartitions(interval, t, next, todo[1..])
  }

  /**
   * One time bucket of `DfUtilization.read`: the pass over its partitions,
   * after which an emptied bucket is deleted; an old bucket is deleted.
   */
  function DfStep(interval: real, s: Table<Nested>, t: int): Outcome<Table<Nested>> {
    if t !in s.metrics then Outcome(s, false)
    else if t > s.lastTime then
      var pm := s.metrics[t];
      var p := DfPartitions(interval, t, DfPass(pm.entries, s.lastTime, s.dispatched, false), pm.entries);
      var b := pm.(entries := p.bucket);
      if p.raised then Outcome(Table(s.metrics[t := b], p.lastTime, p.dispatched), true)
      else Outcome(Table(if p.bucket == [] then s.metrics - {t} else s.metrics[t := b], p.lastTime, p.dispatched), false)
    else Outcome(s.(metrics := s.metrics - {t}), false)
  }

  /** The buckets at times `ts`, in that order, stopping at the first error. */
  function DfRun(interval: real, s: Table<Nested>, ts: seq<int>): Outcome<Table<Nested>>
    decreases |ts|
  {
    if ts == [] then Outcome(s, false)
    else
      var o := DfStep(interval, s, ts[0]);
      if o.raised then o else DfRun(interval, o.state, ts[1..])
  }

  /** What becomes of a partition's entry in one pass. */
  function PartitionAfter(m: Flat): Option<Flat> {
    if |m.entries| == 3 || m.skipped then None else Some(m.(skipped := true))
  }

  /**
   * Unless the pass raises, a partition it visits is gone when complete or
   * already marked, and is kept marked otherwise; other partitions are left alone.
   */
  lemma {:induction false} DfPartitionsLookup(interval: real, t: int, p: DfPass, todo: Dict<Flat>, k: string)
    requires Distinct(todo)
    ensures var r := DfPartitions(interval, t, p, todo);
      !r.raised ==> Lookup(r.bucket, k) == if Lookup(todo, k).Some? then PartitionAfter(Lookup(todo, k).value) else Lookup(p.bucket, k)
    decreases |todo|
  {
    LookupKeys(todo, k);
    if todo != [] && !p.raised {
      var pi := todo[0].0;
      var m := todo[0].1;
      var next :=
        if |m.entries| == 3 then
          var used := Lookup(m.entries, "df_complex.used");
          var free := Lookup(m.entries, "df_complex.free");
          if used.None? || free.None? then p.(raised := true)
          else
            var e := EmitUtilization(p.lastTime, interval, t, used.value[0], used.value[0] + free.value[0], "disk.utilization", pi);
            DfPass(Remove(p.bucket, pi), e.lastTime, Logged(p.dispatched, e), false)
        else if m.skipped then p.(bucket := Remove(p.bucket, pi))
        else p.(bucket := Put(p.bucket, pi, m.(skipped := true)));
      assert DfPartitions(interval, t, p, todo) == DfPartitions(interval, t, next, todo[1..]);
      DfPartitionsLookup(interval, t, next, todo[1..], k);
      RemoveLookup(p.bucket, pi, k);
      PutLookup(p.bucket, pi, m.(skipped := true), k);
      LookupKeys(todo[1..], k);
    }
  }

  /**
   * A pass dispatches only at time `t`, only percentages between 0 and 100,
   * only appends to the log and moves the last time no further than `t`.
   */
  lemma {:induction false} DfPartitionsKeeps(interval: real, t: int, p: DfPass, todo: Dict<Flat>)
    requires p.lastTime <= t
    ensures var r := DfPartitions(interval, t, p, todo);
      && p.lastTime <= r.lastTime <= t
      && |p.dispatched| <= |r.dispatched| && r.dispatched[..|p.dispatched|] == p.dispatched
      && (forall i | |p.dispatched| <= i < |r.dispatched| :: r.dispatched[i].time == t && 0.0 <= r.dispatched[i].value <= 100.0)
    decreases |todo|
  {
    if todo != [] && !p.raised {
      var pi := todo[0].0;
      var m := todo[0].1;
      var next :=
        if |m.entries| == 3 then
          var used := Lookup(m.entries, "df_complex.used");
          var free := Lookup(m.entries, "df_complex.free");
          if used.None? || free.None? then p.(raised := true)
          else
            var e := EmitUtilization(p.lastTime, interval, t, used.value[0], used.value[0] + free.value[0], "disk.utilization", pi);
            DfPass(Remove(p.bucket, pi), e.lastTime, Logged(p.dispatched, e), false)
        else if m.skipped then p.(bucket := Remove(p.bucket, pi))
        else p.(bucket := Put(p.bucket, pi, m.(skipped := true)));
      assert DfPartitions(interval, t, p, todo) == DfPartitions(interval, t, next, todo[1..]);
      DfPartitionsKeeps(interval, t, next, todo[1..]);
      var r := DfPartitions(interval, t, p, todo);
      forall i | |p.dispatched| <= i < |r.dispatched| ensures r.dispatched[i].time == t && 0.0 <= r.dispatched[i].value <= 100.0 {
        if i < |next.dispatched| {
          assert r.dispatched[i] == r.dispatched[..|next.dispatched|][i];
        }
      }
    }
  }

  /** A df read dispatches only for times after its last time and never moves it back. */
  lemma {:induction false} DfRunKeeps(interval: real, s: Table<Nested>, ts: seq<int>)
    ensures ReadKeeps(s, DfRun(interval, s, ts).state, ts)
    decreases |ts|
  {
    if ts != [] {
      var t := ts[0];
      var o := DfStep(interval, s, t);
      if t in s.metrics && t > s.lastTime {
        var pm := s.metrics[t];
        DfPartitionsKeeps(interval, t, DfPass(pm.entries, s.lastTime, s.dispatched, false), pm.entries);
      }
      assert ReadKeeps(s, o.state, [t]);
      if !o.raised {
        DfRunKeeps(interval, o.state, ts[1..]);
        ReadKeepsTrans(s, o.state, DfRun(interval, s, ts).state, t, ts[1..]);
        assert [t] + ts[1..] == ts;
      }
    }
  }

  /**
   * Skip once, then drop: in a bucket newer than the last time, an incomplete
   * partition is kept and marked on its first read and deleted on the next; a
   * complete one is deleted.
   */
  lemma DfSkipOnceThenDrop(interval: real, s: Table<Nested>, t: int, pi: string)
    requires t in s.metrics && t > s.lastTime && Distinct(s.metrics[t].entries)
    requires Lookup(s.metrics[t].entries, pi).Some?
    ensures var o := DfStep(interval, s, t);
      var m := Lookup(s.metrics[t].entries, pi).value;
      !o.raised ==>
        if PartitionAfter(m).None? then t !in o.state.metrics || Lookup(o.state.metrics[t].entries, pi).None?
        else t in o.state.metrics && Lookup(o.state.metrics[t].entries, pi) == Some(m.(skipped := true))
  {
    var pm := s.metrics[t];
    DfPartitionsLookup(interval, t, DfPass(pm.entries, s.lastTime, s.dispatched, false), pm.entries, pi);
    var p := DfPartitions(interval, t, DfPass(pm.entries, s.lastTime, s.dispatched, false), pm.entries);
    if p.bucket == [] {
      assert Lookup(p.bucket, pi).None?;
    }
  }

  class DfUtilization {
    var metrics: map<int, Nested>
    var lastTime: int
    var interval: real
    var dispatched: seq<Emission>

    constructor ()
      ensures metrics == map[] && lastTime == 0 && interval == 0.0 && dispatched == []
    {
      metrics := map[];
      lastTime := 0;
      interval := 0.0;
      dispatched := [];
    }

    function State(): Table<Nested>
      reads this
    {
      Table(metrics, lastTime, dispatched)
    }

    /** `write`: files a df value list under its partition and reports whether it was one. */
    method Write(v: Values) returns (matched: bool)
      modifies this`metrics, this`interval
      ensures matched == IsDfMetric(v)
      ensures metrics == if matched then AddNested(old(metrics), v) else old(metrics)
      ensures interval == if matched then NextInterval(old(interval), v) else old(interval)
    {
      matched := IsDfMetric(v);
      if matched {
        metrics := AddNested(metrics, v);
        if interval == 0.0 {
          interval := v.interval;
          if interval == 0.0 {
            interval := DefaultInterval;
          }
        }
      }
    }

    /** `read`: every bucket in time order, stopping at the first error. */
    method Read() returns (raised: bool)
      modifies this
      ensures interval == old(interval)
      ensures Outcome(State(), raised) == DfRun(interval, old(State()), Ascending(old(metrics).Keys))
    {
      ghost var start := State();
      var keys := metrics.Keys;
      while keys != {}
        invariant keys <= metrics.Keys
        invariant DfRun(interval, State(), Ascending(keys)) == DfRun(interval, start, Ascending(start.metrics.Keys))
        modifies this`metrics, this`lastTime, this`dispatched
        decreases |keys|
      {
        LeastExists(keys);
        var t :| IsLeast(t, keys);
        LeastUnique(t, keys);
        assert Ascending(keys) == [t] + Ascending(keys - {t});
        raised := ReadDfBucket(t);
        if raised {
          return;
        }
        keys := keys - {t};
      }
      raised := false;
    }

    /** One bucket of `read`: the loop over its partitions. */
    method ReadDfBucket(t: int) returns (raised: bool)
      requires t in metrics
      modifies this`metrics, this`lastTime, this`dispatched
      ensures metrics.Keys - {t} == old(metrics.Keys) - {t}
      ensures Outcome(State(), raised) == DfStep(interval, old(State()), t)
    {
      if t > lastTime {
        var pm := metrics[t];
        var todo := pm.entries;
        var bucket := pm.entries;
        ghost var start := DfPass(bucket, lastTime, dispatched, false);
        var i := 0;
        while i < |todo|
          invariant 0 <= i <= |todo|
          invariant DfPartitions(interval, t, DfPass(bucket, lastTime, dispatched, false), todo[i..]) == DfPartitions(interval, t, start, todo)
          invariant metrics == old(metrics)
          modifies this`metrics, this`lastTime, this`dispatched
        {
          assert todo[i..][0] == todo[i] && todo[i..][1..] == todo[i + 1..];
          var pi := todo[i].0;
          var m := todo[i].1;
          if |m.entries| == 3 {
            var used := Lookup(m.entries, "df_complex.used");
            var free := Lookup(m.entries, "df_complex.free");
            if used.None? || free.None? {
              metrics := metrics[t := pm.(entries := bucket)];
              return true;
            }
            var e := EmitUtilization(lastTime, interval, t, used.value[0], used.value[0] + free.value[0], "disk.utilization", pi);
            dispatched := Logged(dispatched, e);
            lastTime := e.lastTime;
            bucket := Remove(bucket, pi);
          } else if m.skipped {
            bucket := Remove(bucket, pi);
          } else {
            bucket := Put(bucket, pi, m.(skipped := true));
          }
          i := i + 1;
        }
        if bucket == [] {
          metrics := metrics - {t};
        } else {
          metrics := metrics[t := pm.(entries := bucket)];
        }
      } else {
        metrics := metrics - {t};
      }
      raised := false;
    }
  }
}
