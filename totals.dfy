// The summation tables of the SignalFx metadata plugin: cumulative totals
// across plugin instances (network octets, disk operations) and the overall
// disk utilization across partitions, with the threshold both wait for.

module MetadataTotals {
  import opened Wrappers
  import opened Dicts
  import opened MetadataUtilization

  // ---------------------------------------------------------------- threshold

  /**
   * `Total.check_threshold`: once `WaitThreshold` buckets exist, the size is
   * fixed to the largest bucket, every bucket of another size is deleted and
   * the instances of a kept bucket become the current ones. Ready from then on.
   */
  method CheckThreshold(metrics: map<int, Nested>, size: nat, current: set<string>)
    returns (ready: bool, metrics': map<int, Nested>, size': nat, current': set<string>)
    ensures ready <==> size != 0 || |metrics| >= WaitThreshold
    ensures size != 0 || !ready ==> metrics' == metrics && size' == size && current' == current
    ensures size == 0 && ready ==>
      && IsLargest(metrics, size')
      && metrics' == Kept(metrics, size')
      && (exists t | t in metrics' :: current' == Keys(metrics'[t].entries))
  {
    metrics', size', current' := metrics, size, current;
    if size != 0 {
      return true, metrics', size', current';
    }
    if |metrics| < WaitThreshold {
      return false, metrics', size', current';
    }
    size' := LargestSize(metrics);
    var keys := metrics.Keys;
    ghost var found := false;
    while keys != {}
      invariant keys <= metrics.Keys
      invariant forall t | t in metrics' :: t in metrics && metrics'[t] == metrics[t]
      invariant forall t | t in metrics :: (t in metrics' <==> t in keys || |metrics[t].entries| == size')
      invariant found ==> exists t | t in metrics && t !in keys && |metrics[t].entries| == size' :: current' == Keys(metrics[t].entries)
      invariant !found ==> forall t | t in metrics && t !in keys :: |metrics[t].entries| != size'
      decreases |keys|
    {
      Inhabited(keys);
      var t :| t in keys;
      if |metrics[t].entries| != size' {
        metrics' := metrics' - {t};
      } else {
        current' := Keys(metrics[t].entries);
        found := true;
      }
      keys := keys - {t};
    }
    ready := true;
    var kept := Kept(metrics, size');
    assert metrics'.Keys == kept.Keys by {
      forall t ensures t in metrics' <==> t in kept {
        if t in metrics {
          assert t in metrics' <==> |metrics[t].entries| == size';
        }
      }
    }
    assert forall t | t in kept :: metrics'[t] == kept[t];
    assert metrics' == kept;
  }

  /** The buckets of size `n`. */
  function Kept<V>(metrics: map<int, Bucket<V>>, n: nat): (k: map<int, Bucket<V>>)
    ensures forall t | t in k :: t in metrics && k[t] == metrics[t] && |k[t].entries| == n
    ensures forall t | t in metrics && |metrics[t].entries| == n :: t in k
  {
    map t | t in metrics && |metrics[t].entries| == n :: metrics[t]
  }

  // ---------------------------------------------------------------- totals

  /** `NetworkTotal` or `DiskTotal`. */
  datatype TotalKind = NetworkTotal | DiskTotal

  /** `total_type`: the values summed per instance. */
  function TotalType(kind: TotalKind): string {
    match kind
    case NetworkTotal => "if_octets"
    case DiskTotal => "disk_ops"
  }

  /** `metric_name`: what the total is dispatched as. */
  function TotalMetric(kind: TotalKind): string {
    match kind
    case NetworkTotal => "network.total"
    case DiskTotal => "disk_ops.total"
  }

  /** `is_metric` of the two totals. */
  predicate IsTotalMetric(kind: TotalKind, v: Values) {
    match kind
    case NetworkTotal => v.plugin == "interface" && v.typ == "if_octets"
    case DiskTotal => v.plugin == "disk" && v.typ == "disk_ops"
  }

  /** `sum(values)`. */
  function SumReals(vs: seq<real>): real {
    if vs == [] then 0.0 else SumReals(vs[..|vs| - 1]) + vs[|vs| - 1]
  }

  /** `sum(d.values())`. */
  function SumValues(d: Dict<real>): real {
    if d == [] then 0.0 else d[0].1 + SumValues(d[1..])
  }

  /** `d.get(k, 0)`. */
  function Get0(d: Dict<real>, k: string): real {
    match Lookup(d, k)
    case None => 0.0
    case Some(v) => v
  }

  /**
   * `current`: each instance's sum of its `total_type` values, in the
   * bucket's order; `None` where an instance lacks them (`KeyError`).
   */
  function Currents(m: Dict<Flat>, totalType: string): (r: Option<Dict<real>>)
    ensures r.Some? ==> |r.value| == |m| && forall i | 0 <= i < |m| :: r.value[i].0 == m[i].0
  {
    if forall i | 0 <= i < |m| :: Lookup(m[i].1.entries, totalType).Some? then
      Some(seq(|m|, i requires 0 <= i < |m| => (m[i].0, SumReals(Lookup(m[i].1.entries, totalType).value))))
    else None
  }

  /**
   * What an instance adds to its total: nothing when first seen, the whole
   * current value after a wrap (a decrease), the growth otherwise.
   */
  function DiffValue(prev: Option<real>, current: real): real {
    match prev
    case None => 0.0
    case Some(p) => if current - p < 0.0 then current else current - p
  }

  /** `diff`: each current instance with what it adds, in the same order. */
  function Diffs(prev: Dict<real>, current: Dict<real>): (d: Dict<real>)
    ensures |d| == |current| && forall i | 0 <= i < |d| :: d[i].0 == current[i].0
  {
    seq(|current|, i requires 0 <= i < |current| => (current[i].0, DiffValue(Lookup(prev, current[i].0), current[i].1)))
  }

  /** `totals[k] = totals.get(k, 0) + diff[k]` for each entry of `diff`, in order. */
  function Accumulated(totals: Dict<real>, diff: Dict<real>): Dict<real> {
    if diff == [] then totals
    else
      var acc := Accumulated(totals, diff[..|diff| - 1]);
      var e := diff[|diff| - 1];
      Put(acc, e.0, Get0(acc, e.0) + e.1)
  }

  /** With non-negative counters nothing is ever subtracted. */
  lemma DiffNonNegative(prev: Option<real>, current: real)
    requires 0.0 <= current
    ensures 0.0 <= DiffValue(prev, current)
  {
  }

  /** Setting a key changes the sum of the values by the difference. */
  lemma {:induction false} SumPut(d: Dict<real>, k: string, v: real)
    ensures SumValues(Put(d, k, v)) == SumValues(d) - Get0(d, k) + v
  {
    if d != [] && d[0].0 != k {
      SumPut(d[1..], k, v);
      assert Put(d, k, v)[1..] == Put(d[1..], k, v);
    }
  }

  lemma {:induction false} SumSnoc(d: Dict<real>, e: (string, real))
    ensures SumValues(d + [e]) == SumValues(d) + e.1
  {
    if d != [] {
      assert (d + [e])[1..] == d[1..] + [e];
      SumSnoc(d[1..], e);
    } else {
      assert [e][1..] == [];
    }
  }

  /** The sum of the totals grows by exactly the sum of the differences. */
  lemma {:induction false} AccumulatedSum(totals: Dict<real>, diff: Dict<real>)
    ensures SumValues(Accumulated(totals, diff)) == SumValues(totals) + SumValues(diff)
  {
    if diff != [] {
      var init := diff[..|diff| - 1];
      var e := diff[|diff| - 1];
      AccumulatedSum(totals, init);
      SumPut(Accumulated(totals, init), e.0, Get0(Accumulated(totals, init), e.0) + e.1);
      assert init + [e] == diff;
      SumSnoc(init, e);
    }
  }

  /** With non-negative differences no instance's total ever goes down. */
  lemma {:induction false} AccumulatedGrows(totals: Dict<real>, diff: Dict<real>, k: string)
    requires forall i | 0 <= i < |diff| :: 0.0 <= diff[i].1
    ensures Get0(totals, k) <= Get0(Accumulated(totals, diff), k)
  {
    if diff != [] {
      var init := diff[..|diff| - 1];
      var e := diff[|diff| - 1];
      AccumulatedGrows(totals, init, k);
      PutLookup(Accumulated(totals, init), e.0, Get0(Accumulated(totals, init), e.0) + e.1, k);
    }
  }

  /** With non-negative counters every difference is non-negative, so the emitted total never goes down. */
  lemma TotalNeverDecreases(totals: Dict<real>, prev: Dict<real>, current: Dict<real>, k: string)
    requires forall i | 0 <= i < |current| :: 0.0 <= current[i].1
    ensures var after := Accumulated(totals, Diffs(prev, current));
      && Get0(totals, k) <= Get0(after, k)
      && SumValues(totals) <= SumValues(after)
  {
    var diff := Diffs(prev, current);
    forall i | 0 <= i < |diff| ensures 0.0 <= diff[i].1 {
      DiffNonNegative(Lookup(prev, current[i].0), current[i].1);
    }
    AccumulatedGrows(totals, diff, k);
    AccumulatedSum(totals, diff);
    DiffsSumNonNegative(diff);
  }

  lemma {:induction false} DiffsSumNonNegative(d: Dict<real>)
    requires forall i | 0 <= i < |d| :: 0.0 <= d[i].1
    ensures 0.0 <= SumValues(d)
  {
    if d != [] {
      DiffsSumNonNegative(d[1..]);
    }
  }

  /** The state of a total table. */
  datatype TotalState = TotalState(table: Table<Nested>, size: nat, totals: Dict<real>, previous: Dict<real>)

  /**
   * One time bucket of `Total.read`: a bucket newer than the last time that
   * was already skipped once or is at least as large as the size is summed
   * per instance, the differences are added to the totals and their sum is
   * dispatched; a smaller bucket is marked skipped; an old one is deleted.
   */
  /** A bucket taken as complete: sum each instance, accumulate the differences and dispatch the total. */
  function TotalComplete(kind: TotalKind, interval: real, s: TotalState, t: int): Outcome<TotalState>
    requires t in s.table.metrics
  {
    var m := s.table.metrics[t];
    var size := if |m.entries| > s.size then |m.entries| else s.size;
    match Currents(m.entries, TotalType(kind))
    case None => Outcome(s.(size := size), true)
    case Some(current) =>
      var totals := Accumulated(s.totals, Diffs(s.previous, current));
      var e := Emission("summation", TotalMetric(kind), SumValues(totals), t, interval);
      Outcome(TotalState(Table(s.table.metrics - {t}, t, s.table.dispatched + [e]), size, totals, Update(s.previous, current)), false)
  }

  function TotalStep(kind: TotalKind, interval: real, s: TotalState, t: int): Outcome<TotalState> {
    var table := s.table;
    if t !in table.metrics then Outcome(s, false)
    else if t > table.lastTime then
      var m := table.metrics[t];
      if m.skipped || |m.entries| >= s.size then TotalComplete(kind, interval, s, t)
      else Outcome(s.(table := table.(metrics := table.metrics[t := m.(skipped := true)])), false)
    else Outcome(s.(table := table.(metrics := table.metrics - {t})), false)
  }

  /** A bucket leaves every other bucket where it was. */
  lemma TotalStepOthers(kind: TotalKind, interval: real, s: TotalState, t: int)
    ensures forall u | u != t :: u in TotalStep(kind, interval, s, t).state.table.metrics <==> u in s.table.metrics
  {
  }

  /** The buckets at times `ts`, in that order, stopping at the first error. */
  function TotalRun(kind: TotalKind, interval: real, s: TotalState, ts: seq<int>): Outcome<TotalState>
    decreases |ts|
  {
    if ts == [] then Outcome(s, false)
    else
      var o := TotalStep(kind, interval, s, ts[0]);
      if o.raised then o else TotalRun(kind, interval, o.state, ts[1..])
  }

  /**
   * A bucket that is summed dispatches the new sum of the totals, which is
   * the old sum plus what its instances add, and remembers their values.
   */
  lemma TotalStepDispatches(kind: TotalKind, interval: real, s: TotalState, t: int)
    requires t in s.table.metrics && t > s.table.lastTime
    ensures var o := TotalStep(kind, interval, s, t);
      var current := Currents(s.table.metrics[t].entries, TotalType(kind));
      (!o.raised && |o.state.table.dispatched| > |s.table.dispatched|) ==>
        && current.Some?
        && o.state.table.dispatched == s.table.dispatched + [o.state.table.dispatched[|s.table.dispatched|]]
        && o.state.table.dispatched[|s.table.dispatched|].time == t
        && o.state.table.dispatched[|s.table.dispatched|].value == SumValues(s.totals) + SumValues(Diffs(s.previous, current.value))
        && o.state.previous == Update(s.previous, current.value)
  {
    var m := s.table.metrics[t];
    var current := Currents(m.entries, TotalType(kind));
    if current.Some? {
      AccumulatedSum(s.totals, Diffs(s.previous, current.value));
    }
  }

  /** The state `check_threshold` leaves once ready, `n` being the largest bucket's size. */
  ghost function Thresholded(s: TotalState, n: nat): TotalState {
    if s.size != 0 then s
    else s.(size := n, table := s.table.(metrics := Kept(s.table.metrics, n)))
  }

  class Total {
    const kind: TotalKind
    var metrics: map<int, Nested>
    var lastTime: int
    var interval: real
    var size: nat
    var currentPluginInstances: set<string>
    var totals: Dict<real>
    var previous: Dict<real>
    var dispatched: seq<Emission>

    constructor (kind: TotalKind)
      ensures this.kind == kind && metrics == map[] && lastTime == 0 && interval == 0.0 && size == 0
      ensures currentPluginInstances == {} && totals == [] && previous == [] && dispatched == []
    {
      this.kind := kind;
      metrics := map[];
      lastTime := 0;
      interval := 0.0;
      size := 0;
      currentPluginInstances := {};
      totals := [];
      previous := [];
      dispatched := [];
    }

    function State(): TotalState
      reads this
    {
      TotalState(Table(metrics, lastTime, dispatched), size, totals, previous)
    }

    /** `write`: files a value list of this total's kind under its instance and reports whether it was one. */
    method Write(v: Values) returns (matched: bool)
      modifies this`metrics, this`interval
      ensures matched == IsTotalMetric(kind, v)
      ensures metrics == if matched then AddNested(old(metrics), v) else old(metrics)
      ensures interval == if matched then NextInterval(old(interval), v) else old(interval)
    {
      matched := IsTotalMetric(kind, v);
      if matched {
        metrics := AddNested(metrics, v);
        if interval == 0.0 {
          interval := v.interval;
          if interval == 0.0 {
            interval := DefaultInterval;
          }
        }
      }
    }

    /** `read`: nothing before the threshold, then every bucket in time order. */
    method Read() returns (raised: bool)
      modifies this
      ensures interval == old(interval)
      ensures old(size) == 0 && |old(metrics)| < WaitThreshold ==> !raised && State() == old(State())
      ensures old(size) != 0 || |old(metrics)| >= WaitThreshold ==>
        exists n: nat | old(size) == 0 ==> IsLargest(old(metrics), n) ::
          var s0 := Thresholded(old(State()), n);
          Outcome(State(), raised) == TotalRun(kind, interval, s0, Ascending(s0.table.metrics.Keys))
    {
      var ready;
      ready, metrics, size, currentPluginInstances := CheckThreshold(metrics, size, currentPluginInstances);
      if !ready {
        return false;
      }
      ghost var start := State();
      assert start == Thresholded(old(State()), size);
      raised := ReadBuckets();
    }

    /** The loop of `read` over the buckets, oldest first, ending at the first error. */
    method ReadBuckets() returns (raised: bool)
      modifies this`metrics, this`lastTime, this`dispatched, this`size, this`totals, this`previous
      ensures Outcome(State(), raised) == TotalRun(kind, interval, old(State()), Ascending(old(metrics).Keys))
    {
      ghost var start := State();
      var keys := metrics.Keys;
      while keys != {}
        invariant keys <= metrics.Keys
        invariant TotalRun(kind, interval, State(), Ascending(keys)) == TotalRun(kind, interval, start, Ascending(start.table.metrics.Keys))
        decreases |keys|
      {
        LeastExists(keys);
        var t :| IsLeast(t, keys);
        LeastUnique(t, keys);
        assert Ascending(keys) == [t] + Ascending(keys - {t});
        ghost var before := State();
        raised := ReadTotalBucket(t);
        TotalStepOthers(kind, interval, before, t);
        if raised {
          return;
        }
        keys := keys - {t};
      }
      raised := false;
    }

    /** One bucket of `read`. */
    method ReadTotalBucket(t: int) returns (raised: bool)
      requires t in metrics
      modifies this`metrics, this`lastTime, this`dispatched, this`size, this`totals, this`previous
      ensures Outcome(State(), raised) == TotalStep(kind, interval, old(State()), t)
    {
      raised := false;
      if t > lastTime {
        var m := metrics[t];
        if m.skipped || |m.entries| >= size {
          raised := ReadCompleteBucket(t);
        } else {
          metrics := metrics[t := m.(skipped := true)];
        }
      } else {
        metrics := metrics - {t};
      }
    }

    /** The branch of `read` for a bucket taken as complete. */
    method ReadCompleteBucket(t: int) returns (raised: bool)
      requires t in metrics
      modifies this`metrics, this`lastTime, this`dispatched, this`size, this`totals, this`previous
      ensures Outcome(State(), raised) == TotalComplete(kind, interval, old(State()), t)
    {
      var m := metrics[t];
      if |m.entries| > size {
        size := |m.entries|;
      }
      var current := CurrentSums(m.entries, TotalType(kind));
      if current.None? {
        return true;
      }
      var diff := DiffsOf(previous, current.value);
      totals, previous := AddDiffs(totals, previous, diff, current.value);
      dispatched := dispatched + [Emission("summation", TotalMetric(kind), SumValues(totals), t, interval)];
      lastTime := t;
      metrics := metrics - {t};
      raised := false;
    }
  }

  /** The loop building `current`. */
  method CurrentSums(m: Dict<Flat>, totalType: string) returns (current: Option<Dict<real>>)
    ensures current == Currents(m, totalType)
  {
    var acc: Dict<real> := [];
    var i := 0;
    while i < |m|
      invariant 0 <= i <= |m|
      invariant forall j | 0 <= j < i :: Lookup(m[j].1.entries, totalType).Some?
      invariant acc == seq(i, j requires 0 <= j < i => (m[j].0, SumReals(Lookup(m[j].1.entries, totalType).value)))
    {
      var values := Lookup(m[i].1.entries, totalType);
      if values.None? {
        return None;
      }
      acc := acc + [(m[i].0, SumReals(values.value))];
      i := i + 1;
    }
    current := Some(acc);
  }

  /** The loop building `diff`. */
  method DiffsOf(prev: Dict<real>, current: Dict<real>) returns (diff: Dict<real>)
    ensures diff == Diffs(prev, current)
  {
    diff := [];
    var i := 0;
    while i < |current|
      invariant 0 <= i <= |current|
      invariant diff == seq(i, j requires 0 <= j < i => (current[j].0, DiffValue(Lookup(prev, current[j].0), current[j].1)))
    {
      var k := current[i].0;
      var v := 0.0;
      var p := Lookup(prev, k);
      if p.Some? {
        v := current[i].1 - p.value;
        if v < 0.0 {
          v := current[i].1;
        }
      }
      diff := diff + [(k, v)];
      i := i + 1;
    }
  }

  /** The loop adding `diff` to the totals and remembering `current`. */
  method AddDiffs(totals: Dict<real>, previous: Dict<real>, diff: Dict<real>, current: Dict<real>)
    returns (totals': Dict<real>, previous': Dict<real>)
    requires |diff| == |current| && forall i | 0 <= i < |diff| :: diff[i].0 == current[i].0
    ensures totals' == Accumulated(totals, diff)
    ensures previous' == Update(previous, current)
  {
    totals', previous' := totals, previous;
    var i := 0;
    while i < |diff|
      invariant 0 <= i <= |diff|
      invariant totals' == Accumulated(totals, diff[..i])
      invariant previous' == Update(previous, current[..i])
    {
      var k := diff[i].0;
      assert diff[..i + 1][..i] == diff[..i] && current[..i + 1][..i] == current[..i];
      totals' := Put(totals', k, Get0(totals', k) + diff[i].1);
      previous' := Put(previous', k, current[i].1);
      i := i + 1;
    }
    assert diff[..i] == diff && current[..i] == current;
  }

  // ---------------------------------------------------------------- df summary

  /** The running sums and flags of one pass of `DfTotalUtilization.read` over a bucket. */
  datatype SummaryPass = SummaryPass(used: real, free: real, emit: bool, delete: bool, skipped: bool, raised: bool)

  /**
   * The current partitions among `todo`, in order: a complete one (three
   * values) adds its used and free bytes, raising `KeyError` when one of
   * them is missing; an incomplete one cancels the dispatch and, the first
   * time, marks the bucket and keeps it, or else ends the pass.
   */
  function SummaryPartitions(current: set<string>, p: SummaryPass, todo: Dict<Flat>): SummaryPass
    decreases |todo|
  {
    if todo == [] then p
    else if todo[0].0 !in current then SummaryPartitions(current, p, todo[1..])
    else
      var m := todo[0].1;
      if |m.entries| == 3 then
        var used := Lookup(m.entries, "df_complex.used");
        var free := Lookup(m.entries, "df_complex.free");
        if used.None? || free.None? then p.(raised := true)
        else SummaryPartitions(current, p.(used := p.used + used.value[0], free := p.free + free.value[0]), todo[1..])
      else if p.skipped then p.(emit := false)
      else SummaryPartitions(current, p.(emit := false, skipped := true, delete := false), todo[1..])
  }

  /** The instances being listened for, those on probation, and the size. */
  datatype Probation = Probation(current: set<string>, probation: set<string>, size: nat)

  /**
   * The missing instances `difference` of a bucket skipped before: one
   * already on probation is dropped (and the size becomes the number left),
   * any other is put on probation.
   */
  function Probate(p: Probation, difference: set<string>): Probation {
    var dropped := difference * p.probation;
    Probation(p.current - dropped, (p.probation - difference) + (difference - p.probation),
              if dropped == {} then p.size else |p.current - dropped|)
  }

  /**
   * An instance missing from two skipped buckets in a row is put on
   * probation by the first and dropped by the second.
   */
  lemma ProbationTwice(p: Probation, first: set<string>, second: set<string>, d: string)
    requires d in p.current && d !in p.probation && d in first && d in second
    ensures d in Probate(p, first).current && d in Probate(p, first).probation
    ensures d !in Probate(Probate(p, first), second).current
    ensures d !in Probate(Probate(p, first), second).probation
  {
  }

  /** An instance that shows up again keeps its probation status, and no instance is ever added. */
  lemma ProbationOnlyDrops(p: Probation, difference: set<string>)
    ensures Probate(p, difference).current <= p.current
    ensures forall d | d in p.current - Probate(p, difference).current :: d in difference && d in p.probation
    ensures forall d | d !in difference :: (d in Probate(p, difference).probation <==> d in p.probation)
  {
  }

  /** The state of the df summary table. */
  datatype SummaryState = SummaryState(table: Table<Nested>, size: nat, current: set<string>, probation: set<string>)

  /**
   * One time bucket of `DfTotalUtilization.read`. A bucket holding all the
   * current partitions (adopting its partitions when it holds more) is summed
   * and, unless incomplete, dispatches used over used plus free as
   * `disk.summary_utilization`; a bucket missing some is marked the first
   * time and, the next time, probates the missing ones and is deleted.
   */
  /** A bucket holding every partition listened for: sum them, then emit, keep or drop it. */
  function SummaryCovered(interval: real, s: SummaryState, t: int): Outcome<SummaryState>
    requires t in s.table.metrics
  {
    var table := s.table;
    var pm := table.metrics[t];
    var keys := Keys(pm.entries);
    var grown := s.current < keys;
    var size := if grown then |pm.entries| else s.size;
    var current := if grown then keys else s.current;
    var p := SummaryPartitions(current, SummaryPass(0.0, 0.0, true, true, pm.skipped, false), pm.entries);
    var marked := table.metrics[t := pm.(skipped := p.skipped)];
    if p.raised then Outcome(SummaryState(table.(metrics := marked), size, current, s.probation), true)
    else
      var e := if p.emit then EmitUtilization(table.lastTime, interval, t, p.used, p.used + p.free, "disk.summary_utilization", "utilization")
               else Emitted(None, table.lastTime);
      var metrics := if p.delete then table.metrics - {t} else marked;
      Outcome(SummaryState(Table(metrics, e.lastTime, Logged(table.dispatched, e)), size, current, s.probation), false)
  }

  lemma CoveredCommit(interval: real, s: SummaryState, t: int, grown: bool, p: SummaryPass)
    requires t in s.table.metrics
    requires grown == (s.current < Keys(s.table.metrics[t].entries))
    requires p == SummaryPartitions(if grown then Keys(s.table.metrics[t].entries) else s.current,
                                    SummaryPass(0.0, 0.0, true, true, s.table.metrics[t].skipped, false), s.table.metrics[t].entries)
    requires !p.raised
    ensures var pm := s.table.metrics[t];
      var e := if p.emit then EmitUtilization(s.table.lastTime, interval, t, p.used, p.used + p.free, "disk.summary_utilization", "utilization")
               else Emitted(None, s.table.lastTime);
      SummaryCovered(interval, s, t) ==
        Outcome(SummaryState(Table(if p.delete then s.table.metrics - {t} else s.table.metrics[t := pm.(skipped := p.skipped)],
                                   e.lastTime, Logged(s.table.dispatched, e)),
                             if grown then |pm.entries| else s.size, if grown then Keys(pm.entries) else s.current, s.probation), false)
  {
  }

  function SummaryStep(interval: real, s: SummaryState, t: int): Outcome<SummaryState> {
    var table := s.table;
    if t !in table.metrics then Outcome(s, false)
    else if t > table.lastTime then
      var pm := table.metrics[t];
      var keys := Keys(pm.entries);
      if s.current <= keys then SummaryCovered(interval, s, t)
      else if pm.skipped then
        var pr := Probate(Probation(s.current, s.probation, s.size), s.current - keys);
        Outcome(SummaryState(table.(metrics := table.metrics - {t}), pr.size, pr.current, pr.probation), false)
      else Outcome(s.(table := table.(metrics := table.metrics[t := pm.(skipped := true)])), false)
    else Outcome(s.(table := table.(metrics := table.metrics - {t})), false)
  }

  /** The buckets at times `ts`, in that order, stopping at the first error. */
  function SummaryRun(interval: real, s: SummaryState, ts: seq<int>): Outcome<SummaryState>
    decreases |ts|
  {
    if ts == [] then Outcome(s, false)
    else
      var o := SummaryStep(interval, s, ts[0]);
      if o.raised then o else SummaryRun(interval, o.state, ts[1..])
  }

  /**
   * The partitions listened for change only in two ways: a bucket holding
   * more replaces them with its own, or an instance already on probation
   * and missing again is dropped.
   */
  lemma SummaryStepInstances(interval: real, s: SummaryState, t: int)
    ensures var o := SummaryStep(interval, s, t);
      || o.state.current == s.current
      || (t in s.table.metrics && s.current < Keys(s.table.metrics[t].entries)
          && o.state.current == Keys(s.table.metrics[t].entries) && o.state.size == |s.table.metrics[t].entries|)
      || (t in s.table.metrics && o.state.current < s.current
          && forall d | d in s.current - o.state.current :: d in s.probation && d !in Keys(s.table.metrics[t].entries))
  {
  }

  /** A summary bucket leaves every other bucket where it was. */
  lemma SummaryStepOthers(interval: real, s: SummaryState, t: int)
    ensures forall u | u != t :: u in SummaryStep(interval, s, t).state.table.metrics <==> u in s.table.metrics
  {
  }

  /** A summary bucket dispatches at most one percentage between 0 and 100, at its own time. */
  lemma SummaryStepKeeps(interval: real, s: SummaryState, t: int)
    ensures ReadKeeps(s.table, SummaryStep(interval, s, t).state.table, [t])
  {
  }

  /** A summary read dispatches only for times after its last time and never moves it back. */
  lemma {:induction false} SummaryRunKeeps(interval: real, s: SummaryState, ts: seq<int>)
    ensures ReadKeeps(s.table, SummaryRun(interval, s, ts).state.table, ts)
    decreases |ts|
  {
    if ts != [] {
      var t := ts[0];
      var o := SummaryStep(interval, s, t);
      SummaryStepKeeps(interval, s, t);
      if !o.raised {
        SummaryRunKeeps(interval, o.state, ts[1..]);
        ReadKeepsTrans(s.table, o.state.table, SummaryRun(interval, s, ts).state.table, t, ts[1..]);
        assert [t] + ts[1..] == ts;
      }
    }
  }

  /** The state `check_threshold` leaves once ready, `n` being the largest bucket's size. */
  ghost function SummaryThresholded(s: SummaryState, n: nat): SummaryState {
    if s.size != 0 then s
    else s.(size := n, table := s.table.(metrics := Kept(s.table.metrics, n)))
  }

  class DfTotalUtilization {
    var metrics: map<int, Nested>
    var lastTime: int
    var interval: real
    var size: nat
    var currentPluginInstances: set<string>
    var probationPluginInstances: set<string>
    var dispatched: seq<Emission>

    constructor ()
      ensures metrics == map[] && lastTime == 0 && interval == 0.0 && size == 0
      ensures currentPluginInstances == {} && probationPluginInstances == {} && dispatched == []
    {
      metrics := map[];
      lastTime := 0;
      interval := 0.0;
      size := 0;
      currentPluginInstances := {};
      probationPluginInstances := {};
      dispatched := [];
    }

    function State(): SummaryState
      reads this
    {
      SummaryState(Table(metrics, lastTime, dispatched), size, currentPluginInstances, probationPluginInstances)
    }

    /** `write`: files a df value list under its partition and reports whether it was one. */
    method Write(v: Values) returns (matched: bool)
      modifies this`metrics, this`interval
      ensures matched == IsDfMetric(v)
      ensures metrics == if matched then AddNested(old(metrics), v) else old(metrics)
      ensures interval == if matched then NextInterval(old(interval), v) else old(interval)
    {
      matched := IsDfMetric(v);
      if matched {
        metrics := AddNested(metrics, v);
        if interval == 0.0 {
          interval := v.interval;
          if interval == 0.0 {
            interval := DefaultInterval;
          }
        }
      }
    }

    /** `read`: nothing before the threshold, then every bucket in time order. */
    method Read() returns (raised: bool)
      modifies this
      ensures interval == old(interval)
      ensures old(size) == 0 && |old(metrics)| < WaitThreshold ==> !raised && State() == old(State())
      ensures old(size) != 0 || |old(metrics)| >= WaitThreshold ==>
        exists n: nat | old(size) == 0 ==> IsLargest(old(metrics), n) ::
          exists c: set<string> |
            && (old(size) != 0 ==> c == old(currentPluginInstances))
            && (old(size) == 0 ==> exists t | t in Kept(old(metrics), n) :: c == Keys(Kept(old(metrics), n)[t].entries)) ::
            var s0 := SummaryThresholded(old(State()), n).(current := c);
            Outcome(State(), raised) == SummaryRun(interval, s0, Ascending(s0.table.metrics.Keys))
    {
      var ready;
      ready, metrics, size, currentPluginInstances := CheckThreshold(metrics, size, currentPluginInstances);
      if !ready {
        return false;
      }
      ghost var start := State();
      assert start == SummaryThresholded(old(State()), size).(current := currentPluginInstances);
      raised := ReadBuckets();
    }

    /** The loop of `read` over the buckets, oldest first, ending at the first error. */
    method ReadBuckets() returns (raised: bool)
      modifies this`metrics, this`lastTime, this`dispatched, this`size, this`currentPluginInstances, this`probationPluginInstances
      ensures Outcome(State(), raised) == SummaryRun(interval, old(State()), Ascending(old(metrics).Keys))
    {
      ghost var start := State();
      var keys := metrics.Keys;
      while keys != {}
        invariant keys <= metrics.Keys
        invariant SummaryRun(interval, State(), Ascending(keys)) == SummaryRun(interval, start, Ascending(start.table.metrics.Keys))
        decreases |keys|
      {
        LeastExists(keys);
        var t :| IsLeast(t, keys);
        LeastUnique(t, keys);
        assert Ascending(keys) == [t] + Ascending(keys - {t});
        ghost var before := State();
        raised := ReadSummaryBucket(t);
        SummaryStepOthers(interval, before, t);
        if raised {
          return;
        }
        keys := keys - {t};
      }
      raised := false;
    }

    /** One bucket of `read`. */
    method ReadSummaryBucket(t: int) returns (raised: bool)
      requires t in metrics
      modifies this`metrics, this`lastTime, this`dispatched, this`size, this`currentPluginInstances, this`probationPluginInstances
      ensures Outcome(State(), raised) == SummaryStep(interval, old(State()), t)
    {
      raised := false;
      if t <= lastTime {
        metrics := metrics - {t};
        return;
      }
      var pm := metrics[t];
      var keys := KeysOf(pm.entries);
      if currentPluginInstances <= keys {
        raised := ReadCoveredBucket(t, keys);
      } else if pm.skipped {
        currentPluginInstances, probationPluginInstances, size :=
          ProbateAll(currentPluginInstances, probationPluginInstances, size, currentPluginInstances - keys);
        metrics := metrics - {t};
      } else {
        metrics := metrics[t := pm.(skipped := true)];
      }
    }

    /** The branch of `read` for a bucket holding every partition listened for. */
    method ReadCoveredBucket(t: int, keys: set<string>) returns (raised: bool)
      requires t in metrics && keys == Keys(metrics[t].entries) && currentPluginInstances <= keys
      modifies this`metrics, this`lastTime, this`dispatched, this`size, this`currentPluginInstances
      ensures Outcome(State(), raised) == SummaryCovered(interval, old(State()), t)
    {
      ghost var s0 := State();
      var pm := metrics[t];
      var grown := currentPluginInstances < keys;
      size := if grown then |pm.entries| else size;
      currentPluginInstances := if grown then keys else currentPluginInstances;
      var p := SumPartitions(currentPluginInstances, pm);
      var marked := metrics[t := pm.(skipped := p.skipped)];
      assert p == SummaryPartitions(currentPluginInstances, SummaryPass(0.0, 0.0, true, true, pm.skipped, false), pm.entries);
      if p.raised {
        metrics := marked;
        assert State() == SummaryState(s0.table.(metrics := marked), size, currentPluginInstances, s0.probation);
        return true;
      }
      CoveredCommit(interval, s0, t, grown, p);
      var e := if p.emit then EmitUtilization(lastTime, interval, t, p.used, p.used + p.free, "disk.summary_utilization", "utilization")
               else Emitted(None, lastTime);
      dispatched := Logged(dispatched, e);
      lastTime := e.lastTime;
      metrics := if p.delete then metrics - {t} else marked;
      raised := false;
    }
  }

  /** `set(pm.keys())`. */
  method KeysOf<V>(d: Dict<V>) returns (keys: set<string>)
    ensures keys == Keys(d)
    ensures forall k :: k in keys <==> Lookup(d, k).Some?
  {
    keys := {};
    var i := |d|;
    while i > 0
      invariant 0 <= i <= |d|
      invariant keys == Keys(d[i..])
    {
      i := i - 1;
      assert d[i..][0] == d[i] && d[i..][1..] == d[i + 1..];
      keys := keys + {d[i].0};
    }
    forall k ensures k in keys <==> Lookup(d, k).Some? {
      LookupKeys(d, k);
    }
  }

  /** The loop over the current partitions of a bucket, in the bucket's order. */
  method SumPartitions(current: set<string>, pm: Nested) returns (p: SummaryPass)
    ensures p == SummaryPartitions(current, SummaryPass(0.0, 0.0, true, true, pm.skipped, false), pm.entries)
  {
    var todo := pm.entries;
    p := SummaryPass(0.0, 0.0, true, true, pm.skipped, false);
    ghost var start := p;
    var i := 0;
    while i < |todo|
      invariant 0 <= i <= |todo|
      invariant !p.raised
      invariant SummaryPartitions(current, p, todo[i..]) == SummaryPartitions(current, start, todo)
    {
      assert todo[i..][0] == todo[i] && todo[i..][1..] == todo[i + 1..];
      var m := todo[i].1;
      if todo[i].0 in current {
        if |m.entries| == 3 {
          var used := Lookup(m.entries, "df_complex.used");
          var free := Lookup(m.entries, "df_complex.free");
          if used.None? || free.None? {
            return p.(raised := true);
          }
          p := p.(used := p.used + used.value[0], free := p.free + free.value[0]);
        } else if p.skipped {
          return p.(emit := false);
        } else {
          p := p.(emit := false, skipped := true, delete := false);
        }
      }
      i := i + 1;
    }
  }

  /** The probation loop over the missing instances, in any order. */
  method ProbateAll(current: set<string>, probation: set<string>, size: nat, difference: set<string>)
    returns (current': set<string>, probation': set<string>, size': nat)
    ensures Probation(current', probation', size') == Probate(Probation(current, probation, size), difference)
  {
    current', probation', size' := current, probation, size;
    var todo := difference;
    ghost var done: set<string> := {};
    while todo != {}
      invariant todo !! done && todo + done == difference
      invariant Probation(current', probation', size') == Probate(Probation(current, probation, size), done)
      decreases |todo|
    {
      var d := Pick(todo);
      assert d !in done;
      ProbateOneMore(Probation(current, probation, size), done, d);
      current', probation', size' := ProbateOne(current', probation', size', d);
      todo := todo - {d};
      done := done + {d};
    }
    assert done == difference;
  }

  /** One pass of the probation loop: an instance on probation is dropped, any other is put on probation. */
  function ProbateStep(q: Probation, d: string): Probation {
    if d in q.probation then Probation(q.current - {d}, q.probation - {d}, |q.current - {d}|)
    else Probation(q.current, q.probation + {d}, q.size)
  }

  /** The body of the probation loop for the missing instance `d`. */
  method ProbateOne(current: set<string>, probation: set<string>, size: nat, d: string)
    returns (current': set<string>, probation': set<string>, size': nat)
    ensures Probation(current', probation', size') == ProbateStep(Probation(current, probation, size), d)
  {
    current', probation', size' := current, probation, size;
    if d in probation' {
      current' := current' - {d};
      size' := |current'|;
      probation' := probation' - {d};
    } else {
      probation' := probation' + {d};
    }
  }

  /** Handling one more missing instance `d` is one step of the probation loop. */
  lemma ProbateOneMore(p: Probation, done: set<string>, d: string)
    requires d !in done
    ensures Probate(p, done + {d}) == ProbateStep(Probate(p, done), d)
  {
    var q := Probate(p, done);
    var r := Probate(p, done + {d});
    assert d in q.probation <==> d in p.probation;
    ToggleOneMore(p.probation, done, d);
    if d in p.probation {
      DropOneMore(p.current, p.probation, done, d);
    } else {
      assert (done + {d}) * p.probation == done * p.probation;
    }
  }

  /** The instances on probation after one more missing instance: it leaves probation if it was on it, else joins it. */
  lemma ToggleOneMore(probation: set<string>, done: set<string>, d: string)
    requires d !in done
    ensures var before := (probation - done) + (done - probation);
      (probation - (done + {d})) + ((done + {d}) - probation) == if d in probation then before - {d} else before + {d}
  {
    var before := (probation - done) + (done - probation);
    var after := (probation - (done + {d})) + ((done + {d}) - probation);
    var expected := if d in probation then before - {d} else before + {d};
    forall x ensures x in after <==> x in expected {
    }
  }

  /** An instance already on probation and missing once more is dropped from the current ones. */
  lemma DropOneMore(current: set<string>, probation: set<string>, done: set<string>, d: string)
    requires d !in done && d in probation
    ensures (done + {d}) * probation == done * probation + {d}
    ensures current - (done + {d}) * probation == (current - done * probation) - {d}
  {
    assert (done + {d}) * probation == done * probation + {d};
  }

  /** Some member of a non-empty set of names, as Python's set iteration yields one. */
  method Pick(s: set<string>) returns (d: string)
    requires s != {}
    ensures d in s
  {
    if forall k :: k !in s {
      assert false;
    }
    d :| d in s;
  }

}
