/**
 * The collectd plugin that receives DogStatsD metrics and passes them on, either
 * to collectd as value lists or straight to SignalFx: the plugin's configuration,
 * the turning of DogStatsD tags into dimensions, the sanitising and serialising
 * of dimensions for collectd's plugin instance, and the two senders.
 *
 * The UDP server and the aggregator that turn packets into metrics are not part
 * of this model; a metric reaches the senders as the dictionary the aggregator
 * flushes, with its `type`, `metric`, `tags` and `points` entries.
 */
module CollectdDogstatsd {
  import opened Wrappers
  import opened Text
  import opened CollectdConfig
  import opened Dicts

  const PluginName: string := "dogstatsd"
  const DefaultIp: string := "0.0.0.0"
  const MaxRecvSize: int := 65535
  const IngestUrl: string := "https://ingest.signalfx.com"
  /** `dogstatsd.DOGSTATSD_AGGREGATOR_BUCKET_SIZE`, in seconds. */
  const AggregatorBucketSize: int := 10
  /** `dogstatsd.UDP_SOCKET_TIMEOUT`, in seconds. */
  const UdpSocketTimeout: int := 5

  // ---------------------------------------------------------------- types

  /** `DOG_STATSD_TYPE_TO_COLLECTD_TYPE` with its `gauge` fallback: only a rate becomes something else. */
  function CollectdType(ddType: string): (t: string)
    ensures t == "absolute" <==> ddType == "rate"
    ensures t == "gauge" <==> ddType != "rate"
  {
    if ddType == "gauge" then "gauge"
    else if ddType == "rate" then "absolute"
    else "gauge"
  }

  // ---------------------------------------------------------------- dimensions

  /** The characters a collectd plugin instance must not carry inside a dimension. */
  predicate Invalid(c: char) {
    c == '[' || c == ']' || c == ',' || c == '=' || c == ':'
  }

  /** `filter_signalfx_dimension`: every invalid character becomes `_`, every other is kept. */
  function FilterSignalfxDimension(s: string): (r: string)
    ensures |r| == |s|
    ensures forall i | 0 <= i < |s| :: r[i] == if Invalid(s[i]) then '_' else s[i]
  {
    if s == [] then []
    else
      var c := s[|s| - 1];
      FilterSignalfxDimension(s[..|s| - 1]) + [if Invalid(c) then '_' else c]
  }

  /** The output carries no invalid character. */
  lemma FilterClean(s: string)
    ensures forall i | 0 <= i < |s| :: !Invalid(FilterSignalfxDimension(s)[i])
  {
  }

  /** Filtering a filtered dimension changes nothing. */
  lemma FilterIdempotent(s: string)
    ensures FilterSignalfxDimension(FilterSignalfxDimension(s)) == FilterSignalfxDimension(s)
  {
    var r := FilterSignalfxDimension(s);
    assert forall i | 0 <= i < |r| :: FilterSignalfxDimension(r)[i] == r[i];
  }

  /** A dimension with no invalid character passes unchanged. */
  lemma FilterUnchanged(s: string)
    requires forall i | 0 <= i < |s| :: !Invalid(s[i])
    ensures FilterSignalfxDimension(s) == s
  {
    assert forall i | 0 <= i < |s| :: FilterSignalfxDimension(s)[i] == s[i];
  }

  /**
   * One tag split at its first colon: `None` for a bare label. The source's
   * second guard, for a split into neither one nor two parts, is kept although
   * `split(":", 1)` never yields anything else (see `TagSplitsInOneOrTwo`).
   */
  function TagPair(tag: string): (p: Option<(string, string)>)
    ensures p.None? <==> ':' !in tag
    ensures p.Some? ==> ':' !in p.value.0 && tag == p.value.0 + ":" + p.value.1
  {
    var parts := SplitOnce(tag, ':');
    if |parts| == 1 then None
    else if |parts| != 2 then None
    else Some((parts[0], parts[1]))
  }

  /** The malformed-tag branch of `dims_from_tags` cannot be taken: a split at the first colon has one or two parts. */
  lemma TagSplitsInOneOrTwo(tag: string)
    ensures var parts := SplitOnce(tag, ':');
      && (|parts| == 1 ==> parts == [tag])
      && (|parts| != 1 ==> |parts| == 2 && parts[0] + ":" + parts[1] == tag)
  {
  }

  /** The dimensions of a list of tags: each tag with a colon sets its key, later tags winning. */
  function Dims(tags: seq<string>): Dict<string> {
    if tags == [] then []
    else
      var d := Dims(tags[..|tags| - 1]);
      var p := TagPair(tags[|tags| - 1]);
      if p.None? then d else Put(d, p.value.0, p.value.1)
  }

  /** `dims_from_tags`: `None` and the empty list both give no dimensions. */
  function DimsFromTags(tags: Option<seq<string>>): (d: Dict<string>)
    ensures tags.None? || tags.value == [] ==> d == []
  {
    if tags.None? then [] else Dims(tags.value)
  }

  /** Each key of the dimensions appears once. */
  lemma {:induction false} DimsDistinct(tags: seq<string>)
    ensures Distinct(Dims(tags))
  {
    if tags != [] {
      DimsDistinct(tags[..|tags| - 1]);
      var p := TagPair(tags[|tags| - 1]);
      if p.Some? {
        PutDistinct(Dims(tags[..|tags| - 1]), p.value.0, p.value.1);
      }
    }
  }

  /** A key is present exactly when some tag with a colon names it. */
  lemma DimsKeys(tags: seq<string>, k: string)
    ensures Lookup(Dims(tags), k).Some? <==> exists i | 0 <= i < |tags| :: Names(tags[i], k)
  {
    if Lookup(Dims(tags), k).Some? {
      var i := DimsKeyWitness(tags, k);
    } else {
      forall i | 0 <= i < |tags| ensures !Names(tags[i], k) {
        DimsKeyNamed(tags, k, i);
      }
    }
  }

  /** A tag naming the key puts it in the dimensions. */
  lemma {:induction false} DimsKeyNamed(tags: seq<string>, k: string, i: nat)
    requires i < |tags|
    ensures Names(tags[i], k) ==> Lookup(Dims(tags), k).Some?
  {
    var init := tags[..|tags| - 1];
    DimsKeysStep(tags, k);
    if i < |tags| - 1 {
      assert tags[i] == init[i];
      DimsKeyNamed(init, k, i);
    }
  }

  /** A key of the dimensions comes from a tag that names it. */
  lemma {:induction false} DimsKeyWitness(tags: seq<string>, k: string) returns (i: nat)
    requires Lookup(Dims(tags), k).Some?
    ensures i < |tags| && Names(tags[i], k)
  {
    var init := tags[..|tags| - 1];
    DimsKeysStep(tags, k);
    if Names(tags[|tags| - 1], k) {
      i := |tags| - 1;
    } else {
      i := DimsKeyWitness(init, k);
      assert tags[i] == init[i];
    }
  }

  /** The last tag adds its key to those of the tags before it. */
  lemma DimsKeysStep(tags: seq<string>, k: string)
    requires tags != []
    ensures Lookup(Dims(tags), k).Some? <==> Lookup(Dims(tags[..|tags| - 1]), k).Some? || Names(tags[|tags| - 1], k)
  {
    var p := TagPair(tags[|tags| - 1]);
    if p.Some? {
      PutLookup(Dims(tags[..|tags| - 1]), p.value.0, p.value.1, k);
    }
  }

  /** A tag that sets the key `k`. */
  predicate Names(tag: string, k: string) {
    TagPair(tag).Some? && TagPair(tag).value.0 == k
  }

  /** The value under a key is the one of the last tag that names it. */
  lemma {:induction false} DimsLastWins(tags: seq<string>, i: nat)
    requires i < |tags| && TagPair(tags[i]).Some?
    requires forall j | i < j < |tags| :: TagPair(tags[j]).None? || TagPair(tags[j]).value.0 != TagPair(tags[i]).value.0
    ensures Lookup(Dims(tags), TagPair(tags[i]).value.0) == Some(TagPair(tags[i]).value.1)
  {
    var init := tags[..|tags| - 1];
    var key := TagPair(tags[i]).value.0;
    var last := TagPair(tags[|tags| - 1]);
    if i < |tags| - 1 {
      assert init[i] == tags[i];
      DimsLastWins(init, i);
    }
    if last.Some? {
      PutLookup(Dims(init), last.value.0, last.value.1, key);
    }
  }

  /** A value may hold further colons: only the first one separates. */
  lemma ValueKeepsColons(k: string, v: string)
    requires ':' !in k
    ensures DimsFromTags(Some([k + ":" + v])) == [(k, v)]
  {
    var tag := k + ":" + v;
    SplitOnceOf(k, ':', v);
    assert TagPair(tag) == Some((k, v));
    assert [tag][..0] == [];
    assert Dims([tag]) == Put(Dims([]), k, v);
  }

  /** One `k=v` entry of the plugin instance, both sides sanitised. */
  function DimText(d: (string, string)): string {
    FilterSignalfxDimension(d.0) + "=" + FilterSignalfxDimension(d.1)
  }

  function DimTexts(dims: Dict<string>): (r: seq<string>)
    ensures |r| == |dims| && forall i | 0 <= i < |dims| :: r[i] == DimText(dims[i])
  {
    if dims == [] then [] else DimTexts(dims[..|dims| - 1]) + [DimText(dims[|dims| - 1])]
  }

  /** `combine_dims`: nothing for no dimensions, otherwise `[k=v,...]` in the dictionary's order. */
  function CombineDims(dims: Dict<string>): string {
    if |dims| == 0 then "" else "[" + Join(DimTexts(dims), ",") + "]"
  }

  /** No dimensions give the empty text; any dimension gives a bracketed one. */
  lemma CombineDimsShape(dims: Dict<string>)
    ensures dims == [] <==> CombineDims(dims) == ""
    ensures dims != [] ==> var r := CombineDims(dims); |r| >= 2 && r[0] == '[' && r[|r| - 1] == ']'
  {
  }

  /** Reads a plugin instance back into its dimensions. */
  function ParseCombined(r: string): Dict<string> {
    if |r| < 2 then []
    else
      var parts := Split(r[1..|r| - 1], ',');
      seq(|parts|, i requires 0 <= i < |parts| =>
        var kv := SplitOnce(parts[i], '=');
        if |kv| == 2 then (kv[0], kv[1]) else (kv[0], ""))
  }

  /** An entry holds no comma, and splits at its first `=` into its sanitised key and value. */
  lemma DimTextSplits(e: (string, string))
    ensures ',' !in DimText(e)
    ensures SplitOnce(DimText(e), '=') == [FilterSignalfxDimension(e.0), FilterSignalfxDimension(e.1)]
  {
    var k, v := FilterSignalfxDimension(e.0), FilterSignalfxDimension(e.1);
    var t := DimText(e);
    FilterClean(e.0);
    FilterClean(e.1);
    assert forall j | 0 <= j < |t| :: t[j] == if j < |k| then k[j] else if j == |k| then '=' else v[j - |k| - 1];
    assert forall j | 0 <= j < |k| :: k[j] != '=';
    SplitOnceOf(k, '=', v);
  }

  /** A serialised dimension list reads back as its sanitised dimensions, in order. */
  lemma CombineDimsParses(dims: Dict<string>)
    requires dims != []
    ensures ParseCombined(CombineDims(dims))
      == seq(|dims|, i requires 0 <= i < |dims| => (FilterSignalfxDimension(dims[i].0), FilterSignalfxDimension(dims[i].1)))
  {
    var texts := DimTexts(dims);
    var r := CombineDims(dims);
    CombineDimsShape(dims);
    forall i | 0 <= i < |texts| ensures ',' !in texts[i] {
      DimTextSplits(dims[i]);
    }
    SplitJoin(texts, ',');
    assert r[1..|r| - 1] == Join(texts, ",");
    forall i | 0 <= i < |dims|
      ensures SplitOnce(texts[i], '=') == [FilterSignalfxDimension(dims[i].0), FilterSignalfxDimension(dims[i].1)]
    {
      DimTextSplits(dims[i]);
    }
  }

  /** Dimensions free of invalid characters survive the round trip unchanged. */
  lemma CombineDimsRoundTrip(dims: Dict<string>)
    requires dims != []
    requires forall i | 0 <= i < |dims| ::
      (forall j | 0 <= j < |dims[i].0| :: !Invalid(dims[i].0[j])) && (forall j | 0 <= j < |dims[i].1| :: !Invalid(dims[i].1[j]))
    ensures ParseCombined(CombineDims(dims)) == dims
  {
    CombineDimsParses(dims);
    forall i | 0 <= i < |dims|
      ensures (FilterSignalfxDimension(dims[i].0), FilterSignalfxDimension(dims[i].1)) == dims[i]
    {
      FilterUnchanged(dims[i].0);
      FilterUnchanged(dims[i].1);
    }
  }

  /** A clean dimension's entry is its key and value around `=`. */
  lemma DimTextClean(k: string, v: string)
    requires forall j | 0 <= j < |k| :: !Invalid(k[j])
    requires forall j | 0 <= j < |v| :: !Invalid(v[j])
    ensures DimText((k, v)) == k + "=" + v
  {
    FilterUnchanged(k);
    FilterUnchanged(v);
  }

  /** A single dimension is its one entry in brackets. */
  lemma CombineSingle(e: (string, string))
    ensures CombineDims([e]) == "[" + DimText(e) + "]"
  {
    var texts := DimTexts([e]);
    assert texts == [DimText(e)];
  }

  /** A single clean dimension `k: v` becomes `[k=v]`. */
  lemma CombineOne(k: string, v: string)
    requires forall j | 0 <= j < |k| :: !Invalid(k[j])
    requires forall j | 0 <= j < |v| :: !Invalid(v[j])
    ensures CombineDims([(k, v)]) == "[" + k + "=" + v + "]"
  {
    DimTextClean(k, v);
    CombineSingle((k, v));
  }

  /** The single dimension `country: china` becomes `[country=china]`. */
  lemma CombineDimsExample()
    ensures CombineDims([("country", "china")]) == "[country=china]"
  {
    CombineOne("country", "china");
  }

  // ---------------------------------------------------------------- configuration

  /**
   * `DogstatsDConfig`: the plugin's settings. `IP`, `IngestEndpoint` and `Token`
   * keep the configuration value as given; `DogStatsDPort`, `MaxPacket` and
   * `Interval` go through `int()`, `Verbose` and `collectdsend` through `bool()`.
   */
  class DogstatsDConfig {
    var udpTimeout: int
    var listenPort: Option<int>
    var verboseLogging: bool
    var listenIp: ConfigValue
    var maxRecvSize: int
    var aggregatorInterval: int
    var ingestEndpoint: ConfigValue
    var apiToken: ConfigValue
    var collectdSend: bool

    constructor (timeout: int)
      ensures Settings() == DefaultSettings(timeout)
    {
      udpTimeout := timeout;
      listenPort := None;
      verboseLogging := false;
      listenIp := Str(DefaultIp);
      maxRecvSize := MaxRecvSize;
      aggregatorInterval := AggregatorBucketSize;
      ingestEndpoint := Str(IngestUrl);
      apiToken := Str("");
      collectdSend := false;
    }

    function Settings(): DdSettings
      reads this
    {
      DdSettings(udpTimeout, listenPort, verboseLogging, listenIp, maxRecvSize, aggregatorInterval,
                 ingestEndpoint, apiToken, collectdSend)
    }

    /** `configure_callback`: each child in turn; an `int()` that fails or a missing value raises and ends the walk. */
    method ConfigureCallback(children: seq<ConfigNode>) returns (raised: bool)
      modifies this
      ensures (Settings(), raised) == ApplyAll(old(Settings()), children)
    {
      var i := 0;
      while i < |children|
        invariant 0 <= i <= |children|
        invariant ApplyAll(old(Settings()), children[..i]) == (Settings(), false)
      {
        ApplyAllAdvance(old(Settings()), children, i, Settings());
        var node := children[i];
        var key := node.key;
        if KnownDdKey(key) {
          if node.values == [] {
            return true;
          }
          var v := node.values[0];
          if key == "DogStatsDPort" || key == "MaxPacket" || key == "Interval" {
            var n := ToInt(v);
            if n.None? {
              return true;
            }
            if key == "DogStatsDPort" {
              listenPort := Some(n.value);
            } else if key == "MaxPacket" {
              maxRecvSize := n.value;
            } else {
              aggregatorInterval := n.value;
            }
          } else if key == "IP" {
            listenIp := v;
          } else if key == "Verbose" {
            verboseLogging := Truthy(v);
          } else if key == "IngestEndpoint" {
            ingestEndpoint := v;
          } else if key == "Token" {
            apiToken := v;
          } else {
            collectdSend := Truthy(v);
          }
        }
        i := i + 1;
      }
      assert children[..i] == children;
      raised := false;
    }
  }

  /** The settings of a `DogstatsDConfig`, as a value. */
  datatype DdSettings = DdSettings(
    udpTimeout: int, listenPort: Option<int>, verboseLogging: bool, listenIp: ConfigValue, maxRecvSize: int,
    aggregatorInterval: int, ingestEndpoint: ConfigValue, apiToken: ConfigValue, collectdSend: bool)

  function DefaultSettings(timeout: int): DdSettings {
    DdSettings(timeout, None, false, Str(DefaultIp), MaxRecvSize, AggregatorBucketSize, Str(IngestUrl), Str(""), false)
  }

  /** The keys `configure_callback` acts on; the comparison is case-sensitive. */
  predicate KnownDdKey(key: string) {
    key in {"DogStatsDPort", "IP", "Verbose", "MaxPacket", "Interval", "IngestEndpoint", "Token", "collectdsend"}
  }

  /** One child node: the settings after it, or `None` where the source raises. */
  function ApplyOption(s: DdSettings, node: ConfigNode): (r: Option<DdSettings>)
    ensures !KnownDdKey(node.key) ==> r == Some(s)
    ensures KnownDdKey(node.key) && node.values == [] ==> r == None
    ensures r.Some? ==> r.value.udpTimeout == s.udpTimeout
    ensures r.Some? && node.key != "DogStatsDPort" ==> r.value.listenPort == s.listenPort
    ensures r.Some? && node.key != "MaxPacket" ==> r.value.maxRecvSize == s.maxRecvSize
    ensures r.Some? && node.key != "Interval" ==> r.value.aggregatorInterval == s.aggregatorInterval
    ensures r.Some? && node.key != "IP" ==> r.value.listenIp == s.listenIp
    ensures r.Some? && node.key != "Verbose" ==> r.value.verboseLogging == s.verboseLogging
    ensures r.Some? && node.key != "IngestEndpoint" ==> r.value.ingestEndpoint == s.ingestEndpoint
    ensures r.Some? && node.key != "Token" ==> r.value.apiToken == s.apiToken
    ensures r.Some? && node.key != "collectdsend" ==> r.value.collectdSend == s.collectdSend
  {
    var key := node.key;
    if !KnownDdKey(key) then Some(s)
    else if node.values == [] then None
    else
      var v := node.values[0];
      if key == "DogStatsDPort" || key == "MaxPacket" || key == "Interval" then
        var n := ToInt(v);
        if n.None? then None
        else if key == "DogStatsDPort" then Some(s.(listenPort := Some(n.value)))
        else if key == "MaxPacket" then Some(s.(maxRecvSize := n.value))
        else Some(s.(aggregatorInterval := n.value))
      else if key == "IP" then Some(s.(listenIp := v))
      else if key == "Verbose" then Some(s.(verboseLogging := Truthy(v)))
      else if key == "IngestEndpoint" then Some(s.(ingestEndpoint := v))
      else if key == "Token" then Some(s.(apiToken := v))
      else Some(s.(collectdSend := Truthy(v)))
  }

  /** The children in order, stopping at the first that raises; the flag says whether one did. */
  function ApplyAll(s: DdSettings, children: seq<ConfigNode>): (DdSettings, bool) {
    if children == [] then (s, false)
    else
      var (t, raised) := ApplyAll(s, children[..|children| - 1]);
      if raised then (t, true)
      else
        var r := ApplyOption(t, children[|children| - 1]);
        if r.None? then (t, true) else (r.value, false)
  }

  /** Once a child has raised, later children change nothing. */
  lemma {:induction false} ApplyAllRaised(s: DdSettings, done: seq<ConfigNode>, later: seq<ConfigNode>)
    requires ApplyAll(s, done).1
    ensures ApplyAll(s, done + later) == ApplyAll(s, done)
    decreases |later|
  {
    if later == [] {
      assert done + later == done;
    } else {
      var init := later[..|later| - 1];
      ApplyAllRaised(s, done, init);
      assert (done + later)[..|done + later| - 1] == done + init;
    }
  }

  /** What one more child does to the settings so far; a raise is final. */
  lemma ApplyAllAdvance(s: DdSettings, children: seq<ConfigNode>, i: nat, t: DdSettings)
    requires i < |children| && ApplyAll(s, children[..i]) == (t, false)
    ensures var r := ApplyOption(t, children[i]);
      && (r.None? ==> ApplyAll(s, children) == (t, true))
      && (r.Some? ==> ApplyAll(s, children[..i + 1]) == (r.value, false))
  {
    assert children[..i + 1][..i] == children[..i];
    if ApplyOption(t, children[i]).None? {
      ApplyAllRaised(s, children[..i + 1], children[i + 1..]);
      assert children[..i + 1] + children[i + 1..] == children;
    }
  }

  /** `bool()` of any non-empty string is true: `Verbose "false"` switches verbose logging on. */
  lemma VerboseFalseStringIsTrue(s: DdSettings)
    ensures ApplyOption(s, ConfigNode("Verbose", [Str("false")])) == Some(s.(verboseLogging := true))
  {
  }

  // ---------------------------------------------------------------- metrics

  /**
   * A metric as the aggregator flushes it: its `type` and `metric` entries
   * (`None` where the key is missing), its `tags` (`None` where missing or
   * `None`) and its `points` (`None` where the key is missing), each a time in
   * seconds and a value.
   */
  datatype DdMetric = DdMetric(typ: Option<string>, name: Option<string>, tags: Option<seq<string>>, points: Option<seq<(real, real)>>)

  /** The value of a metric's first point, scaled by the aggregation interval for a rate. */
  function ScaledValue(m: DdMetric, interval: int): real
    requires m.typ.Some? && m.points.Some? && m.points.value != []
  {
    if m.typ.value == "rate" then m.points.value[0].1 * interval as real else m.points.value[0].1
  }

  // ---------------------------------------------------------------- collectd sender

  /** A value list dispatched to collectd; `time` is `None` where collectd stamps it. */
  datatype CdValues = CdValues(plugin: string, typ: string, typeInstance: string, pluginInstance: string,
                               time: Option<int>, values: seq<real>)

  /** What `CollectDPointSender.send_points` does with one metric. */
  datatype CdStep = CdSkipped | CdRaised | CdDispatched(v: CdValues)

  /**
   * One metric: a missing `type`, `metric` or `points` key is logged and
   * skipped, an empty list of points raises `IndexError`, which the sender does
   * not catch.
   */
  function CdStepOf(plugin: string, interval: int, m: DdMetric): CdStep {
    if m.typ.None? || m.name.None? || m.points.None? then CdSkipped
    else if m.points.value == [] then CdRaised
    else
      var parsedTime := Trunc(m.points.value[0].0);
      CdDispatched(CdValues(plugin, CollectdType(m.typ.value), m.name.value,
                            CombineDims(DimsFromTags(m.tags)),
                            if parsedTime > 0 then Some(parsedTime) else None,
                            [ScaledValue(m, interval)]))
  }

  /**
   * A metric is skipped exactly when a key is missing, raises exactly when it
   * has every key and an empty list of points, and is otherwise dispatched as its collectd
   * type and name, its tags as the plugin instance, its first point's time
   * (left to collectd unless positive once truncated) and its scaled value.
   */
  lemma CdStepMeaning(plugin: string, interval: int, m: DdMetric)
    ensures var r := CdStepOf(plugin, interval, m);
      && (r.CdSkipped? <==> m.typ.None? || m.name.None? || m.points.None?)
      && (r.CdRaised? <==> m.typ.Some? && m.name.Some? && m.points == Some([]))
      && (r.CdDispatched? ==>
        && m.typ.Some? && m.name.Some? && m.points.Some? && m.points.value != []
        && r.v.plugin == plugin
        && r.v.typ == CollectdType(m.typ.value) && r.v.typeInstance == m.name.value
        && r.v.pluginInstance == CombineDims(DimsFromTags(m.tags))
        && (r.v.time.Some? <==> Trunc(m.points.value[0].0) > 0)
        && (r.v.time.Some? ==> r.v.time.value == Trunc(m.points.value[0].0))
        && r.v.values == [ScaledValue(m, interval)])
  {
  }

  /** The value lists `send_points` dispatches for a list of metrics, and whether it raised part-way. */
  function CdSend(plugin: string, interval: int, metrics: seq<DdMetric>): (seq<CdValues>, bool) {
    if metrics == [] then ([], false)
    else CdNext(CdSend(plugin, interval, metrics[..|metrics| - 1]), CdStepOf(plugin, interval, metrics[|metrics| - 1]))
  }

  /** The effect of one more metric on what was dispatched so far: nothing once raised. */
  function CdNext(before: (seq<CdValues>, bool), step: CdStep): (seq<CdValues>, bool) {
    if before.1 then before
    else
      match step
      case CdSkipped => before
      case CdRaised => (before.0, true)
      case CdDispatched(v) => (before.0 + [v], false)
  }

  /** One more metric at the end adds its step to what was dispatched before it. */
  lemma CdSendSnoc(plugin: string, interval: int, xs: seq<DdMetric>, x: DdMetric)
    ensures CdSend(plugin, interval, xs + [x]) == CdNext(CdSend(plugin, interval, xs), CdStepOf(plugin, interval, x))
  {
    var ys := xs + [x];
    assert ys[..|ys| - 1] == xs && ys[|ys| - 1] == x;
  }

  /** The first `i + 1` metrics: the first `i`, then metric `i`. */
  lemma CdSendPrefix(plugin: string, interval: int, metrics: seq<DdMetric>, i: nat)
    requires i < |metrics|
    ensures CdSend(plugin, interval, metrics[..i + 1]) == CdNext(CdSend(plugin, interval, metrics[..i]), CdStepOf(plugin, interval, metrics[i]))
  {
    assert metrics[..i + 1] == metrics[..i] + [metrics[i]];
    CdSendSnoc(plugin, interval, metrics[..i], metrics[i]);
  }

  /** Appending a non-empty list is appending all of it but its last element, then that element. */
  lemma AppendSplit(xs: seq<DdMetric>, later: seq<DdMetric>)
    requires later != []
    ensures xs + later == (xs + later[..|later| - 1]) + [later[|later| - 1]]
  {
  }

  /** Two metric lists that dispatch alike go on dispatching alike. */
  lemma {:induction false} CdSendSameFrom(plugin: string, interval: int, a: seq<DdMetric>, b: seq<DdMetric>, later: seq<DdMetric>)
    requires CdSend(plugin, interval, a) == CdSend(plugin, interval, b)
    ensures CdSend(plugin, interval, a + later) == CdSend(plugin, interval, b + later)
    decreases |later|
  {
    if later == [] {
      assert a + later == a && b + later == b;
    } else {
      var init, last := later[..|later| - 1], later[|later| - 1];
      CdSendSameFrom(plugin, interval, a, b, init);
      AppendSplit(a, later);
      AppendSplit(b, later);
      CdSendSnoc(plugin, interval, a + init, last);
      CdSendSnoc(plugin, interval, b + init, last);
    }
  }

  /** A metric missing a key is skipped and the following ones are still dispatched. */
  lemma BadMetricSkipped(plugin: string, interval: int, metrics: seq<DdMetric>, bad: DdMetric, later: seq<DdMetric>)
    requires bad.typ.None? || bad.name.None? || bad.points.None?
    ensures CdSend(plugin, interval, metrics + [bad] + later) == CdSend(plugin, interval, metrics + later)
  {
    assert (metrics + [bad])[..|metrics|] == metrics;
    CdSendSameFrom(plugin, interval, metrics + [bad], metrics, later);
  }

  class CollectDPointSender {
    const config: DogstatsDConfig
    const plugin: string

    constructor (config: DogstatsDConfig, plugin: string)
      ensures this.config == config && this.plugin == plugin
    {
      this.config := config;
      this.plugin := plugin;
    }

    /** `send_points`: the value lists dispatched, in order, and whether an uncaught error ended the call. */
    method SendPoints(metrics: seq<DdMetric>) returns (dispatched: seq<CdValues>, raised: bool)
      ensures (dispatched, raised) == CdSend(plugin, config.aggregatorInterval, metrics)
    {
      var interval := config.aggregatorInterval;
      dispatched := [];
      var i := 0;
      while i < |metrics|
        invariant 0 <= i <= |metrics|
        invariant CdSend(plugin, interval, metrics[..i]) == (dispatched, false)
      {
        CdSendAdvance(plugin, interval, metrics, i, dispatched);
        var step := CdStepOf(plugin, interval, metrics[i]);
        match step {
          case CdSkipped =>
          case CdRaised =>
            return dispatched, true;
          case CdDispatched(v) =>
            dispatched := dispatched + [v];
        }
        i := i + 1;
      }
      assert metrics[..i] == metrics;
      raised := false;
    }
  }

  /** What one more metric does to the value lists dispatched so far; a raise is final. */
  lemma CdSendAdvance(plugin: string, interval: int, metrics: seq<DdMetric>, i: nat, dispatched: seq<CdValues>)
    requires i < |metrics| && CdSend(plugin, interval, metrics[..i]) == (dispatched, false)
    ensures match CdStepOf(plugin, interval, metrics[i])
      case CdSkipped => CdSend(plugin, interval, metrics[..i + 1]) == (dispatched, false)
      case CdRaised => CdSend(plugin, interval, metrics) == (dispatched, true)
      case CdDispatched(v) => CdSend(plugin, interval, metrics[..i + 1]) == (dispatched + [v], false)
  {
    CdSendPrefix(plugin, interval, metrics, i);
    if CdStepOf(plugin, interval, metrics[i]).CdRaised? {
      CdSendRaised(plugin, interval, metrics[..i + 1], metrics[i + 1..]);
      assert metrics[..i + 1] + metrics[i + 1..] == metrics;
    }
  }

  /** Once a metric has raised, later metrics are not looked at. */
  lemma {:induction false} CdSendRaised(plugin: string, interval: int, done: seq<DdMetric>, later: seq<DdMetric>)
    requires CdSend(plugin, interval, done).1
    ensures CdSend(plugin, interval, done + later) == CdSend(plugin, interval, done)
    decreases |later|
  {
    if later == [] {
      assert done + later == done;
    } else {
      var init := later[..|later| - 1];
      CdSendRaised(plugin, interval, done, init);
      assert (done + later)[..|done + later| - 1] == done + init;
    }
  }

  // ---------------------------------------------------------------- SignalFx sender

  /** A data point for the SignalFx client: the timestamp is in milliseconds. */
  datatype SfxPoint = SfxPoint(metric: string, dimensions: map<string, string>, timestamp: int, value: real)

  /** What `SignalfxPointSender.send_points` does with one metric. */
  datatype SfxStep = SfxSkipped | SfxWaiting | SfxRaised | SfxGauge(p: SfxPoint) | SfxCounter(p: SfxPoint)

  /** The dimensions of a metric: its tags, unsanitised, with the sender's host unless a `host` tag was given. */
  function SfxDims(host: string, m: DdMetric): map<string, string> {
    var d := AsMap(DimsFromTags(m.tags));
    if "host" in d then d else d["host" := host]
  }

  /** Every tag key reads its tag value; `host` is always present, the sender's host unless a tag gave one. */
  lemma SfxDimsMeaning(host: string, m: DdMetric, k: string)
    ensures "host" in SfxDims(host, m)
    ensures Lookup(DimsFromTags(m.tags), k).Some? ==> k in SfxDims(host, m) && Some(SfxDims(host, m)[k]) == Lookup(DimsFromTags(m.tags), k)
    ensures Lookup(DimsFromTags(m.tags), "host").None? ==> SfxDims(host, m)["host"] == host
  {
    AsMapLookup(DimsFromTags(m.tags), k);
    AsMapLookup(DimsFromTags(m.tags), "host");
  }

  /**
   * One metric: a missing key is logged and skipped; an empty host makes the
   * whole call return; then a missing `points` key is logged and skipped, and
   * an empty list of points raises `IndexError`, which is not caught. A rate
   * becomes a counter, everything else a gauge.
   */
  function SfxStepOf(host: string, interval: int, m: DdMetric): SfxStep {
    if m.typ.None? then SfxSkipped
    else
      var mtype := if CollectdType(m.typ.value) == "absolute" then "counter" else CollectdType(m.typ.value);
      if m.name.None? then SfxSkipped
      else
        var dims := SfxDims(host, m);
        if dims["host"] == "" then SfxWaiting
        else if m.points.None? then SfxSkipped
        else if m.points.value == [] then SfxRaised
        else
          var p := SfxPoint(m.name.value, dims, Trunc(m.points.value[0].0 * 1000.0), ScaledValue(m, interval));
          if mtype == "gauge" then SfxGauge(p) else SfxCounter(p)
  }

  /**
   * A metric is skipped exactly when a key is missing, stops the call exactly
   * when its host dimension is empty, becomes a counter exactly when it is a
   * rate with a host and a point, and a sent point carries the metric's name,
   * dimensions, first time in milliseconds and scaled value.
   */
  lemma SfxStepMeaning(host: string, interval: int, m: DdMetric)
    ensures var r := SfxStepOf(host, interval, m);
      && (r.SfxSkipped? <==> m.typ.None? || m.name.None? || (SfxDims(host, m)["host"] != "" && m.points.None?))
      && (r.SfxWaiting? <==> m.typ.Some? && m.name.Some? && SfxDims(host, m)["host"] == "")
      && (r.SfxCounter? <==> m.typ == Some("rate") && m.name.Some? && SfxDims(host, m)["host"] != "" && m.points.Some? && m.points.value != [])
      && ((r.SfxGauge? || r.SfxCounter?) ==>
        && m.typ.Some? && m.name.Some? && m.points.Some? && m.points.value != []
        && r.p.metric == m.name.value && r.p.dimensions == SfxDims(host, m)
        && r.p.timestamp == Trunc(m.points.value[0].0 * 1000.0) && r.p.value == ScaledValue(m, interval))
  {
    SfxDimsMeaning(host, m, "host");
  }

  /** The outcome of a call: nothing sent (waiting for a host, or raised), or the gauges and counters sent. */
  datatype SfxOutcome = Waiting | Raised | Sent(gauges: seq<SfxPoint>, counters: seq<SfxPoint>)

  /** The points gathered from a list of metrics, or the reason nothing will be sent. */
  function SfxGather(host: string, interval: int, metrics: seq<DdMetric>): SfxOutcome {
    if metrics == [] then Sent([], [])
    else
      var before := SfxGather(host, interval, metrics[..|metrics| - 1]);
      if !before.Sent? then before
      else
        match SfxStepOf(host, interval, metrics[|metrics| - 1])
        case SfxSkipped => before
        case SfxWaiting => Waiting
        case SfxRaised => Raised
        case SfxGauge(p) => Sent(before.gauges + [p], before.counters)
        case SfxCounter(p) => Sent(before.gauges, before.counters + [p])
  }

  /** Whatever is sent carries a non-empty `host` dimension, and every counter comes from a rate. */
  lemma {:induction false} SentHaveHost(host: string, interval: int, metrics: seq<DdMetric>)
    ensures var o := SfxGather(host, interval, metrics);
      o.Sent? ==>
        && (forall p | p in o.gauges + o.counters :: "host" in p.dimensions && p.dimensions["host"] != "")
        && (forall p | p in o.counters :: exists m | m in metrics :: m.typ == Some("rate") && m.name == Some(p.metric))
  {
    if metrics != [] {
      var init := metrics[..|metrics| - 1];
      SentHaveHost(host, interval, init);
      var last := metrics[|metrics| - 1];
      SfxStepMeaning(host, interval, last);
      assert forall m | m in init :: m in metrics;
    }
  }

  /** With no host known, a metric without a `host` tag stops the whole call: nothing is sent. */
  lemma {:induction false} NoHostSendsNothing(interval: int, metrics: seq<DdMetric>, i: nat)
    requires i < |metrics| && metrics[i].typ.Some? && metrics[i].name.Some?
    requires Lookup(DimsFromTags(metrics[i].tags), "host").None?
    ensures !SfxGather("", interval, metrics).Sent?
    decreases |metrics|
  {
    if i < |metrics| - 1 {
      var init := metrics[..|metrics| - 1];
      assert init[i] == metrics[i];
      NoHostSendsNothing(interval, init, i);
    } else {
      SfxDimsMeaning("", metrics[i], "host");
      SfxStepMeaning("", interval, metrics[i]);
    }
  }

  /** The tag `env:[prod]` gives the one dimension `env` with value `[prod]`. */
  lemma EnvProdTag()
    ensures DimsFromTags(Some(["env:[prod]"])) == [("env", "[prod]")]
  {
    ValueKeepsColons("env", "[prod]");
    assert "env" + ":" + "[prod]" == "env:[prod]";
  }

  /** The metric of the bracket example: a gauge tagged `env:[prod]` with one point. */
  function BracketMetric(): DdMetric {
    DdMetric(Some("gauge"), Some("m"), Some(["env:[prod]"]), Some([(1.0, 2.0)]))
  }

  /** The SignalFx path keeps a tag's brackets in the dimension value. */
  lemma SignalFxKeepsBrackets(host: string, interval: int)
    requires host != ""
    ensures var r := SfxStepOf(host, interval, BracketMetric());
      r.SfxGauge? && "env" in r.p.dimensions && r.p.dimensions["env"] == "[prod]"
  {
    var m := BracketMetric();
    var d := [("env", "[prod]")];
    EnvProdTag();
    assert DimsFromTags(m.tags) == d;
    assert Lookup(d, "env") == Some("[prod]");
    assert Lookup(d, "host") == None by {
      assert Lookup(d[1..], "host") == None;
    }
    SfxDimsMeaning(host, m, "env");
    SfxDimsMeaning(host, m, "host");
    SfxStepMeaning(host, interval, m);
  }

  /** The collectd path sanitises the same brackets in the plugin instance. */
  lemma CollectdSanitisesBrackets(interval: int)
    ensures var r := CdStepOf(PluginName, interval, BracketMetric());
      r.CdDispatched? && r.v.pluginInstance == "[env=_prod_]"
  {
    var m := BracketMetric();
    var d := [("env", "[prod]")];
    EnvProdTag();
    assert DimsFromTags(m.tags) == d;
    BracketsCombined();
    CdStepMeaning(PluginName, interval, m);
  }

  /** `{"env": "[prod]"}` combines to `[env=_prod_]`. */
  lemma BracketsCombined()
    ensures CombineDims([("env", "[prod]")]) == "[env=_prod_]"
  {
    EnvProdText();
    CombineSingle(("env", "[prod]"));
  }

  lemma EnvProdText()
    ensures DimText(("env", "[prod]")) == "env=_prod_"
  {
    FilterUnchanged("env");
    ProdSanitised();
  }

  /** Brackets are replaced by underscores. */
  lemma ProdSanitised()
    ensures FilterSignalfxDimension("[prod]") == "_prod_"
  {
    var r := FilterSignalfxDimension("[prod]");
    assert Invalid('[') && Invalid(']');
    assert !Invalid('p') && !Invalid('r') && !Invalid('o') && !Invalid('d');
    assert r[0] == '_' && r[1] == 'p' && r[2] == 'r' && r[3] == 'o' && r[4] == 'd' && r[5] == '_';
  }

  class SignalfxPointSender {
    const config: DogstatsDConfig
    var host: string

    constructor (config: DogstatsDConfig)
      ensures this.config == config && host == ""
    {
      this.config := config;
      host := "";
    }

    method SetHost(host: string)
      modifies this`host
      ensures this.host == host
    {
      this.host := host;
    }

    /** `send_points`: what reaches `sfx.send`, if anything. */
    method SendPoints(metrics: seq<DdMetric>) returns (outcome: SfxOutcome)
      ensures outcome == SfxGather(host, config.aggregatorInterval, metrics)
    {
      var gauges: seq<SfxPoint> := [];
      var counters: seq<SfxPoint> := [];
      var i := 0;
      while i < |metrics|
        invariant 0 <= i <= |metrics|
        invariant SfxGather(host, config.aggregatorInterval, metrics[..i]) == Sent(gauges, counters)
      {
        assert metrics[..i + 1][..i] == metrics[..i];
        match SfxStepOf(host, config.aggregatorInterval, metrics[i]) {
          case SfxSkipped =>
          case SfxWaiting =>
            SfxGatherStopped(host, config.aggregatorInterval, metrics[..i + 1], metrics[i + 1..]);
            assert metrics[..i + 1] + metrics[i + 1..] == metrics;
            return Waiting;
          case SfxRaised =>
            SfxGatherStopped(host, config.aggregatorInterval, metrics[..i + 1], metrics[i + 1..]);
            assert metrics[..i + 1] + metrics[i + 1..] == metrics;
            return Raised;
          case SfxGauge(p) =>
            gauges := gauges + [p];
          case SfxCounter(p) =>
            counters := counters + [p];
        }
        i := i + 1;
      }
      assert metrics[..i] == metrics;
      outcome := Sent(gauges, counters);
    }
  }

  /** Once the call has stopped, later metrics are not looked at. */
  lemma {:induction false} SfxGatherStopped(host: string, interval: int, done: seq<DdMetric>, later: seq<DdMetric>)
    requires !SfxGather(host, interval, done).Sent?
    ensures SfxGather(host, interval, done + later) == SfxGather(host, interval, done)
    decreases |later|
  {
    if later == [] {
      assert done + later == done;
    } else {
      var init := later[..|later| - 1];
      SfxGatherStopped(host, interval, done, init);
      assert (done + later)[..|done + later| - 1] == done + init;
    }
  }
}
