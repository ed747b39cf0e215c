/**
 * The collectd write plugin that forwards values to SignalFx: the character
 * whitelist for names, the reading of collectd's `types.db`, the plugin's
 * configuration, and the plugin object with its bounded queue, its `write`
 * callback, its `shutdown` callback, one iteration of a flushing worker's drain
 * loop and its self-monitoring counters.
 *
 * Threads and locks are not modelled: each operation runs as one sequential
 * step. The uploader's HTTP calls are oracles: the registration call is a
 * function from the series to register to one flag per reply entry.
 */
module CollectdToSf {
  import opened Wrappers
  import opened Text
  import opened CollectdConfig
  import DatapointUploader

  type DataPoint = DatapointUploader.DataPoint

  const PluginName: string := "collectd-signalfx"

  // ---------------------------------------------------------------- whitelist

  /** The characters a source or metric name may keep: letters, digits and `._-:`. */
  predicate Allowed(c: char) {
    'a' <= c <= 'z' || 'A' <= c <= 'Z' || '0' <= c <= '9' || c == '.' || c == '_' || c == '-' || c == ':'
  }

  predicate AllAllowed(s: string) {
    forall i | 0 <= i < |s| :: Allowed(s[i])
  }

  /** The allowed characters of `s`, in order. */
  function KeepAllowed(s: string): (r: string)
    ensures |r| <= |s| && AllAllowed(r)
  {
    if s == [] then []
    else KeepAllowed(s[..|s| - 1]) + (if Allowed(s[|s| - 1]) then [s[|s| - 1]] else [])
  }

  lemma {:induction false} KeepAllowedUnchanged(s: string)
    requires AllAllowed(s)
    ensures KeepAllowed(s) == s
  {
    if s != [] {
      KeepAllowedUnchanged(s[..|s| - 1]);
    }
  }

  /** `whitelist_field`: strip, turn spaces into `_`, keep the allowed characters. */
  function Whitelist(field: string): string {
    KeepAllowed(Replace(Strip(field), ' ', '_'))
  }

  /** The loop of `whitelist_field`, which builds the result one kept character at a time. */
  method WhitelistField(field: string) returns (ret: string)
    ensures ret == Whitelist(field)
  {
    var f := Replace(Strip(field), ' ', '_');
    ret := "";
    var i := 0;
    while i < |f|
      invariant 0 <= i <= |f|
      invariant ret == KeepAllowed(f[..i])
    {
      assert f[..i + 1][..i] == f[..i];
      if Allowed(f[i]) {
        ret := ret + [f[i]];
      }
      i := i + 1;
    }
    assert f[..i] == f;
  }

  /** A whitelisted name holds allowed characters only. */
  lemma WhitelistAllowed(field: string)
    ensures AllAllowed(Whitelist(field))
  {
  }

  /** A string of allowed characters has no white space and no space to replace. */
  lemma AllowedIsClean(w: string)
    requires AllAllowed(w)
    ensures NoSpace(w) && Replace(w, ' ', '_') == w
  {
    assert forall i | 0 <= i < |w| :: !IsSpace(w[i]) && w[i] != ' ';
  }

  /** Whitelisting a whitelisted name changes nothing. */
  lemma WhitelistIdempotent(field: string)
    ensures Whitelist(Whitelist(field)) == Whitelist(field)
  {
    var w := Whitelist(field);
    AllowedIsClean(w);
    StripUnchanged(w);
    KeepAllowedUnchanged(w);
  }

  /** A space between two allowed words survives as `_`. */
  lemma WhitelistSpace(a: string, b: string)
    requires a != [] && b != [] && AllAllowed(a) && AllAllowed(b)
    ensures Whitelist(a + " " + b) == a + "_" + b
  {
    var s := a + " " + b;
    var t := a + "_" + b;
    AllowedIsClean(a);
    AllowedIsClean(b);
    assert s[0] == a[0] && s[|s| - 1] == b[|b| - 1];
    StripUnchanged(s);
    ReplaceConcat(a + " ", b, ' ', '_');
    ReplaceConcat(a, " ", ' ', '_');
    assert Replace(" ", ' ', '_') == "_";
    assert Replace(s, ' ', '_') == t;
    assert forall i | 0 <= i < |t| :: Allowed(t[i]);
    KeepAllowedUnchanged(t);
  }

  // ---------------------------------------------------------------- types.db

  /** The metric type a collectd data source type is sent as; `None` for an unknown type. */
  function Conversion(dsType: string): Option<string> {
    if dsType == "COUNTER" || dsType == "DERIVE" then Some("CUMULATIVE_COUNTER")
    else if dsType == "GAUGE" then Some("GAUGE")
    else if dsType == "ABSOLUTE" then Some("COUNTER")
    else None
  }

  /** One data source of a type: its name and the metric type it is sent as. */
  type Source = (string, string)

  /** One `name:TYPE:min:max` field, its trailing commas stripped; `None` where it is skipped. */
  function DataSource(field: string): Option<Source> {
    var parts := Split(RStripChar(field, ','), ':');
    if |parts| != 4 then None
    else
      var conv := Conversion(parts[1]);
      if conv.None? then None else Some((parts[0], conv.value))
  }

  /** The data sources of a line's fields after the name, skipping the unparsable ones. */
  function DataSources(fields: seq<string>): seq<Source> {
    if fields == [] then []
    else
      var init := DataSources(fields[..|fields| - 1]);
      var ds := DataSource(fields[|fields| - 1]);
      if ds.Some? then init + [ds.value] else init
  }

  /** One line of `types.db`: `None` for blank lines, comments and lines with fewer than two fields. */
  function ParseLine(line: string): Option<(string, seq<Source>)> {
    var t := Strip(line);
    if t == "" || t[0] == '#' then None
    else
      var fields := Words(t);
      if |fields| < 2 then None else Some((fields[0], DataSources(fields[1..])))
  }

  /** `parse_types_file` over the file's lines: each parsed line sets its name's entry. */
  function TypesOf(lines: seq<string>): map<string, seq<Source>> {
    if lines == [] then map[]
    else
      var m := TypesOf(lines[..|lines| - 1]);
      var p := ParseLine(lines[|lines| - 1]);
      if p.Some? then m[p.value.0 := p.value.1] else m
  }

  /** The inner loop of `parse_types_file`, over the fields after the name. */
  method ParseDataSources(rest: seq<string>) returns (v: seq<Source>)
    ensures v == DataSources(rest)
  {
    v := [];
    var j := 0;
    while j < |rest|
      invariant 0 <= j <= |rest|
      invariant v == DataSources(rest[..j])
    {
      assert rest[..j + 1][..j] == rest[..j];
      var datasource := RStripChar(rest[j], ',');
      var dsFields := Split(datasource, ':');
      if |dsFields| == 4 {
        var conv := Conversion(dsFields[1]);
        if conv.Some? {
          v := v + [(dsFields[0], conv.value)];
        }
      }
      j := j + 1;
    }
    assert rest[..j] == rest;
  }

  lemma TypesOfStep(lines: seq<string>, n: nat)
    requires n < |lines|
    ensures var p := ParseLine(lines[n]);
      TypesOf(lines[..n + 1]) == if p.Some? then TypesOf(lines[..n])[p.value.0 := p.value.1] else TypesOf(lines[..n])
  {
    assert lines[..n + 1][..n] == lines[..n];
  }

  /** The outer loop of `parse_types_file`, over the file's lines. */
  method ParseTypesFile(lines: seq<string>) returns (types: map<string, seq<Source>>)
    ensures types == TypesOf(lines)
  {
    types := map[];
    var n := 0;
    while n < |lines|
      invariant 0 <= n <= |lines|
      invariant types == TypesOf(lines[..n])
    {
      TypesOfStep(lines, n);
      var line := Strip(lines[n]);
      if line != "" && line[0] != '#' {
        var fields := Words(line);
        if |fields| >= 2 {
          var v := ParseDataSources(fields[1..]);
          assert ParseLine(lines[n]) == Some((fields[0], v));
          types := types[fields[0] := v];
        } else {
          assert ParseLine(lines[n]).None?;
        }
      } else {
        assert ParseLine(lines[n]).None?;
      }
      n := n + 1;
    }
    assert lines[..n] == lines;
  }

  /** A name has an entry exactly when some line defines it, and the entry is the last such line's. */
  lemma {:induction false} TypesOfLastWins(lines: seq<string>, name: string)
    ensures name in TypesOf(lines) <==>
      exists i | 0 <= i < |lines| :: ParseLine(lines[i]).Some? && ParseLine(lines[i]).value.0 == name
    ensures forall i | 0 <= i < |lines| && ParseLine(lines[i]).Some? && ParseLine(lines[i]).value.0 == name ::
      (forall j | i < j < |lines| :: !(ParseLine(lines[j]).Some? && ParseLine(lines[j]).value.0 == name))
      ==> TypesOf(lines)[name] == ParseLine(lines[i]).value.1
  {
    TypesOfHas(lines, name);
    TypesOfLast(lines, name);
  }

  /** A name has an entry exactly when some line defines it. */
  lemma {:induction false} TypesOfHas(lines: seq<string>, name: string)
    ensures name in TypesOf(lines) <==> exists i | 0 <= i < |lines| :: Defines(lines[i], name)
    decreases |lines|
  {
    if lines != [] {
      var init := lines[..|lines| - 1];
      TypesOfHas(init, name);
      assert forall i | 0 <= i < |init| :: init[i] == lines[i];
    }
  }

  /** The entry of a name is the one of the last line defining it. */
  lemma {:induction false} TypesOfLast(lines: seq<string>, name: string)
    ensures forall i | 0 <= i < |lines| && Defines(lines[i], name) ::
      (forall j | i < j < |lines| :: !Defines(lines[j], name)) ==> name in TypesOf(lines) && TypesOf(lines)[name] == ParseLine(lines[i]).value.1
    decreases |lines|
  {
    if lines != [] {
      var init := lines[..|lines| - 1];
      TypesOfLast(init, name);
      assert forall i | 0 <= i < |init| :: init[i] == lines[i];
    }
  }

  /** The line parses and defines the type `name`. */
  predicate Defines(line: string, name: string) {
    ParseLine(line).Some? && ParseLine(line).value.0 == name
  }

  /** One data source as `types.db` writes it: `name:TYPE:min:max`. */
  function DsText(name: string, dsType: string, min: string, max: string): string {
    Join([name, dsType, min, max], ":")
  }

  /** A well-formed data source field reads back as its name and converted type. */
  lemma DataSourceOf(name: string, dsType: string, min: string, max: string)
    requires ':' !in name && ':' !in dsType && ':' !in min && ':' !in max
    requires max != [] && max[|max| - 1] != ','
    requires Conversion(dsType).Some?
    ensures DataSource(DsText(name, dsType, min, max)) == Some((name, Conversion(dsType).value))
  {
    var t := DsText(name, dsType, min, max);
    var parts := [name, dsType, min, max];
    assert parts[1..] == [dsType, min, max] && parts[1..][1..] == [min, max] && parts[1..][1..][1..] == [max];
    assert Join([max], ":") == max;
    assert Join([min, max], ":") == min + ":" + max;
    assert Join([dsType, min, max], ":") == dsType + ":" + (min + ":" + max);
    assert t == name + ":" + (dsType + ":" + (min + ":" + max));
    assert t[|t| - 1] == max[|max| - 1];
    assert RStripChar(t, ',') == t;
    SplitJoin([name, dsType, min, max], ':');
  }

  /** A `types.db` line with one data source, separated by white space, reads back as that type. */
  lemma ParseLineOf(name: string, gap: char, dsName: string, dsType: string, min: string, max: string)
    requires IsSpace(gap)
    requires name != [] && NoSpace(name) && name[0] != '#'
    requires NoSpace(dsName) && NoSpace(dsType) && NoSpace(min) && NoSpace(max)
    requires ':' !in dsName && ':' !in dsType && ':' !in min && ':' !in max
    requires max != [] && max[|max| - 1] != ','
    requires Conversion(dsType).Some?
    ensures ParseLine(Join([name, DsText(dsName, dsType, min, max)], [gap]))
      == Some((name, [(dsName, Conversion(dsType).value)]))
  {
    var ds := DsText(dsName, dsType, min, max);
    JoinNoSpace([dsName, dsType, min, max], ":");
    assert ds != [];
    var line := Join([name, ds], [gap]);
    assert [name, ds][1..] == [ds];
    assert Join([ds], [gap]) == ds;
    assert line == name + [gap] + ds;
    assert line[0] == name[0] && line[|line| - 1] == ds[|ds| - 1];
    StripUnchanged(line);
    WordsJoin([name, ds], gap);
    DataSourceOf(dsName, dsType, min, max);
    assert [ds][..0] == [];
    assert DataSources([ds]) == [(dsName, Conversion(dsType).value)];
    assert Strip(line) == line && line[0] != '#';
    assert Words(line) == [name, ds];
  }

  // ---------------------------------------------------------------- configuration

  /** `str2bool`: a boolean as is, a string by its lower-cased spelling; `None` where `.lower()` raises. */
  function Str2Bool(v: ConfigValue): Option<bool> {
    match v
    case Flag(b) => Some(b)
    case Str(s) => Some(Lower(s) in {"yes", "true", "t", "1", "y"})
    case Num(_) => None
  }

  /** `str2bool` ignores case and accepts `y`; only a number, which has no `lower()`, raises. */
  lemma Str2BoolIgnoresCase(s: string)
    ensures Str2Bool(Str(Lower(s))) == Str2Bool(Str(s))
    ensures Str2Bool(Str("Y")) == Some(true) && Str2Bool(Str("No")) == Some(false)
    ensures forall v :: Str2Bool(v).None? <==> v.Num?
  {
    assert Lower(Lower(s)) == Lower(s);
    assert Lower("Y") == "y";
    assert Lower("No") == "no";
  }

  /**
   * `get_precompiled_regular_expressions`: the comma-separated patterns of a
   * string, or none at all when the string is empty, is not a string, or one
   * pattern fails to compile (`compiles`).
   */
  function IncludePatterns(v: ConfigValue, compiles: string -> bool): (r: seq<string>)
    ensures r != [] ==> v.Str? && r == Split(v.s, ',')
  {
    if !v.Str? || v.s == "" then []
    else
      var ps := Split(v.s, ',');
      if forall i | 0 <= i < |ps| :: compiles(ps[i]) then ps else []
  }

  datatype Config = Config(
    typesDb: string,
    metricPrefix: string,
    metricSeparator: string,
    url: string,
    apiToken: string,
    source: string,
    debug: bool,
    lowerCase: bool,
    includeRegex: seq<string>,
    logConfig: string,
    flushMaxMeasurements: int,
    maxQueueSize: int,
    timeout: int,
    queueFlushSize: int,
    selfMonitor: bool,
    flushingThreads: int,
    ignoreLocaltime: bool)

  /** The configuration before any option is read. */
  function Defaults(): Config {
    Config("/usr/share/collectd/types.db", "collectd", ".", "https://api.signalfuse.com", "", "",
           false, false, [], "", 600, 20000, 60, 5000, true, 2, true)
  }

  predicate KnownKey(key: string) {
    key in {"types_db", "metric_prefix", "metric_separator", "url", "api_token", "source",
            "debug", "lower_case", "include_regex", "log_config", "flush_max_measurements",
            "max_queue_size", "timeout", "queue_flush_size", "self_monitor",
            "flushing_threads", "ignore_localtime"}
  }

  /** Sets the option `key` (a known snake-case key) from a value; `None` where the conversion raises. */
  function SetOption(c: Config, key: string, v: ConfigValue, compiles: string -> bool): (r: Option<Config>)
    requires KnownKey(key)
  {
    if key == "types_db" then Some(c.(typesDb := ToStr(v)))
    else if key == "metric_prefix" then Some(c.(metricPrefix := ToStr(v)))
    else if key == "metric_separator" then Some(c.(metricSeparator := ToStr(v)))
    else if key == "url" then Some(c.(url := ToStr(v)))
    else if key == "api_token" then Some(c.(apiToken := ToStr(v)))
    else if key == "source" then Some(c.(source := ToStr(v)))
    else if key == "log_config" then Some(c.(logConfig := ToStr(v)))
    else if key == "include_regex" then Some(c.(includeRegex := IncludePatterns(v, compiles)))
    else if key in {"debug", "lower_case", "self_monitor", "ignore_localtime"} then
      var b := Str2Bool(v);
      if b.None? then None
      else if key == "debug" then Some(c.(debug := b.value))
      else if key == "lower_case" then Some(c.(lowerCase := b.value))
      else if key == "self_monitor" then Some(c.(selfMonitor := b.value))
      else Some(c.(ignoreLocaltime := b.value))
    else
      var n := ToInt(v);
      if n.None? then None
      else if key == "flush_max_measurements" then Some(c.(flushMaxMeasurements := n.value))
      else if key == "max_queue_size" then Some(c.(maxQueueSize := n.value))
      else if key == "timeout" then Some(c.(timeout := n.value))
      else if key == "queue_flush_size" then Some(c.(queueFlushSize := n.value))
      else Some(c.(flushingThreads := n.value))
  }

  /** The outcome of `configure`: the configuration reached and whether an option raised part-way. */
  datatype Configured = Configured(config: Config, raised: bool)

  /** The option nodes from `c` on; `snake` stands for `camel_case_to_snake_case`. */
  function ApplyNodes(c: Config, nodes: seq<ConfigNode>, snake: string -> string, compiles: string -> bool): Configured
    decreases |nodes|
  {
    if nodes == [] then Configured(c, false)
    else
      var key := snake(nodes[0].key);
      if !KnownKey(key) then ApplyNodes(c, nodes[1..], snake, compiles)
      else if nodes[0].values == [] then Configured(c, true)
      else
        var next := SetOption(c, key, nodes[0].values[0], compiles);
        if next.None? then Configured(c, true) else ApplyNodes(next.value, nodes[1..], snake, compiles)
  }

  /** Options whose keys the plugin does not know leave the configuration alone. */
  lemma {:induction false} UnknownKeysIgnored(c: Config, nodes: seq<ConfigNode>, snake: string -> string, compiles: string -> bool)
    requires forall i | 0 <= i < |nodes| :: !KnownKey(snake(nodes[i].key))
    ensures ApplyNodes(c, nodes, snake, compiles) == Configured(c, false)
    decreases |nodes|
  {
    if nodes != [] {
      UnknownKeysIgnored(c, nodes[1..], snake, compiles);
    }
  }

  // ---------------------------------------------------------------- collectd values

  /** A sample of a collectd value list: Python's `None`, a NaN, or a number. */
  datatype Sample = Missing | NaN | Val(v: real)

  /** The fields of a collectd value list that `write` reads. */
  datatype Values = Values(
    host: string,
    plugin: string,
    pluginInstance: string,
    typ: string,
    typeInstance: string,
    time: real,
    samples: seq<Sample>)

  /** The non-empty strings of `parts`, in order. */
  function NonEmpty(parts: seq<string>): (r: seq<string>)
    ensures |r| <= |parts|
    ensures forall i | 0 <= i < |r| :: r[i] != ""
  {
    if parts == [] then []
    else NonEmpty(parts[..|parts| - 1]) + (if parts[|parts| - 1] != "" then [parts[|parts| - 1]] else [])
  }

  lemma {:induction false} NonEmptyUnchanged(parts: seq<string>)
    requires forall i | 0 <= i < |parts| :: parts[i] != ""
    ensures NonEmpty(parts) == parts
  {
    if parts != [] {
      NonEmptyUnchanged(parts[..|parts| - 1]);
    }
  }

  /** The metric name for one data source: the non-empty name parts, the data source name only when there are several samples. */
  function MetricName(c: Config, v: Values, dataName: string): string {
    var parts := NonEmpty([c.metricPrefix, v.plugin, v.pluginInstance, v.typ, v.typeInstance]);
    var name := Join(parts + (if |v.samples| > 1 then [dataName] else []), c.metricSeparator);
    if c.lowerCase then Lower(name) else name
  }

  /** With every part present and one sample, the name is the five parts joined. */
  lemma MetricNameSingle(c: Config, v: Values, dataName: string)
    requires |v.samples| == 1 && !c.lowerCase
    requires c.metricPrefix != "" && v.plugin != "" && v.pluginInstance != "" && v.typ != "" && v.typeInstance != ""
    ensures MetricName(c, v, dataName)
      == Join([c.metricPrefix, v.plugin, v.pluginInstance, v.typ, v.typeInstance], c.metricSeparator)
  {
    var parts := [c.metricPrefix, v.plugin, v.pluginInstance, v.typ, v.typeInstance];
    NonEmptyUnchanged(parts);
    assert parts + [] == parts;
  }

  /** The source: the first non-empty of the configured source, the value's host and `CollectD`. */
  function SourceOf(c: Config, v: Values): (s: string)
    ensures s != ""
    ensures s == c.source || s == v.host || s == "CollectD"
    ensures c.source != "" ==> s == c.source
    ensures c.source == "" && v.host != "" ==> s == v.host
  {
    if c.source != "" then c.source else if v.host != "" then v.host else "CollectD"
  }

  function TimeToWrite(c: Config, v: Values): int {
    if c.ignoreLocaltime then 0 else Trunc(v.time)
  }

  /** The include list lets a name through: an empty list lets every name through. */
  predicate Included(c: Config, name: string, matches: (string, string) -> bool) {
    c.includeRegex == [] || exists i | 0 <= i < |c.includeRegex| :: matches(c.includeRegex[i], name)
  }

  /** The data sources of a value's type, or one unnamed gauge per sample for an unknown type. */
  function TypeFor(types: map<string, seq<Source>>, v: Values): (r: seq<Source>)
    ensures v.typ !in types ==> |r| == |v.samples| && forall i | 0 <= i < |r| :: r[i] == ("", "GAUGE")
    ensures v.typ in types ==> r == types[v.typ]
  {
    if v.typ in types then types[v.typ] else seq(|v.samples|, i => ("", "GAUGE"))
  }

  /** The data point for sample `i`, or `None` when it is missing, NaN, or not included. */
  function PointAt(c: Config, v: Values, vtype: seq<Source>, i: nat, matches: (string, string) -> bool): Option<DataPoint>
    requires |vtype| == |v.samples| && i < |v.samples|
  {
    var s := v.samples[i];
    if !s.Val? then None
    else
      var name := MetricName(c, v, vtype[i].0);
      if !Included(c, name, matches) then None
      else Some(DatapointUploader.DataPoint(Some(Whitelist(SourceOf(c, v))), Whitelist(name), s.v, vtype[i].1,
                                            TimeToWrite(c, v), map[]))
  }

  /**
   * A sample yields a point exactly when it is a number and its metric name is
   * included; the point carries the sample's value and type, the whitelisted
   * source and metric name, and the value list's time.
   */
  lemma PointAtMeaning(c: Config, v: Values, vtype: seq<Source>, i: nat, matches: (string, string) -> bool)
    requires |vtype| == |v.samples| && i < |v.samples|
    ensures var r := PointAt(c, v, vtype, i, matches);
      && (r.Some? <==> v.samples[i].Val? && Included(c, MetricName(c, v, vtype[i].0), matches))
      && (r.Some? ==>
        && r.value.value == v.samples[i].v && r.value.dsType == vtype[i].1
        && r.value.source == Some(Whitelist(SourceOf(c, v)))
        && r.value.metric == Whitelist(MetricName(c, v, vtype[i].0))
        && r.value.timestamp == TimeToWrite(c, v)
        && r.value.dimensions == map[])
  {
  }

  /** With an empty include list a numeric sample always yields a point carrying its value. */
  lemma PointAtValue(c: Config, v: Values, vtype: seq<Source>, i: nat, matches: (string, string) -> bool)
    requires |vtype| == |v.samples| && i < |v.samples|
    requires c.includeRegex == [] && v.samples[i].Val?
    ensures PointAt(c, v, vtype, i, matches).Some?
    ensures PointAt(c, v, vtype, i, matches).value.value == v.samples[i].v
  {
    assert Included(c, MetricName(c, v, vtype[i].0), matches);
  }

  /** The points `write` tries to enqueue for the first `n` samples, in sample order. */
  function Candidates(c: Config, v: Values, vtype: seq<Source>, n: nat, matches: (string, string) -> bool): (r: seq<DataPoint>)
    requires |vtype| == |v.samples| && n <= |v.samples|
    ensures |r| <= n
  {
    if n == 0 then []
    else
      var init := Candidates(c, v, vtype, n - 1, matches);
      var p := PointAt(c, v, vtype, n - 1, matches);
      if p.Some? then init + [p.value] else init
  }

  /** The candidates of one more sample: those before it, then its point if it has one. */
  lemma CandidatesNext(c: Config, v: Values, vtype: seq<Source>, i: nat, matches: (string, string) -> bool)
    requires |vtype| == |v.samples| && i < |v.samples|
    ensures var p := PointAt(c, v, vtype, i, matches);
      Candidates(c, v, vtype, i + 1, matches) == Candidates(c, v, vtype, i, matches) + if p.Some? then [p.value] else []
  {
    var init := Candidates(c, v, vtype, i, matches);
    assert init + [] == init;
  }

  /** Every candidate carries whitelisted names and the value list's source and time. */
  lemma {:induction false} CandidatesWellFormed(c: Config, v: Values, vtype: seq<Source>, n: nat, matches: (string, string) -> bool)
    requires |vtype| == |v.samples| && n <= |v.samples|
    ensures forall p | p in Candidates(c, v, vtype, n, matches) ::
      AllAllowed(p.metric) && p.source == Some(Whitelist(SourceOf(c, v))) && p.timestamp == TimeToWrite(c, v)
  {
    if n > 0 {
      CandidatesWellFormed(c, v, vtype, n - 1, matches);
      var p := PointAt(c, v, vtype, n - 1, matches);
      PointAtMeaning(c, v, vtype, n - 1, matches);
      if p.Some? {
        WhitelistAllowed(MetricName(c, v, vtype[n - 1].0));
      }
    }
  }

  /** The first `n` samples are numbers and `ps` holds their values, one point per sample, in order. */
  predicate FollowsSamples(ps: seq<DataPoint>, samples: seq<Sample>, n: nat)
    requires n <= |samples|
  {
    |ps| == n && forall i | 0 <= i < n :: samples[i].Val? && ps[i].value == samples[i].v
  }

  /** Missing and NaN samples yield nothing: with none of them and an empty include list there is one point per sample. */
  lemma {:induction false} CandidatesAll(c: Config, v: Values, vtype: seq<Source>, n: nat, matches: (string, string) -> bool)
    requires |vtype| == |v.samples| && n <= |v.samples|
    requires c.includeRegex == []
    requires forall i | 0 <= i < n :: v.samples[i].Val?
    ensures FollowsSamples(Candidates(c, v, vtype, n, matches), v.samples, n)
  {
    if n == 0 {
      assert Candidates(c, v, vtype, n, matches) == [];
    } else {
      CandidatesAll(c, v, vtype, n - 1, matches);
      CandidatesFollowNext(c, v, vtype, n, matches);
    }
  }

  /** With an empty include list, candidates following the first `i` samples follow one more numeric sample. */
  lemma CandidatesFollowNext(c: Config, v: Values, vtype: seq<Source>, n: nat, matches: (string, string) -> bool)
    requires |vtype| == |v.samples| && 0 < n <= |v.samples|
    requires c.includeRegex == [] && v.samples[n - 1].Val?
    requires FollowsSamples(Candidates(c, v, vtype, n - 1, matches), v.samples, n - 1)
    ensures FollowsSamples(Candidates(c, v, vtype, n, matches), v.samples, n)
  {
    var init := Candidates(c, v, vtype, n - 1, matches);
    var p := PointAt(c, v, vtype, n - 1, matches);
    PointAtValue(c, v, vtype, n - 1, matches);
    CandidatesNext(c, v, vtype, n - 1, matches);
    FollowsSnoc(init, p.value, v.samples, n);
  }

  /** Points following the first samples, and one more for the next sample, follow one more sample. */
  lemma FollowsSnoc(init: seq<DataPoint>, last: DataPoint, samples: seq<Sample>, n: nat)
    requires 0 < n <= |samples| && FollowsSamples(init, samples, n - 1)
    requires samples[n - 1].Val? && last.value == samples[n - 1].v
    ensures FollowsSamples(init + [last], samples, n)
  {
  }

  // ---------------------------------------------------------------- the queue

  /** An entry of the data queue: a point, or the `None` that tells a worker to stop. */
  datatype QueueItem = Point(dp: DataPoint) | Sentinel

  /** How many of `n` offered items a queue of length `len` and capacity `maxsize` takes before it is full; a capacity of 0 or less is unbounded. */
  function Taken(len: nat, maxsize: int, n: nat): (k: nat)
    ensures k <= n
    ensures maxsize <= 0 ==> k == n
    ensures maxsize > 0 ==> (k == n || len + k >= maxsize) && (k == 0 || len + k <= maxsize)
  {
    if maxsize <= 0 then n
    else if len >= maxsize then 0
    else if n <= maxsize - len then n
    else maxsize - len
  }

  /** One more offered item is taken exactly when the queue still has room after the ones taken before. */
  lemma TakenStep(len: nat, maxsize: int, n: nat)
    ensures Taken(len, maxsize, n + 1)
      == Taken(len, maxsize, n) + (if maxsize > 0 && len + Taken(len, maxsize, n) >= maxsize then 0 else 1)
  {
  }

  /** The queue entries for a run of points. */
  function Points(ps: seq<DataPoint>): seq<QueueItem> {
    seq(|ps|, i requires 0 <= i < |ps| => Point(ps[i]))
  }

  /** Offering one more point to a queue that took a prefix of the earlier ones appends it exactly when there is room. */
  lemma OfferOne(len: nat, maxsize: int, before: seq<DataPoint>, dp: DataPoint)
    ensures var t := Taken(len, maxsize, |before|);
      var full := maxsize > 0 && len + t >= maxsize;
      Points((before + [dp])[..Taken(len, maxsize, |before| + 1)]) == Points(before[..t]) + (if full then [] else [Point(dp)])
  {
    var t := Taken(len, maxsize, |before|);
    TakenStep(len, maxsize, |before|);
    var after := before + [dp];
    if maxsize > 0 && len + t >= maxsize {
      assert after[..t] == before[..t];
    } else {
      assert t == |before|;
      assert after[..t + 1] == after && before[..t] == before;
    }
  }

  /** The same for the queue itself: `put_nowait` of one more point extends the queue of the points taken so far. */
  lemma OfferToQueue(q0: seq<QueueItem>, maxsize: int, before: seq<DataPoint>, dp: DataPoint, queue: seq<QueueItem>)
    requires queue == q0 + Points(before[..Taken(|q0|, maxsize, |before|)])
    ensures var full := maxsize > 0 && |queue| >= maxsize;
      queue + (if full then [] else [Point(dp)]) == q0 + Points((before + [dp])[..Taken(|q0|, maxsize, |before| + 1)])
  {
    var t := Taken(|q0|, maxsize, |before|);
    assert |queue| == |q0| + t;
    OfferOne(|q0|, maxsize, before, dp);
    var tail := if maxsize > 0 && |queue| >= maxsize then [] else [Point(dp)];
    assert queue + tail == q0 + (Points(before[..t]) + tail);
  }

  /** `n` sentinels. */
  function Sentinels(n: nat): seq<QueueItem> {
    seq(n, i => Sentinel)
  }

  /** The collection step of a drain iteration after its first point: the flag says a sentinel ended the worker. */
  datatype Batch = Batch(died: bool, items: seq<DataPoint>, rest: seq<QueueItem>)

  /** Takes points without blocking until the batch holds `flushSize` items, the queue is empty, or a sentinel turns up. */
  function Collect(items: seq<DataPoint>, q: seq<QueueItem>, flushSize: int): (b: Batch)
    ensures |b.rest| <= |q| && b.rest == q[|q| - |b.rest|..]
    decreases |q|
  {
    if |items| >= flushSize || q == [] then Batch(false, items, q)
    else if q[0].Sentinel? then Batch(true, items, q[1..])
    else Collect(items + [q[0].dp], q[1..], flushSize)
  }

  /** A batch never grows past the flush size (at least one). */
  lemma {:induction false} CollectBound(items: seq<DataPoint>, q: seq<QueueItem>, flushSize: int)
    requires |items| <= if flushSize < 1 then 1 else flushSize
    ensures |Collect(items, q, flushSize).items| <= if flushSize < 1 then 1 else flushSize
    decreases |q|
  {
    if !(|items| >= flushSize || q == []) && !q[0].Sentinel? {
      CollectBound(items + [q[0].dp], q[1..], flushSize);
    }
  }

  /** A batch keeps what it was given. */
  lemma {:induction false} CollectKeeps(items: seq<DataPoint>, q: seq<QueueItem>, flushSize: int)
    ensures var b := Collect(items, q, flushSize);
      |items| <= |b.items| && b.items[..|items|] == items
    decreases |q|
  {
    if !(|items| >= flushSize || q == []) && !q[0].Sentinel? {
      var more := items + [q[0].dp];
      CollectKeeps(more, q[1..], flushSize);
      var b := Collect(more, q[1..], flushSize);
      assert b.items[..|items|] == b.items[..|more|][..|items|];
    }
  }

  /** A batch consumes one queue entry per point it adds, plus the sentinel that ends a worker. */
  lemma {:induction false} CollectConsumes(items: seq<DataPoint>, q: seq<QueueItem>, flushSize: int)
    ensures var b := Collect(items, q, flushSize);
      && |q| - |b.rest| == |b.items| - |items| + (if b.died then 1 else 0)
      && (b.died ==> 0 <= |b.items| - |items| < |q| && q[|b.items| - |items|] == Sentinel)
    decreases |q|
  {
    if !(|items| >= flushSize || q == []) && !q[0].Sentinel? {
      var more := items + [q[0].dp];
      CollectConsumes(more, q[1..], flushSize);
      var b := Collect(more, q[1..], flushSize);
      if b.died {
        assert q[1..][|b.items| - |more|] == q[|b.items| - |items|];
      }
    }
  }

  /** The points a batch adds are the points at the front of the queue, in order. */
  lemma {:induction false} CollectTakes(items: seq<DataPoint>, q: seq<QueueItem>, flushSize: int)
    ensures var b := Collect(items, q, flushSize);
      && |items| <= |b.items| <= |items| + |q|
      && Points(b.items[|items|..]) == q[..|b.items| - |items|]
    decreases |q|
  {
    CollectLength(items, q, flushSize);
    if !(|items| >= flushSize || q == []) && !q[0].Sentinel? {
      var more := items + [q[0].dp];
      CollectTakes(more, q[1..], flushSize);
      CollectKeeps(more, q[1..], flushSize);
      TakesOneMore(items, q, Collect(more, q[1..], flushSize).items);
    } else {
      var b := Collect(items, q, flushSize);
      assert b.items[|items|..] == [];
    }
  }

  /** A batch holds what it started with and at most every queued item besides. */
  lemma {:induction false} CollectLength(items: seq<DataPoint>, q: seq<QueueItem>, flushSize: int)
    ensures |items| <= |Collect(items, q, flushSize).items| <= |items| + |q|
    decreases |q|
  {
    if !(|items| >= flushSize || q == []) && !q[0].Sentinel? {
      CollectLength(items + [q[0].dp], q[1..], flushSize);
    }
  }

  /** A batch that took the front point and then a run of the following ones took the run one longer. */
  lemma TakesOneMore(items: seq<DataPoint>, q: seq<QueueItem>, taken: seq<DataPoint>)
    requires q != [] && q[0].Point?
    requires |items| + 1 <= |taken| <= |items| + |q|
    requires taken[..|items| + 1] == items + [q[0].dp]
    requires Points(taken[|items| + 1..]) == q[1..][..|taken| - |items| - 1]
    ensures Points(taken[|items|..]) == q[..|taken| - |items|]
  {
    var m := |taken| - |items|;
    assert taken[|items|] == taken[..|items| + 1][|items|] == q[0].dp;
    assert taken[|items|..] == [q[0].dp] + taken[|items| + 1..];
    PointsCons(q[0].dp, taken[|items| + 1..]);
    assert q[..m] == [q[0]] + q[1..][..m - 1];
  }

  lemma PointsCons(p: DataPoint, ps: seq<DataPoint>)
    ensures Points([p] + ps) == [Point(p)] + Points(ps)
  {
    var l, r := Points([p] + ps), [Point(p)] + Points(ps);
    assert forall i | 0 <= i < |l| :: l[i] == r[i];
  }

  /** The points of a batch that need registering: unregistered metrics, each metric once, in first-seen order. */
  function ToRegister(items: seq<DataPoint>, registered: set<string>): (r: seq<DataPoint>)
    ensures forall i | 0 <= i < |r| :: r[i] in items && r[i].metric !in registered
  {
    if items == [] then []
    else
      var r := ToRegister(items[..|items| - 1], registered);
      var it := items[|items| - 1];
      if it.metric !in registered && it.metric !in MetricsOf(r) then r + [it] else r
  }

  function MetricsOf(ps: seq<DataPoint>): (m: set<string>)
    ensures forall i | 0 <= i < |ps| :: ps[i].metric in m
    ensures forall x | x in m :: exists i | 0 <= i < |ps| :: ps[i].metric == x
  {
    set i | 0 <= i < |ps| :: ps[i].metric
  }

  lemma MetricsOfSnoc(ps: seq<DataPoint>, p: DataPoint)
    ensures MetricsOf(ps + [p]) == MetricsOf(ps) + {p.metric}
  {
    var qs := ps + [p];
    assert forall i | 0 <= i < |ps| :: qs[i] == ps[i];
    assert qs[|ps|] == p;
  }

  /** The registration list names each metric at most once, and every unregistered metric of the batch. */
  lemma ToRegisterDistinctComplete(items: seq<DataPoint>, registered: set<string>)
    ensures var r := ToRegister(items, registered);
      && (forall i, j | 0 <= i < j < |r| :: r[i].metric != r[j].metric)
      && (forall i | 0 <= i < |items| && items[i].metric !in registered :: items[i].metric in MetricsOf(r))
  {
    ToRegisterDistinct(items, registered);
    ToRegisterComplete(items, registered);
  }

  /** No two points share a metric. */
  predicate DistinctMetrics(ps: seq<DataPoint>) {
    forall i, j | 0 <= i < j < |ps| :: ps[i].metric != ps[j].metric
  }

  /** Each metric is listed once. */
  lemma {:induction false} ToRegisterDistinct(items: seq<DataPoint>, registered: set<string>)
    ensures DistinctMetrics(ToRegister(items, registered))
  {
    if items != [] {
      var init := items[..|items| - 1];
      ToRegisterDistinct(init, registered);
      var r0 := ToRegister(init, registered);
      var it := items[|items| - 1];
      var r := ToRegister(items, registered);
      if it.metric !in registered && it.metric !in MetricsOf(r0) {
        assert r == r0 + [it];
        forall i, j | 0 <= i < j < |r| ensures r[i].metric != r[j].metric {
          assert r[i] == r0[i];
          if j < |r0| {
            assert r[j] == r0[j];
          } else {
            assert r[j] == it;
            assert r0[i].metric in MetricsOf(r0);
          }
        }
      } else {
        assert r == r0;
      }
    }
  }

  /** Each unregistered metric of the batch is listed. */
  lemma {:induction false} ToRegisterComplete(items: seq<DataPoint>, registered: set<string>)
    ensures var r := ToRegister(items, registered);
      forall i | 0 <= i < |items| && items[i].metric !in registered :: items[i].metric in MetricsOf(r)
  {
    if items != [] {
      var init := items[..|items| - 1];
      ToRegisterComplete(init, registered);
      var r0 := ToRegister(init, registered);
      var it := items[|items| - 1];
      var r := ToRegister(items, registered);
      if it.metric !in registered && it.metric !in MetricsOf(r0) {
        MetricsOfSnoc(r0, it);
      }
      assert MetricsOf(r0) <= MetricsOf(r);
      forall i | 0 <= i < |items| && items[i].metric !in registered
        ensures items[i].metric in MetricsOf(r)
      {
        if i < |init| {
          assert items[i] == init[i];
        }
      }
    }
  }

  /** The metrics whose registration flag came back true or false. */
  function Accepted(r: seq<DataPoint>, flags: seq<bool>): set<string>
    requires |flags| == |r|
  {
    set i | 0 <= i < |r| && flags[i] :: r[i].metric
  }

  function Rejected(r: seq<DataPoint>, flags: seq<bool>): set<string>
    requires |flags| == |r|
  {
    set i | 0 <= i < |r| && !flags[i] :: r[i].metric
  }

  /** One more reply flag adds its metric to the accepted or to the rejected ones. */
  lemma AcceptedSnoc(r: seq<DataPoint>, flags: seq<bool>, p: DataPoint, f: bool)
    requires |flags| == |r|
    ensures Accepted(r + [p], flags + [f]) == Accepted(r, flags) + (if f then {p.metric} else {})
    ensures Rejected(r + [p], flags + [f]) == Rejected(r, flags) + (if f then {} else {p.metric})
  {
    var r', flags' := r + [p], flags + [f];
    assert forall i | 0 <= i < |r| :: r'[i] == r[i] && flags'[i] == flags[i];
    assert r'[|r|] == p && flags'[|r|] == f;
  }

  /** One more reply flag, read off the prefixes of the reply. */
  lemma RecordNext(toRegister: seq<DataPoint>, r: seq<bool>, j: nat)
    requires |r| == |toRegister| && j < |r|
    ensures Accepted(toRegister[..j + 1], r[..j + 1]) == Accepted(toRegister[..j], r[..j]) + (if r[j] then {toRegister[j].metric} else {})
    ensures Rejected(toRegister[..j + 1], r[..j + 1]) == Rejected(toRegister[..j], r[..j]) + (if r[j] then {} else {toRegister[j].metric})
    ensures CountTrue(r[..j + 1]) == CountTrue(r[..j]) + (if r[j] then 1 else 0)
  {
    assert r[..j + 1][..j] == r[..j];
    assert toRegister[..j + 1] == toRegister[..j] + [toRegister[j]] && r[..j + 1] == r[..j] + [r[j]];
    AcceptedSnoc(toRegister[..j], r[..j], toRegister[j], r[j]);
  }

  function CountTrue(flags: seq<bool>): (n: nat)
    ensures n <= |flags|
  {
    if flags == [] then 0 else CountTrue(flags[..|flags| - 1]) + (if flags[|flags| - 1] then 1 else 0)
  }

  /** The items of the batch whose metric is not among `unregistered`, in order. */
  function Survivors(items: seq<DataPoint>, unregistered: set<string>): (r: seq<DataPoint>)
    ensures |r| <= |items|
    ensures forall i | 0 <= i < |r| :: r[i] in items && r[i].metric !in unregistered
  {
    if items == [] then []
    else
      Survivors(items[..|items| - 1], unregistered)
      + (if items[|items| - 1].metric !in unregistered then [items[|items| - 1]] else [])
  }

  /** In a registration list with distinct metrics, each listed metric is accepted or rejected by its own flag alone. */
  lemma FlagDecides(r: seq<DataPoint>, flags: seq<bool>, j: int)
    requires |flags| == |r| && 0 <= j < |r|
    requires forall i, k | 0 <= i < k < |r| :: r[i].metric != r[k].metric
    ensures r[j].metric in Accepted(r, flags) <==> flags[j]
    ensures r[j].metric in Rejected(r, flags) <==> !flags[j]
  {
    var m := r[j].metric;
    if m in Accepted(r, flags) {
      var k :| 0 <= k < |r| && flags[k] && r[k].metric == m;
      assert k == j;
    }
    if m in Rejected(r, flags) {
      var k :| 0 <= k < |r| && !flags[k] && r[k].metric == m;
      assert k == j;
    }
  }

  /** A metric missing from the registration list is neither accepted nor rejected. */
  lemma UnlistedUndecided(r: seq<DataPoint>, flags: seq<bool>, m: string)
    requires |flags| == |r|
    requires forall k | 0 <= k < |r| :: r[k].metric != m
    ensures m !in Accepted(r, flags) && m !in Rejected(r, flags)
  {
  }

  /** Keeping the items whose metric did not fail keeps exactly those whose metric is now registered. */
  lemma {:induction false} SurvivorsAreRegistered(items: seq<DataPoint>, registered: set<string>, flags: seq<bool>)
    requires |flags| == |ToRegister(items, registered)|
    ensures var r := ToRegister(items, registered);
      forall i | 0 <= i < |items| ::
        items[i].metric !in Rejected(r, flags) <==> items[i].metric in registered + Accepted(r, flags)
  {
    var r := ToRegister(items, registered);
    ToRegisterDistinctComplete(items, registered);
    forall i | 0 <= i < |items|
      ensures items[i].metric !in Rejected(r, flags) <==> items[i].metric in registered + Accepted(r, flags)
    {
      var m := items[i].metric;
      if m !in registered {
        assert m in MetricsOf(r);
        var j :| 0 <= j < |r| && r[j].metric == m;
        FlagDecides(r, flags, j);
      } else {
        UnlistedUndecided(r, flags, m);
      }
    }
  }

  /** The step a drain iteration ended with. */
  datatype Drain =
    | Exited           // `is_shutdown` was set: the loop ends and the uploader disconnects
    | Blocked          // the queue is empty: the blocking `get` waits
    | SentinelSkipped  // the blocking `get` returned a sentinel: `continue`
    | Died             // a sentinel turned up while collecting: the worker returns, dropping the batch
    | Crashed          // the registration reply had the wrong length: the assertion fails and the worker ends
    | NothingToUpload  // every item's metric failed to register
    | Uploaded         // the surviving items were posted

  /** The points kept after a registration round are exactly of metrics registered before or accepted now, and the accepted ones are new. */
  lemma UploadedAreRegistered(items: seq<DataPoint>, registered: set<string>, flags: seq<bool>)
    requires var r := ToRegister(items, registered); |r| == 0 || |flags| == |r|
    ensures var r := ToRegister(items, registered);
      var acc := if |r| == 0 then {} else Accepted(r, flags);
      var rej := if |r| == 0 then {} else Rejected(r, flags);
      && acc !! registered
      && forall p | p in Survivors(items, rej) :: p.metric in registered + acc
  {
    var r := ToRegister(items, registered);
    var acc := if |r| == 0 then {} else Accepted(r, flags);
    var rej := if |r| == 0 then {} else Rejected(r, flags);
    if |r| == 0 {
      ToRegisterDistinctComplete(items, registered);
      assert forall i | 0 <= i < |items| :: items[i].metric in registered;
    } else {
      SurvivorsAreRegistered(items, registered, flags);
    }
    forall p | p in Survivors(items, rej) ensures p.metric in registered + acc {
      var j :| 0 <= j < |items| && items[j] == p;
    }
  }

  /** What the registration and upload of one batch do: the step, the metrics newly registered, the registration count, the calls to the service, the points posted. */
  datatype Flushed = Flushed(step: Drain, accepted: set<string>, count: nat, calls: nat, uploaded: seq<DataPoint>)

  /**
   * Registration and upload of a non-empty batch, given the registry before and the
   * uploader's answer to a registration list. Only points of registered metrics are posted.
   */
  function Flush(items: seq<DataPoint>, registered: set<string>, register: seq<DataPoint> -> seq<bool>): (f: Flushed)
    ensures f.step.Crashed? || f.step.NothingToUpload? || f.step.Uploaded?
    ensures f.step == Uploaded <==> f.uploaded != []
    ensures forall i | 0 <= i < |f.uploaded| :: f.uploaded[i] in items && f.uploaded[i].metric in registered + f.accepted
    ensures f.accepted !! registered
  {
    var r := ToRegister(items, registered);
    var flags := register(r);
    if |r| > 0 && |flags| != |r| then Flushed(Crashed, {}, 0, 1, [])
    else
      var acc := if |r| == 0 then {} else Accepted(r, flags);
      var rej := if |r| == 0 then {} else Rejected(r, flags);
      var count := if |r| == 0 then 0 else CountTrue(flags);
      var up := Survivors(items, rej);
      UploadedAreRegistered(items, registered, flags);
      Flushed(if up == [] then NothingToUpload else Uploaded, acc, count,
              (if |r| == 0 then 0 else 1) + (if up == [] then 0 else 1), up)
  }

  // ---------------------------------------------------------------- the plugin

  /** The counters `read` reports. */
  const CounterNames := ["write_calls", "metrics_written", "metrics_registered", "signalboost_calls", "signalboost_errors", "queue_size"]

  /** One report value: `vl.plugin = sep.join([PLUGIN_NAME, k])` with the counter's value. */
  function Dispatched(sep: string, name: string, value: int): (e: (string, int))
    ensures e.0 == PluginName + sep + name && e.1 == value
  {
    JoinPair(PluginName, name, sep);
    (Join([PluginName, name], sep), value)
  }

  class SignalFxPlugin {
    var config: Config
    var fileTypes: map<string, seq<Source>>
    var queue: seq<QueueItem>
    var registeredSeries: set<string>
    var isShutdown: bool
    var writeCalls: nat
    var metricsWritten: nat
    var metricsRegistered: nat
    var signalboostCalls: nat
    var signalboostErrors: nat

    constructor ()
      ensures config == Defaults() && fileTypes == map[] && queue == [] && registeredSeries == {}
      ensures !isShutdown && writeCalls == 0 && metricsWritten == 0 && metricsRegistered == 0
      ensures signalboostCalls == 0 && signalboostErrors == 0
    {
      config := Defaults();
      fileTypes := map[];
      queue := [];
      registeredSeries := {};
      isShutdown := false;
      writeCalls, metricsWritten, metricsRegistered, signalboostCalls, signalboostErrors := 0, 0, 0, 0, 0;
    }

    /** `configure`: the defaults, then each option node in turn; an option that raises stops the walk. */
    method Configure(nodes: seq<ConfigNode>, snake: string -> string, compiles: string -> bool) returns (raised: bool)
      modifies this`config
      ensures Configured(config, raised) == ApplyNodes(Defaults(), nodes, snake, compiles)
    {
      config := Defaults();
      var i := 0;
      while i < |nodes|
        invariant 0 <= i <= |nodes|
        invariant ApplyNodes(config, nodes[i..], snake, compiles) == ApplyNodes(Defaults(), nodes, snake, compiles)
      {
        assert nodes[i..][0] == nodes[i] && nodes[i..][1..] == nodes[i + 1..];
        var key := snake(nodes[i].key);
        if KnownKey(key) {
          if nodes[i].values == [] {
            return true;
          }
          var next := SetOption(config, key, nodes[i].values[0], compiles);
          if next.None? {
            return true;
          }
          config := next.value;
        }
        i := i + 1;
      }
      raised := false;
    }

    /** `parseTypesFile`, given the lines of the configured file. */
    method ParseTypes(lines: seq<string>)
      modifies this`fileTypes
      ensures fileTypes == TypesOf(lines)
    {
      fileTypes := ParseTypesFile(lines);
    }

    function Room(n: nat): nat
      reads this
    {
      Taken(|queue|, config.maxQueueSize, n)
    }

    /** `put_nowait`: appends the item unless the queue is bounded and full, in which case `Full` is raised. */
    method PutNowait(item: QueueItem) returns (full: bool)
      modifies this`queue
      ensures full <==> config.maxQueueSize > 0 && |old(queue)| >= config.maxQueueSize
      ensures queue == old(queue) + (if full then [] else [item])
    {
      full := config.maxQueueSize > 0 && |queue| >= config.maxQueueSize;
      if !full {
        queue := queue + [item];
      }
    }

    /** The body of `write`'s loop for sample `i`: the point to enqueue, if any. */
    method PointFor(v: Values, vtype: seq<Source>, i: nat, source: string, time: int, matches: (string, string) -> bool)
      returns (p: Option<DataPoint>)
      requires |vtype| == |v.samples| && i < |v.samples|
      requires source == Whitelist(SourceOf(config, v)) && time == TimeToWrite(config, v)
      ensures p == PointAt(config, v, vtype, i, matches)
    {
      var s := v.samples[i];
      if !s.Val? {
        return None;
      }
      var name := MetricName(config, v, vtype[i].0);
      if !Included(config, name, matches) {
        return None;
      }
      var metric := WhitelistField(name);
      p := Some(DatapointUploader.DataPoint(Some(source), metric, s.v, vtype[i].1, time, map[]));
    }

    /**
     * `write`: one point per present, included sample of a value list, put on the
     * queue without blocking; once the queue is full the rest are dropped. An
     * unknown type is recorded as gauges first; a type whose length differs from
     * the value list's enqueues nothing.
     */
    method Write(v: Values, matches: (string, string) -> bool)
      modifies this`writeCalls, this`fileTypes, this`queue
      ensures writeCalls == old(writeCalls) + 1
      ensures fileTypes == old(fileTypes)[v.typ := TypeFor(old(fileTypes), v)]
      ensures |TypeFor(old(fileTypes), v)| != |v.samples| ==> queue == old(queue)
      ensures |TypeFor(old(fileTypes), v)| == |v.samples| ==>
        var ps := Candidates(config, v, TypeFor(old(fileTypes), v), |v.samples|, matches);
        queue == old(queue) + Points(ps[..Taken(|old(queue)|, config.maxQueueSize, |ps|)])
    {
      writeCalls := writeCalls + 1;
      var vtype := TypeFor(fileTypes, v);
      fileTypes := fileTypes[v.typ := vtype];
      if |vtype| != |v.samples| {
        return;
      }
      EnqueueSamples(v, vtype, matches);
    }

    /** The loop of `write` over the samples of a value list whose type matches it. */
    method EnqueueSamples(v: Values, vtype: seq<Source>, matches: (string, string) -> bool)
      requires |vtype| == |v.samples|
      modifies this`queue
      ensures var ps := Candidates(config, v, vtype, |v.samples|, matches);
        queue == old(queue) + Points(ps[..Taken(|old(queue)|, config.maxQueueSize, |ps|)])
    {
      ghost var q0 := queue;
      ghost var ps: seq<DataPoint> := [];
      var source := WhitelistField(SourceOf(config, v));
      var time := TimeToWrite(config, v);
      var i := 0;
      while i < |v.samples|
        invariant 0 <= i <= |v.samples|
        invariant ps == Candidates(config, v, vtype, i, matches)
        invariant queue == q0 + Points(ps[..Taken(|q0|, config.maxQueueSize, |ps|)])
      {
        var p := PointFor(v, vtype, i, source, time, matches);
        CandidatesNext(config, v, vtype, i, matches);
        Offer(p, q0, ps);
        ps := ps + if p.Some? then [p.value] else [];
        i := i + 1;
      }
    }

    /** The `put_nowait` of a sample's point, if it has one. */
    method Offer(p: Option<DataPoint>, ghost q0: seq<QueueItem>, ghost ps: seq<DataPoint>)
      requires queue == q0 + Points(ps[..Taken(|q0|, config.maxQueueSize, |ps|)])
      modifies this`queue
      ensures var more := ps + if p.Some? then [p.value] else [];
        queue == q0 + Points(more[..Taken(|q0|, config.maxQueueSize, |more|)])
    {
      if p.Some? {
        OfferToQueue(q0, config.maxQueueSize, ps, p.value, queue);
        var _ := PutNowait(Point(p.value));
      } else {
        assert ps + [] == ps;
      }
    }

    /** `shutdown`: a sentinel per flushing thread; a full queue raises `Full` part-way and `is_shutdown` stays unset. */
    method Shutdown() returns (raised: bool)
      modifies this`queue, this`isShutdown
      ensures var n := if config.flushingThreads < 0 then 0 else config.flushingThreads;
        var k := Taken(|old(queue)|, config.maxQueueSize, n);
        && queue == old(queue) + Sentinels(k)
        && raised == (k < n)
        && isShutdown == (if raised then old(isShutdown) else true)
    {
      var n := if config.flushingThreads < 0 then 0 else config.flushingThreads;
      ghost var q0 := queue;
      var x := 0;
      while x < n
        invariant 0 <= x <= n
        invariant x <= Taken(|q0|, config.maxQueueSize, n)
        invariant queue == q0 + Sentinels(x)
        modifies this`queue
      {
        var full := PutNowait(Sentinel);
        if full {
          assert x == Taken(|q0|, config.maxQueueSize, n);
          return true;
        }
        assert Sentinels(x + 1) == Sentinels(x) + [Sentinel];
        x := x + 1;
      }
      isShutdown := true;
      raised := false;
    }

    /** The non-blocking `get_nowait` loop after the first point: the batch so far, and whether a sentinel ended the worker. */
    method CollectBatch(first: DataPoint) returns (died: bool, items: seq<DataPoint>)
      modifies this`queue
      ensures Collect([first], old(queue), config.queueFlushSize) == Batch(died, items, queue)
    {
      items := [first];
      ghost var spec := Collect(items, queue, config.queueFlushSize);
      while |items| < config.queueFlushSize
        invariant Collect(items, queue, config.queueFlushSize) == spec
        decreases |queue|
      {
        if queue == [] {
          break;
        }
        var dp := queue[0];
        queue := queue[1..];
        if dp.Sentinel? {
          return true, items;
        }
        items := items + [dp.dp];
      }
      died := false;
    }

    /** The metrics to register for a batch, in first-seen order, each once. */
    method RegistrationList(items: seq<DataPoint>) returns (toRegister: seq<DataPoint>)
      ensures toRegister == ToRegister(items, registeredSeries)
    {
      var inRegisterSet: set<string> := {};
      toRegister := [];
      var i := 0;
      while i < |items|
        invariant 0 <= i <= |items|
        invariant toRegister == ToRegister(items[..i], registeredSeries)
        invariant inRegisterSet == MetricsOf(toRegister)
      {
        assert items[..i + 1][..i] == items[..i];
        var item := items[i];
        if item.metric !in registeredSeries && item.metric !in inRegisterSet {
          MetricsOfSnoc(toRegister, item);
          inRegisterSet := inRegisterSet + {item.metric};
          toRegister := toRegister + [item];
        }
        i := i + 1;
      }
      assert items[..i] == items;
    }

    /** Walks the registration reply: accepted metrics become registered and counted, the others are returned. */
    method RecordRegistration(toRegister: seq<DataPoint>, r: seq<bool>) returns (unregistered: set<string>)
      requires |r| == |toRegister|
      modifies this`registeredSeries, this`metricsRegistered
      ensures registeredSeries == old(registeredSeries) + Accepted(toRegister, r)
      ensures unregistered == Rejected(toRegister, r)
      ensures metricsRegistered == old(metricsRegistered) + CountTrue(r)
    {
      unregistered := {};
      var j := 0;
      while j < |r|
        invariant 0 <= j <= |r|
        invariant registeredSeries == old(registeredSeries) + Accepted(toRegister[..j], r[..j])
        invariant unregistered == Rejected(toRegister[..j], r[..j])
        invariant metricsRegistered == old(metricsRegistered) + CountTrue(r[..j])
      {
        RecordNext(toRegister, r, j);
        if r[j] {
          metricsRegistered := metricsRegistered + 1;
          registeredSeries := registeredSeries + {toRegister[j].metric};
        } else {
          unregistered := unregistered + {toRegister[j].metric};
        }
        j := j + 1;
      }
      assert toRegister[..j] == toRegister && r[..j] == r;
    }

    /** `[i for i in items if i.metric not in unregistered_metrics]`. */
    method KeepRegistered(items: seq<DataPoint>, unregistered: set<string>) returns (kept: seq<DataPoint>)
      ensures kept == Survivors(items, unregistered)
    {
      kept := [];
      var n := 0;
      while n < |items|
        invariant 0 <= n <= |items|
        invariant kept == Survivors(items[..n], unregistered)
      {
        assert items[..n + 1][..n] == items[..n];
        if items[n].metric !in unregistered {
          kept := kept + [items[n]];
        }
        n := n + 1;
      }
      assert items[..n] == items;
    }

    /** The state a drain iteration updates besides the queue. */
    function Drained(): (set<string>, nat, nat, nat)
      reads this
    {
      (registeredSeries, metricsWritten, metricsRegistered, signalboostCalls)
    }

    /** Registration of a batch's new metrics, then the upload of the points whose metric did not fail to register. */
    method FlushBatch(items: seq<DataPoint>, register: seq<DataPoint> -> seq<bool>) returns (step: Drain, uploaded: seq<DataPoint>)
      modifies this`registeredSeries, this`metricsWritten, this`metricsRegistered, this`signalboostCalls
      ensures var f := Flush(items, old(registeredSeries), register);
        && step == f.step && uploaded == f.uploaded
        && registeredSeries == old(registeredSeries) + f.accepted
        && metricsRegistered == old(metricsRegistered) + f.count
        && signalboostCalls == old(signalboostCalls) + f.calls
        && metricsWritten == old(metricsWritten) + |f.uploaded|
    {
      var toRegister := RegistrationList(items);
      var unregistered: set<string> := {};
      if |toRegister| > 0 {
        signalboostCalls := signalboostCalls + 1;
        var r := register(toRegister);
        if |r| != |toRegister| {
          return Crashed, [];
        }
        unregistered := RecordRegistration(toRegister, r);
      }
      uploaded := KeepRegistered(items, unregistered);
      if |uploaded| == 0 {
        return NothingToUpload, [];
      }
      metricsWritten := metricsWritten + |uploaded|;
      signalboostCalls := signalboostCalls + 1;
      step := Uploaded;
    }

    /**
     * One iteration of `drainMyQueueImpl`'s loop. `register` stands for the
     * uploader's `registerMultipleSeries`; the upload's answer is never read, so
     * the items posted are returned instead.
     */
    method DrainOnce(register: seq<DataPoint> -> seq<bool>) returns (step: Drain, uploaded: seq<DataPoint>)
      modifies this`queue, this`registeredSeries, this`metricsWritten, this`metricsRegistered, this`signalboostCalls
      ensures old(isShutdown) ==> step == Exited && queue == old(queue)
      ensures !old(isShutdown) && old(queue) == [] ==> step == Blocked && queue == old(queue)
      ensures !old(isShutdown) && old(queue) != [] && old(queue)[0].Sentinel? ==>
        step == SentinelSkipped && queue == old(queue)[1..]
      ensures !old(isShutdown) && old(queue) != [] && old(queue)[0].Point? ==>
        var b := Collect([old(queue)[0].dp], old(queue)[1..], config.queueFlushSize);
        var f := Flush(b.items, old(registeredSeries), register);
        && queue == b.rest
        && (b.died ==> step == Died)
        && (!b.died ==>
             && step == f.step && uploaded == f.uploaded
             && registeredSeries == old(registeredSeries) + f.accepted
             && metricsRegistered == old(metricsRegistered) + f.count
             && signalboostCalls == old(signalboostCalls) + f.calls
             && metricsWritten == old(metricsWritten) + |f.uploaded|)
      ensures (step.Exited? || step.Blocked? || step.SentinelSkipped? || step.Died?) ==>
        uploaded == [] && Drained() == old(Drained())
    {
      if isShutdown {
        return Exited, [];
      }
      if queue == [] {
        return Blocked, [];
      }
      var head := queue[0];
      queue := queue[1..];
      if head.Sentinel? {
        return SentinelSkipped, [];
      }
      step, uploaded := DrainBatch(head.dp, register);
    }

    /** The rest of a drain iteration once a point was taken: collect a batch, then register and upload it unless a sentinel ended the worker. */
    method DrainBatch(first: DataPoint, register: seq<DataPoint> -> seq<bool>) returns (step: Drain, uploaded: seq<DataPoint>)
      modifies this`queue, this`registeredSeries, this`metricsWritten, this`metricsRegistered, this`signalboostCalls
      ensures var b := Collect([first], old(queue), config.queueFlushSize);
        var f := Flush(b.items, old(registeredSeries), register);
        && queue == b.rest
        && (b.died ==> step == Died && uploaded == [] && Drained() == old(Drained()))
        && (!b.died ==>
             && step == f.step && uploaded == f.uploaded
             && (step.Crashed? || step.NothingToUpload? || step.Uploaded?)
             && registeredSeries == old(registeredSeries) + f.accepted
             && metricsRegistered == old(metricsRegistered) + f.count
             && signalboostCalls == old(signalboostCalls) + f.calls
             && metricsWritten == old(metricsWritten) + |f.uploaded|)
    {
      ghost var b := Collect([first], queue, config.queueFlushSize);
      var died, items := CollectBatch(first);
      assert b == Batch(died, items, queue);
      if died {
        return Died, [];
      }
      assert Drained() == old(Drained());
      step, uploaded := FlushBatch(items, register);
    }

    /**
     * The self-monitoring report of `read`: one derive value per counter, dispatched
     * under the plugin name joined to the counter's name. The source walks a dict,
     * whose order is not fixed; the model takes the order of `CounterNames`.
     */
    function Report(): (r: seq<(string, int)>)
      reads this
      ensures |r| == |CounterNames|
      ensures forall i | 0 <= i < |r| :: r[i].0 == PluginName + config.metricSeparator + CounterNames[i]
      ensures r[0].1 == writeCalls && r[1].1 == metricsWritten && r[2].1 == metricsRegistered
      ensures r[3].1 == signalboostCalls && r[4].1 == signalboostErrors && r[5].1 == |queue|
    {
      var sep := config.metricSeparator;
      [Dispatched(sep, CounterNames[0], writeCalls), Dispatched(sep, CounterNames[1], metricsWritten),
       Dispatched(sep, CounterNames[2], metricsRegistered), Dispatched(sep, CounterNames[3], signalboostCalls),
       Dispatched(sep, CounterNames[4], signalboostErrors), Dispatched(sep, CounterNames[5], |queue|)]
    }
  }
}
