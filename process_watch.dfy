// The process-watch collectd plugin: per-process metric maps, process names,
// the docker container of a process, the types.db lines, the configuration
// and the filter deciding which processes are reported.

module ProcessWatch {
  import opened Wrappers
  import opened Text
  import opened CollectdConfig

  // ---------------------------------------------------------------- metrics

  /** One entry of the metric table: the external name, the collectd type and its bounds. */
  datatype MetricDef = MetricDef(name: string, kind: string, min: string, max: string)

  /** The table `pm`, by internal name; `None` where the lookup raises `KeyError`. */
  function ProcessMetric(key: string): Option<MetricDef> {
    if key == "PM_CPU_PCT" then Some(MetricDef("process.cpu.percent", "GAUGE", "0", "100"))
    else if key == "PM_MEM_PCT" then Some(MetricDef("process.mem.percent", "GAUGE", "0", "100"))
    else if key == "PM_RUN_SECS" then Some(MetricDef("process.runtime.seconds", "COUNTER", "U", "U"))
    else if key == "PM_BYTES_READ" then Some(MetricDef("process.bytes.read", "COUNTER", "U", "U"))
    else if key == "PM_BYTES_WRITE" then Some(MetricDef("process.bytes.write", "COUNTER", "U", "U"))
    else if key == "PM_OPEN_FDS" then Some(MetricDef("process.fds.open", "COUNTER", "U", "U"))
    else if key == "PM_NUM_THREADS" then Some(MetricDef("process.threads.count", "COUNTER", "U", "U"))
    else if key == "PM_NUM_CTX_SWITCHES_VOL" then Some(MetricDef("process.cpu.contextswitches.voluntary", "COUNTER", "U", "U"))
    else if key == "PM_NUM_CTX_SWITCHES_INVOL" then Some(MetricDef("process.cpu.contextswitches.involuntary", "COUNTER", "U", "U"))
    else None
  }

  /** The nine entries of the table. */
  lemma MetricTable()
    ensures ProcessMetric("PM_CPU_PCT") == Some(MetricDef("process.cpu.percent", "GAUGE", "0", "100"))
    ensures ProcessMetric("PM_MEM_PCT") == Some(MetricDef("process.mem.percent", "GAUGE", "0", "100"))
    ensures ProcessMetric("PM_RUN_SECS") == Some(MetricDef("process.runtime.seconds", "COUNTER", "U", "U"))
    ensures ProcessMetric("PM_BYTES_READ") == Some(MetricDef("process.bytes.read", "COUNTER", "U", "U"))
    ensures ProcessMetric("PM_BYTES_WRITE") == Some(MetricDef("process.bytes.write", "COUNTER", "U", "U"))
    ensures ProcessMetric("PM_OPEN_FDS") == Some(MetricDef("process.fds.open", "COUNTER", "U", "U"))
    ensures ProcessMetric("PM_NUM_THREADS") == Some(MetricDef("process.threads.count", "COUNTER", "U", "U"))
    ensures ProcessMetric("PM_NUM_CTX_SWITCHES_VOL") == Some(MetricDef("process.cpu.contextswitches.voluntary", "COUNTER", "U", "U"))
    ensures ProcessMetric("PM_NUM_CTX_SWITCHES_INVOL") == Some(MetricDef("process.cpu.contextswitches.involuntary", "COUNTER", "U", "U"))
  {
  }

  /** No two internal names share an external name, so setting one metric never overwrites another. */
  lemma ExternalNamesDistinct(k: string, k': string)
    requires ProcessMetric(k).Some? && ProcessMetric(k').Some? && k != k'
    ensures ProcessMetric(k).value.name != ProcessMetric(k').value.name
  {
  }

  /** A process's metrics: external name to value and collectd type. */
  type MetricMap = map<string, (real, string)>

  /** `set_process_metric_val`: stores the value with the type of the metric under its external name. */
  function SetMetric(m: MetricMap, key: string, v: real): Option<MetricMap> {
    match ProcessMetric(key)
    case None => None
    case Some(d) => Some(m[d.name := (v, d.kind)])
  }

  /** `get_process_metric_val`; `None` where it raises `KeyError`. */
  function GetMetric(m: MetricMap, key: string): Option<real> {
    match ProcessMetric(key)
    case None => None
    case Some(d) => if d.name in m then Some(m[d.name].0) else None
  }

  /**
   * Reading back a metric gives the value just set, stored with the
   * metric's type; every other metric reads as before; an unknown name raises.
   */
  lemma SetThenGet(m: MetricMap, k: string, v: real, k': string)
    ensures SetMetric(m, k, v).Some? <==> ProcessMetric(k).Some?
    ensures ProcessMetric(k).Some? ==>
      var m' := SetMetric(m, k, v).value;
      && GetMetric(m', k) == Some(v)
      && m'[ProcessMetric(k).value.name].1 == ProcessMetric(k).value.kind
      && (k' != k ==> GetMetric(m', k') == GetMetric(m, k'))
  {
    if ProcessMetric(k).Some? && ProcessMetric(k').Some? && k' != k {
      ExternalNamesDistinct(k, k');
    }
  }

  /** The dictionary a process's metrics are collected into. */
  class ProcessMetricMap {
    var entries: MetricMap

    constructor ()
      ensures entries == map[]
    {
      entries := map[];
    }

    /** `set_process_metric_val` on this map; raises on an unknown metric. */
    method Set(key: string, v: real) returns (raised: bool)
      modifies this
      ensures raised <==> ProcessMetric(key).None?
      ensures !raised ==> entries == SetMetric(old(entries), key, v).value
      ensures raised ==> entries == old(entries)
      ensures entries == Store(old(entries), key, v)
    {
      var d := ProcessMetric(key);
      if d.None? {
        return true;
      }
      entries := entries[d.value.name := (v, d.value.kind)];
      raised := false;
    }
  }

  // ---------------------------------------------------------------- types.db

  /** `'%s\tvalue:%s:%s:%s'` of one metric, without the newline. */
  function TypesDbEntry(d: MetricDef): string {
    d.name + "\tvalue:" + d.kind + ":" + d.min + ":" + d.max
  }

  /** What `write_types_db_metrics` writes: one newline-terminated line per metric, in order. */
  function TypesDb(mm: seq<MetricDef>): string {
    if mm == [] then "" else TypesDbEntry(mm[0]) + "\n" + TypesDb(mm[1..])
  }

  /** `write_types_db_metrics`, with the file as the returned text. */
  method WriteTypesDb(mm: seq<MetricDef>) returns (out: string)
    ensures out == TypesDb(mm)
  {
    out := "";
    var i := 0;
    while i < |mm|
      invariant 0 <= i <= |mm|
      invariant out + TypesDb(mm[i..]) == TypesDb(mm)
    {
      TypesDbNext(out, mm, i);
      out := out + TypesDbEntry(mm[i]) + "\n";
      i := i + 1;
    }
    assert mm[i..] == [];
  }

  /** Writing the line of metric `i` moves it from the pending text to the written text. */
  lemma TypesDbNext(out: string, mm: seq<MetricDef>, i: nat)
    requires i < |mm|
    ensures out + TypesDb(mm[i..]) == (out + TypesDbEntry(mm[i]) + "\n") + TypesDb(mm[i + 1..])
  {
    assert mm[i..][0] == mm[i] && mm[i..][1..] == mm[i + 1..];
    var e, t := TypesDbEntry(mm[i]), TypesDb(mm[i + 1..]);
    assert TypesDb(mm[i..]) == e + "\n" + t;
    assert out + (e + "\n" + t) == (out + e + "\n") + t;
  }

  predicate OneLine(d: MetricDef) {
    '\n' !in d.name && '\n' !in d.kind && '\n' !in d.min && '\n' !in d.max
  }

  lemma {:induction false} TypesDbJoin(mm: seq<MetricDef>)
    ensures TypesDb(mm) == Join(seq(|mm|, i requires 0 <= i < |mm| => TypesDbEntry(mm[i])) + [""], "\n")
    decreases |mm|
  {
    var lines := seq(|mm|, i requires 0 <= i < |mm| => TypesDbEntry(mm[i]));
    if mm != [] {
      TypesDbJoin(mm[1..]);
      var rest := seq(|mm[1..]|, i requires 0 <= i < |mm[1..]| => TypesDbEntry(mm[1..][i]));
      assert (lines + [""])[1..] == rest + [""];
      assert (lines + [""])[0] == TypesDbEntry(mm[0]);
    }
  }

  lemma EntryOneLine(d: MetricDef)
    requires OneLine(d)
    ensures '\n' !in TypesDbEntry(d)
  {
  }

  /** Splitting the file at newlines gives back exactly one entry per metric, in order, then nothing. */
  lemma TypesDbLines(mm: seq<MetricDef>)
    requires forall i | 0 <= i < |mm| :: OneLine(mm[i])
    ensures Split(TypesDb(mm), '\n') == seq(|mm|, i requires 0 <= i < |mm| => TypesDbEntry(mm[i])) + [""]
  {
    var lines := seq(|mm|, i requires 0 <= i < |mm| => TypesDbEntry(mm[i]));
    var parts := lines + [""];
    TypesDbJoin(mm);
    forall i | 0 <= i < |parts| ensures '\n' !in parts[i] {
      if i < |mm| {
        EntryOneLine(mm[i]);
        assert parts[i] == lines[i] == TypesDbEntry(mm[i]);
      } else {
        assert parts[i] == "";
      }
    }
    SplitJoin(parts, '\n');
  }

  // ---------------------------------------------------------------- docker

  /**
   * `get_docker_container_id` on the first line of `/proc/<pid>/cgroup`: the
   * third `/`-separated field, right-stripped, when the second is `docker`.
   */
  function DockerContainerId(cgroupLine: string): Option<string> {
    var parts := Split(cgroupLine, '/');
    if |parts| > 2 && parts[1] == "docker" then Some(RStrip(parts[2])) else None
  }

  /** A docker cgroup line `<hierarchy>/docker/<id>` names the container `<id>`. */
  lemma DockerLineNamesContainer(hierarchy: string, id: string)
    requires '/' !in hierarchy && '/' !in id
    requires id != [] && !IsSpace(id[|id| - 1])
    ensures DockerContainerId(hierarchy + "/docker/" + id + "\n") == Some(id)
  {
    var line := hierarchy + "/docker/" + id + "\n";
    var parts := [hierarchy, "docker", id + "\n"];
    assert parts[1..] == ["docker", id + "\n"];
    JoinPair("docker", id + "\n", "/");
    assert Join(parts, "/") == hierarchy + "/" + Join(parts[1..], "/");
    assert line == hierarchy + "/" + ("docker" + "/" + (id + "\n"));
    assert forall i | 0 <= i < |parts| :: '/' !in parts[i];
    SplitJoin(parts, '/');
    RStripSpaces(id, "\n");
  }

  /** A line with fewer than two `/`, or whose second field is not `docker`, names no container. */
  lemma NotDockerLine(cgroupLine: string)
    requires var parts := Split(cgroupLine, '/'); |parts| <= 2 || parts[1] != "docker"
    ensures DockerContainerId(cgroupLine) == None
  {
  }

  /** A line without a `/` names no container. */
  lemma NoSlashNoContainer(cgroupLine: string)
    requires '/' !in cgroupLine
    ensures DockerContainerId(cgroupLine) == None
  {
    SplitNoSep(cgroupLine, '/');
  }

  /**
   * `get_docker_container_name` as written: the container id is a string, so
   * the `%d` of its first log call raises TypeError (`None` here) before the
   * lookup is made; a process outside docker gets the empty name.
   */
  function DockerContainerNameAsWritten(cgroupLine: string): (r: Option<string>)
    ensures r.Some? ==> r.value == ""
  {
    if DockerContainerId(cgroupLine).Some? then None else Some("")
  }

  /**
   * `get_docker_container_name` with the id logged as the string it is: the
   * `Name` the docker daemon reports for the container, without its leading
   * `/`; empty outside docker or when the lookup raises (`inspected` is None).
   */
  function DockerContainerName(cgroupLine: string, inspected: Option<string>): string {
    if DockerContainerId(cgroupLine).None? || inspected.None? || inspected.value == [] then ""
    else inspected.value[1..]
  }

  /**
   * A process in container `abc` whose daemon calls it `/web`: as written the
   * lookup raises, and the TypeError is caught nowhere up to `send_metrics`;
   * the corrected lookup names the container `web`.
   */
  lemma DockerLookupRaises()
    ensures DockerContainerNameAsWritten("12:cpu,cpuacct:/docker/abc\n") == None
    ensures DockerContainerName("12:cpu,cpuacct:/docker/abc\n", Some("/web")) == "web"
  {
    DockerLineNamesContainer("12:cpu,cpuacct:", "abc");
    assert "12:cpu,cpuacct:" + "/docker/" + "abc" + "\n" == "12:cpu,cpuacct:/docker/abc\n";
  }

  /** The corrected lookup reports the daemon's name of a docker process's container, and nothing for any other process. */
  lemma DockerContainerNameReported(hierarchy: string, id: string, name: string, cgroupLine: string, inspected: Option<string>)
    requires '/' !in hierarchy && '/' !in id
    requires id != [] && !IsSpace(id[|id| - 1])
    ensures DockerContainerName(hierarchy + "/docker/" + id + "\n", Some("/" + name)) == name
    ensures DockerContainerId(cgroupLine).None? ==> DockerContainerName(cgroupLine, inspected) == ""
    ensures inspected.None? ==> DockerContainerName(cgroupLine, inspected) == ""
  {
    DockerLineNamesContainer(hierarchy, id);
    assert ("/" + name)[1..] == name;
  }

  // ---------------------------------------------------------------- process names

  /** collectd gives `-` a meaning: `/` and `-` in a process name become `_`. */
  function Mangle(name: string): (r: string)
    ensures |r| == |name| && '/' !in r && '-' !in r
  {
    var r := Replace(Replace(name, '/', '_'), '-', '_');
    assert forall i | 0 <= i < |r| :: r[i] != '/' && r[i] != '-';
    r
  }

  /** The reported name of a process: `<name>[pid=P,ppid=Q]`, with `,containername=N` before the bracket when N is non-empty. */
  function ProcessName(name: string, pid: int, ppid: int, containerName: string): string {
    Mangle(name) + "[pid=" + IntToString(pid) + ",ppid=" + IntToString(ppid)
      + (if containerName != "" then ",containername=" + containerName else "") + "]"
  }

  /**
   * `mk_process_name`, with the corrected container lookup: the first line of
   * the process's `/proc/<pid>/cgroup` and the docker daemon's answer are
   * parameters.
   */
  method MkProcessName(inName: string, pid: int, ppid: int, reportContainerNames: bool, cgroupLine: string, inspected: Option<string>)
    returns (pname: string)
    ensures pname == ProcessName(inName, pid, ppid, if reportContainerNames then DockerContainerName(cgroupLine, inspected) else "")
  {
    pname := inName;
    var dcname := "";
    if reportContainerNames {
      dcname := DockerContainerName(cgroupLine, inspected);
    }
    pname := Replace(Replace(pname, '/', '_'), '-', '_');
    pname := pname + "[pid=" + IntToString(pid) + ",ppid=" + IntToString(ppid);
    if dcname != "" {
      pname := pname + ",containername=" + dcname;
    }
    pname := pname + "]";
  }

  lemma NameParts(head: string, p: string, q: string, c: string)
    ensures var r := head + "[pid=" + p + ",ppid=" + q + (if c != "" then ",containername=" + c else "") + "]";
      && |r| > |head|
      && r[..|head|] == head
      && r[|head|..|head| + 5] == "[pid="
      && r[|r| - 1] == ']'
      && (c != "" ==> r[|r| - |c| - 16..] == ",containername=" + c + "]")
      && (c == "" ==> r[|r| - |q| - 7..] == ",ppid=" + q + "]")
  {
    var t := if c != "" then ",containername=" + c else "";
    var r := head + "[pid=" + p + ",ppid=" + q + t + "]";
    assert r == head + ("[pid=" + p + ",ppid=" + q + t + "]");
    if c != "" {
      assert r == (head + "[pid=" + p + ",ppid=" + q) + (",containername=" + c + "]");
    } else {
      assert r == (head + "[pid=" + p) + (",ppid=" + q + "]");
    }
  }

  /**
   * A process name starts with the process's name without `/` or `-`,
   * followed by `[pid=`, and ends with the parent pid or the container name
   * and a closing bracket; it is never empty.
   */
  lemma ProcessNameShape(name: string, pid: int, ppid: int, containerName: string)
    ensures var r := ProcessName(name, pid, ppid, containerName);
      && |r| > |name|
      && r[..|name|] == Mangle(name)
      && '/' !in r[..|name|] && '-' !in r[..|name|]
      && r[|name|..|name| + 5] == "[pid="
      && r[|r| - 1] == ']'
      && (containerName != "" ==> r[|r| - |containerName| - 16..] == ",containername=" + containerName + "]")
      && (containerName == "" ==> r[|r| - |IntToString(ppid)| - 7..] == ",ppid=" + IntToString(ppid) + "]")
  {
    NameParts(Mangle(name), IntToString(pid), IntToString(ppid), containerName);
  }

  // ---------------------------------------------------------------- configuration

  /** `MIN_RUN_INTERVAL`, `DEBUG_DO_FILTER_PROCESSES`, the two percentages and `REPORT_DOCKER_CONTAINER_NAMES`. */
  datatype Settings = Settings(minRunInterval: int, filterProcesses: bool, minCpuPercent: int,
                               minMemPercent: int, reportContainerNames: bool)

  const DefaultSettings: Settings := Settings(0, true, 0, 0, false)

  /** `str2bool`. */
  predicate Str2Bool(v: string) {
    Lower(v) in ["yes", "true", "t", "1"]
  }

  /** Unlike the upload plugin's `str2bool`, this one does not accept `y`. */
  lemma Str2BoolRejectsY()
    ensures !Str2Bool("y") && !Str2Bool("Y") && Str2Bool("Yes") && Str2Bool("TRUE")
  {
    assert Lower("y") == Lower("Y") == "y";
    assert "y" != "t" && "y" != "1";
    assert Lower("Yes") == "yes";
    assert Lower("TRUE") == "true";
  }

  /** A boolean option: a boolean as is, a string through `str2bool`; a number has no `lower()` and raises. */
  function BoolOption(v: ConfigValue): Option<bool> {
    match v
    case Flag(b) => Some(b)
    case Str(s) => Some(Str2Bool(s))
    case Num(_) => None
  }

  /** A percentage option: an integer other than 0 and at most 100; anything else raises. */
  function PercentOption(v: ConfigValue): (r: Option<int>)
    ensures r.Some? ==> r.value != 0 && r.value <= 100
  {
    match ToInt(v)
    case None => None
    case Some(n) => if n == 0 || n > 100 then None else Some(n)
  }

  /** The keys `process_watch_config` knows. */
  predicate KnownKey(key: string) {
    key in ["MinRuntimeSeconds", "FilterProcesses", "MinCPUPercent", "MinMemoryPercent", "ReportDockerContainerNames"]
  }

  /** Whether one option node is accepted: a known key with a first value of the right kind. */
  predicate Accepted(node: ConfigNode) {
    && KnownKey(node.key)
    && node.values != []
    && (node.key == "MinRuntimeSeconds" ==> ToInt(node.values[0]).Some?)
    && (node.key == "FilterProcesses" || node.key == "ReportDockerContainerNames" ==> BoolOption(node.values[0]).Some?)
    && (node.key == "MinCPUPercent" || node.key == "MinMemoryPercent" ==> PercentOption(node.values[0]).Some?)
  }

  /** One option node of `process_watch_config`; `None` where it raises. */
  function ConfigStep(s: Settings, node: ConfigNode): (r: Option<Settings>)
    ensures r.Some? <==> Accepted(node)
  {
    match FirstValue(node)
    case None => None
    case Some(v) =>
      if node.key == "MinRuntimeSeconds" then
        (match ToInt(v) case None => None case Some(n) => Some(s.(minRunInterval := n)))
      else if node.key == "FilterProcesses" then
        (match BoolOption(v) case None => None case Some(b) => Some(s.(filterProcesses := b)))
      else if node.key == "MinCPUPercent" then
        (match PercentOption(v) case None => None case Some(n) => Some(s.(minCpuPercent := n)))
      else if node.key == "MinMemoryPercent" then
        (match PercentOption(v) case None => None case Some(n) => Some(s.(minMemPercent := n)))
      else if node.key == "ReportDockerContainerNames" then
        (match BoolOption(v) case None => None case Some(b) => Some(s.(reportContainerNames := b)))
      else None
  }

  /** collectd's floats are truncated: `MinCPUPercent 0.5` reads as 0 and raises, `MinCPUPercent 50.7` sets 50. */
  lemma FractionalPercent(s: Settings)
    ensures ConfigStep(s, ConfigNode("MinCPUPercent", [Num(0.5)])).None?
    ensures ConfigStep(s, ConfigNode("MinCPUPercent", [Num(50.7)])) == Some(s.(minCpuPercent := 50))
  {
    assert ToInt(Num(0.5)) == Some(0);
    assert ToInt(Num(50.7)) == Some(50);
  }

  /** The settings after the option nodes, in order, and whether one of them raised (the rest are then not read). */
  datatype Configured = Configured(settings: Settings, raised: bool)

  function ConfigRun(s: Settings, nodes: seq<ConfigNode>): Configured
    decreases |nodes|
  {
    if nodes == [] then Configured(s, false)
    else
      match ConfigStep(s, nodes[0])
      case None => Configured(s, true)
      case Some(s') => ConfigRun(s', nodes[1..])
  }

  /** The configuration raises exactly when some option node is unknown or has a bad first value. */
  lemma {:induction false} ConfigRaisesIff(s: Settings, nodes: seq<ConfigNode>)
    ensures ConfigRun(s, nodes).raised <==> exists i | 0 <= i < |nodes| :: !Accepted(nodes[i])
    decreases |nodes|
  {
    if nodes != [] {
      var r := ConfigStep(s, nodes[0]);
      if r.Some? {
        ConfigRaisesIff(r.value, nodes[1..]);
        if exists i | 0 <= i < |nodes| :: !Accepted(nodes[i]) {
          var i :| 0 <= i < |nodes| && !Accepted(nodes[i]);
          assert nodes[1..][i - 1] == nodes[i];
        }
        if exists i | 0 <= i < |nodes[1..]| :: !Accepted(nodes[1..][i]) {
          var i :| 0 <= i < |nodes[1..]| && !Accepted(nodes[1..][i]);
          assert nodes[i + 1] == nodes[1..][i];
        }
      }
    }
  }

  /** Percentages left at 0 or set through the option stay between 1 and 100 when set. */
  predicate PercentsValid(s: Settings) {
    s.minCpuPercent <= 100 && s.minMemPercent <= 100
  }

  /** No accepted configuration sets a percentage of 0 or above 100. */
  lemma {:induction false} ConfigKeepsPercents(s: Settings, nodes: seq<ConfigNode>)
    requires PercentsValid(s)
    ensures PercentsValid(ConfigRun(s, nodes).settings)
    ensures ConfigRun(s, nodes).settings.minCpuPercent != s.minCpuPercent ==> ConfigRun(s, nodes).settings.minCpuPercent != 0
    ensures ConfigRun(s, nodes).settings.minMemPercent != s.minMemPercent ==> ConfigRun(s, nodes).settings.minMemPercent != 0
    decreases |nodes|
  {
    if nodes != [] {
      var r := ConfigStep(s, nodes[0]);
      if r.Some? {
        ConfigKeepsPercents(r.value, nodes[1..]);
      }
    }
  }

  /** The plugin's configuration globals and whether its read callback was registered. */
  class ProcessWatchConfig {
    var settings: Settings
    var readRegistered: bool

    constructor ()
      ensures settings == DefaultSettings && !readRegistered
    {
      settings := DefaultSettings;
      readRegistered := false;
    }

    /** `process_watch_config`: every option node in order; the read callback is registered only when none raised. */
    method Configure(children: seq<ConfigNode>) returns (raised: bool)
      modifies this
      ensures Configured(settings, raised) == ConfigRun(old(settings), children)
      ensures readRegistered == (old(readRegistered) || !raised)
    {
      ghost var start := settings;
      var i := 0;
      while i < |children|
        invariant 0 <= i <= |children|
        invariant ConfigRun(settings, children[i..]) == ConfigRun(start, children)
        invariant readRegistered == old(readRegistered)
      {
        assert children[i..][0] == children[i] && children[i..][1..] == children[i + 1..];
        var kv := children[i];
        if kv.values == [] {
          return true;
        }
        var v := kv.values[0];
        if kv.key == "MinRuntimeSeconds" {
          var n := ToInt(v);
          if n.None? {
            return true;
          }
          settings := settings.(minRunInterval := n.value);
        } else if kv.key == "FilterProcesses" {
          var b := BoolOption(v);
          if b.None? {
            return true;
          }
          settings := settings.(filterProcesses := b.value);
        } else if kv.key == "MinCPUPercent" {
          var n := ToInt(v);
          if n.None? || n.value == 0 || n.value > 100 {
            return true;
          }
          settings := settings.(minCpuPercent := n.value);
        } else if kv.key == "MinMemoryPercent" {
          var n := ToInt(v);
          if n.None? || n.value == 0 || n.value > 100 {
            return true;
          }
          settings := settings.(minMemPercent := n.value);
        } else if kv.key == "ReportDockerContainerNames" {
          var b := BoolOption(v);
          if b.None? {
            return true;
          }
          settings := settings.(reportContainerNames := b.value);
        } else {
          return true;
        }
        i := i + 1;
      }
      assert children[i..] == [];
      readRegistered := true;
      raised := false;
    }
  }

  // ---------------------------------------------------------------- the filter and the metric map

  /** Whether a process is reported: always without filtering, otherwise when it has run long enough and uses enough CPU or memory. */
  predicate Reported(s: Settings, runtime: real, cpu: real, mem: real) {
    !s.filterProcesses
    || (runtime >= s.minRunInterval as real && (cpu >= s.minCpuPercent as real || mem >= s.minMemPercent as real))
  }

  /** With filtering off every process is reported; with the default thresholds every process with non-negative figures is. */
  lemma FilterDefaults(s: Settings, runtime: real, cpu: real, mem: real)
    ensures !s.filterProcesses ==> Reported(s, runtime, cpu, mem)
    ensures s == DefaultSettings && 0.0 <= runtime && 0.0 <= cpu ==> Reported(s, runtime, cpu, mem)
  {
  }

  /** A process using more CPU or memory, or running longer, is reported whenever the lesser one is. */
  lemma ReportedMonotone(s: Settings, runtime: real, cpu: real, mem: real, runtime': real, cpu': real, mem': real)
    requires Reported(s, runtime, cpu, mem)
    requires runtime <= runtime' && cpu <= cpu' && mem <= mem'
    ensures Reported(s, runtime', cpu', mem')
  {
  }

  /** What `proc.as_dict` gives, with the run time already computed from the clock. */
  datatype ProcessInfo = ProcessInfo(
    pid: int, ppid: int, runtime: real, cpu: real, mem: real, fds: Option<real>, threads: real,
    ctxVoluntary: real, ctxInvoluntary: real, io: Option<(real, real)>, exe: string, name: string)

  /** `os.path.basename`: what follows the last `/`. */
  function BaseName(path: string): string {
    var parts := Split(path, '/');
    parts[|parts| - 1]
  }

  /** The name a process is reported under before mangling: its executable's base name, or its own name for kernel threads. */
  function RawName(info: ProcessInfo): string {
    if BaseName(info.exe) == "" then info.name else BaseName(info.exe)
  }

  /** `set_process_metric_val` where it does not raise; an unknown metric leaves the map alone. */
  function Store(m: MetricMap, key: string, v: real): MetricMap {
    match SetMetric(m, key, v)
    case None => m
    case Some(m') => m'
  }

  /** The file-descriptor count, 0 where it could not be read. */
  function OpenFds(info: ProcessInfo): real {
    if info.fds.Some? then info.fds.value else 0.0
  }

  /** The metric map of a reported process: the seven metrics always read, then the I/O counters when readable. */
  function ProcessMetrics(info: ProcessInfo): MetricMap {
    var m := Store(map[], "PM_CPU_PCT", info.cpu);
    var m := Store(m, "PM_MEM_PCT", info.mem);
    var m := Store(m, "PM_RUN_SECS", info.runtime);
    var m := Store(m, "PM_OPEN_FDS", OpenFds(info));
    var m := Store(m, "PM_NUM_THREADS", info.threads);
    var m := Store(m, "PM_NUM_CTX_SWITCHES_VOL", info.ctxVoluntary);
    var m := Store(m, "PM_NUM_CTX_SWITCHES_INVOL", info.ctxInvoluntary);
    if info.io.Some? then Store(Store(m, "PM_BYTES_READ", info.io.value.0), "PM_BYTES_WRITE", info.io.value.1)
    else m
  }

  /** Each metric of a reported process reads back as the figure it was taken from; the I/O counters exactly when readable. */
  lemma ProcessMetricsRead(info: ProcessInfo)
    ensures var m := ProcessMetrics(info);
      && GetMetric(m, "PM_CPU_PCT") == Some(info.cpu)
      && GetMetric(m, "PM_MEM_PCT") == Some(info.mem)
      && GetMetric(m, "PM_RUN_SECS") == Some(info.runtime)
      && GetMetric(m, "PM_OPEN_FDS") == Some(OpenFds(info))
      && GetMetric(m, "PM_NUM_THREADS") == Some(info.threads)
      && GetMetric(m, "PM_NUM_CTX_SWITCHES_VOL") == Some(info.ctxVoluntary)
      && GetMetric(m, "PM_NUM_CTX_SWITCHES_INVOL") == Some(info.ctxInvoluntary)
      && (info.io.Some? ==>
            GetMetric(m, "PM_BYTES_READ") == Some(info.io.value.0) && GetMetric(m, "PM_BYTES_WRITE") == Some(info.io.value.1))
      && (info.io.None? ==> GetMetric(m, "PM_BYTES_READ").None? && GetMetric(m, "PM_BYTES_WRITE").None?)
  {
    ReadsCpu(info);
    ReadsMem(info);
    ReadsRuntime(info);
    ReadsFds(info);
    ReadsThreads(info);
    ReadsCtxVoluntary(info);
    ReadsCtxInvoluntary(info);
    ReadsBytesRead(info);
    ReadsBytesWritten(info);
  }

  // The read-backs of `ProcessMetricsRead`, one metric at a time.

  lemma ReadsCpu(info: ProcessInfo)
    ensures GetMetric(ProcessMetrics(info), "PM_CPU_PCT") == Some(info.cpu)
  {
    MetricTable();
  }

  lemma ReadsMem(info: ProcessInfo)
    ensures GetMetric(ProcessMetrics(info), "PM_MEM_PCT") == Some(info.mem)
  {
    MetricTable();
  }

  lemma ReadsRuntime(info: ProcessInfo)
    ensures GetMetric(ProcessMetrics(info), "PM_RUN_SECS") == Some(info.runtime)
  {
    MetricTable();
  }

  lemma ReadsFds(info: ProcessInfo)
    ensures GetMetric(ProcessMetrics(info), "PM_OPEN_FDS") == Some(OpenFds(info))
  {
    MetricTable();
  }

  lemma ReadsThreads(info: ProcessInfo)
    ensures GetMetric(ProcessMetrics(info), "PM_NUM_THREADS") == Some(info.threads)
  {
    MetricTable();
  }

  lemma ReadsCtxVoluntary(info: ProcessInfo)
    ensures GetMetric(ProcessMetrics(info), "PM_NUM_CTX_SWITCHES_VOL") == Some(info.ctxVoluntary)
  {
    MetricTable();
  }

  lemma ReadsCtxInvoluntary(info: ProcessInfo)
    ensures GetMetric(ProcessMetrics(info), "PM_NUM_CTX_SWITCHES_INVOL") == Some(info.ctxInvoluntary)
  {
    MetricTable();
  }

  lemma ReadsBytesRead(info: ProcessInfo)
    ensures GetMetric(ProcessMetrics(info), "PM_BYTES_READ") == if info.io.Some? then Some(info.io.value.0) else None
  {
    MetricTable();
  }

  lemma ReadsBytesWritten(info: ProcessInfo)
    ensures GetMetric(ProcessMetrics(info), "PM_BYTES_WRITE") == if info.io.Some? then Some(info.io.value.1) else None
  {
    MetricTable();
  }

  /**
   * `populate_process_metrics`: a reported process gets its name and its
   * metric map, built one `set_process_metric_val` at a time.
   */
  method PopulateProcessMetrics(s: Settings, info: ProcessInfo, cgroupLine: string, inspected: Option<string>)
    returns (pname: Option<string>, pmap: Option<MetricMap>)
    ensures pname.Some? <==> Reported(s, info.runtime, info.cpu, info.mem)
    ensures pname.Some? <==> pmap.Some?
    ensures pname.Some? ==>
      && pname.value == ProcessName(RawName(info), info.pid, info.ppid, if s.reportContainerNames then DockerContainerName(cgroupLine, inspected) else "")
      && pmap.value == ProcessMetrics(info)
  {
    var name := BaseName(info.exe);
    if name == "" {
      name := info.name;
    }
    var fds := if info.fds.Some? then info.fds.value else 0.0;
    if !Reported(s, info.runtime, info.cpu, info.mem) {
      return None, None;
    }
    var m := new ProcessMetricMap();
    var r := m.Set("PM_CPU_PCT", info.cpu);
    r := m.Set("PM_MEM_PCT", info.mem);
    r := m.Set("PM_RUN_SECS", info.runtime);
    r := m.Set("PM_OPEN_FDS", fds);
    r := m.Set("PM_NUM_THREADS", info.threads);
    r := m.Set("PM_NUM_CTX_SWITCHES_VOL", info.ctxVoluntary);
    r := m.Set("PM_NUM_CTX_SWITCHES_INVOL", info.ctxInvoluntary);
    if info.io.Some? {
      r := m.Set("PM_BYTES_READ", info.io.value.0);
      r := m.Set("PM_BYTES_WRITE", info.io.value.1);
    }
    var n := MkProcessName(name, info.pid, info.ppid, s.reportContainerNames, cgroupLine, inspected);
    pname, pmap := Some(n), Some(m.entries);
  }
}
