// The small stateful helpers of the SignalFx metadata plugin: the host-info
// diff, severities and priorities, the response-time maximum, the AWS
// dimension on the post URLs, the metadata send schedule and the host name
// taken from notifications.

module MetadataHelpers {
  import opened Wrappers
  import opened Text
  import opened Dicts

  // ---------------------------------------------------------------- map_diff

  /** The entries of `host` that are new or changed with respect to `old`, as `map_diff` builds them. */
  function Changed<V(==)>(host: Dict<V>, oldInfo: Dict<V>): Dict<V> {
    if host == [] then []
    else
      var diff := Changed(host[..|host| - 1], oldInfo);
      var e := host[|host| - 1];
      if Lookup(oldInfo, e.0) != Some(e.1) then Put(diff, e.0, e.1) else diff
  }

  /** `map_diff`: the loop over the new host info. */
  method MapDiff<V(==)>(host: Dict<V>, oldInfo: Dict<V>) returns (diff: Dict<V>)
    ensures diff == Changed(host, oldInfo)
  {
    diff := [];
    var i := 0;
    while i < |host|
      invariant 0 <= i <= |host|
      invariant diff == Changed(host[..i], oldInfo)
    {
      var k := host[i].0;
      var v := host[i].1;
      assert host[..i + 1][..i] == host[..i];
      var prior := Lookup(oldInfo, k);
      if prior.None? {
        diff := Put(diff, k, v);
      } else if prior.value != v {
        diff := Put(diff, k, v);
      }
      i := i + 1;
    }
    assert host[..i] == host;
  }

  /**
   * The diff holds exactly the keys of the new info that are absent from the
   * old info or hold another value there, with their new value; a key
   * missing from the new info (a removal) is never reported.
   */
  lemma {:induction false} ChangedLookup<V>(host: Dict<V>, oldInfo: Dict<V>, k: string)
    requires Distinct(host)
    ensures Lookup(Changed(host, oldInfo), k) ==
      if Lookup(host, k).Some? && Lookup(oldInfo, k) != Lookup(host, k) then Lookup(host, k) else None
    ensures Distinct(Changed(host, oldInfo))
  {
    if host != [] {
      var init := host[..|host| - 1];
      var e := host[|host| - 1];
      assert host == init + [e];
      SnocDistinct(init, e);
      ChangedLookup(init, oldInfo, k);
      SnocLookup(init, e, k);
      LookupKeys(init, k);
      LookupKeys(init, e.0);
      PutLookup(Changed(init, oldInfo), e.0, e.1, k);
      PutDistinct(Changed(init, oldInfo), e.0, e.1);
    }
  }

  /** Applying the diff to the old info gives the new info on every key the new info has. */
  lemma ChangedApplies<V>(host: Dict<V>, oldInfo: Dict<V>, k: string)
    requires Distinct(host)
    ensures Lookup(Update(oldInfo, Changed(host, oldInfo)), k) == if k in Keys(host) then Lookup(host, k) else Lookup(oldInfo, k)
  {
    ChangedLookup(host, oldInfo, k);
    UpdateLookup(oldInfo, Changed(host, oldInfo), k);
    LookupKeys(Changed(host, oldInfo), k);
    LookupKeys(host, k);
  }

  // ---------------------------------------------------------------- severities and priorities

  /** `get_severity`: collectd's name of a notification severity; `None` where the lookup raises `KeyError`. */
  function Severity(code: int): (r: Option<string>)
    ensures r.Some? <==> code == 1 || code == 2 || code == 4
  {
    if code == 1 then Some("FAILURE")
    else if code == 2 then Some("WARNING")
    else if code == 4 then Some("OKAY")
    else None
  }

  /** Different severities have different names. */
  lemma SeverityInjective(a: int, b: int)
    requires Severity(a).Some? && Severity(a) == Severity(b)
    ensures a == b
  {
  }

  /** The priority `rt` (real time), or anything else `int` refuses. */
  const RealTimePriority: int := 99

  /** `parse_priority`: the number a priority column reads as, or 99. */
  function ParsePriority(priority: string): (r: int)
    ensures ParseInt(priority).Some? ==> r == ParseInt(priority).value
    ensures ParseInt(priority).None? ==> r == RealTimePriority
  {
    match ParseInt(priority)
    case Some(n) => n
    case None => RealTimePriority
  }

  /** A printed number reads back as itself. */
  lemma PriorityOfNumber(n: int)
    ensures ParsePriority(IntToString(n)) == n
  {
    ParseIntToString(n);
  }

  /** `rt` reads as the highest priority. */
  lemma PriorityOfRealTime()
    ensures ParsePriority("rt") == RealTimePriority
  {
    assert Strip("rt") == "rt" by {
      StripUnchanged("rt");
    }
    assert !IsDigit('r');
  }

  // ---------------------------------------------------------------- response times

  /** The largest of the round trips `diffs`, or 0 when there is none larger. */
  function MaxOf(diffs: seq<real>): real {
    if diffs == [] then 0.0
    else
      var m := MaxOf(diffs[..|diffs| - 1]);
      if diffs[|diffs| - 1] > m then diffs[|diffs| - 1] else m
  }

  /** The running maximum bounds every round trip and is one of them unless all were at most 0. */
  lemma {:induction false} MaxOfIsMax(diffs: seq<real>)
    ensures 0.0 <= MaxOf(diffs)
    ensures forall i | 0 <= i < |diffs| :: diffs[i] <= MaxOf(diffs)
    ensures MaxOf(diffs) == 0.0 || MaxOf(diffs) in diffs
  {
    if diffs != [] {
      var init := diffs[..|diffs| - 1];
      MaxOfIsMax(init);
      assert diffs == init + [diffs[|diffs| - 1]];
      forall i | 0 <= i < |diffs| ensures diffs[i] <= MaxOf(diffs) {
        if i < |init| {
          assert diffs[i] == init[i];
        }
      }
    }
  }

  /** `MAX_RESPONSE` and the round trips it has seen since it was last reported. */
  class ResponseTimes {
    var maxResponse: real
    ghost var seen: seq<real>

    ghost predicate Valid()
      reads this
    {
      maxResponse == MaxOf(seen)
    }

    constructor ()
      ensures Valid() && seen == [] && maxResponse == 0.0
    {
      maxResponse := 0.0;
      seen := [];
    }

    /** `update_response_times`: keeps the running maximum. */
    method Update(diff: real)
      requires Valid()
      modifies this
      ensures Valid() && seen == old(seen) + [diff]
    {
      if diff > maxResponse {
        maxResponse := diff;
      }
      seen := seen + [diff];
      assert seen[..|seen| - 1] == old(seen);
    }

    /** The uptime report: takes the maximum and resets it to 0. */
    method TakeMax() returns (maximum: real)
      requires Valid()
      modifies this
      ensures maximum == MaxOf(old(seen))
      ensures Valid() && seen == []
    {
      maximum := maxResponse;
      maxResponse := 0.0;
      seen := [];
    }
  }

  // ---------------------------------------------------------------- set_aws_url

  /** The parts of the AWS identity the dimension is made of. */
  datatype AwsIds = AwsIds(instanceId: string, region: string, accountId: string)

  const AwsUniqueId: string := "sfxdim_AWSUniqueId"

  /** `sfxdim_AWSUniqueId=<instance>_<region>_<account>`. */
  function AwsDim(ids: AwsIds): string {
    AwsUniqueId + "=" + ids.instanceId + "_" + ids.region + "_" + ids.accountId
  }

  /** `urlparse(url).query`: after the first `?` of the part before the first `#`. */
  function Query(url: string): string {
    var beforeFragment := SplitOnce(url, '#')[0];
    var parts := SplitOnce(beforeFragment, '?');
    if |parts| == 2 then parts[1] else ""
  }

  /** One post URL after `set_aws_url`: the dimension is added unless its query already names it. */
  function WithAwsDim(url: string, ids: AwsIds): string {
    if Contains(Query(url), AwsUniqueId) then url
    else url + (if Query(url) != "" then "&" else "?") + AwsDim(ids)
  }

  lemma SplitOnceAppend(a: string, sep: char, b: string)
    requires sep in a
    ensures SplitOnce(a + b, sep) == [SplitOnce(a, sep)[0], SplitOnce(a, sep)[1] + b]
  {
    var r := SplitOnce(a, sep);
    assert a + b == r[0] + [sep] + (r[1] + b);
    SplitOnceOf(r[0], sep, r[1] + b);
  }

  lemma ContainsAfter(q: string, sep: string, ids: AwsIds)
    ensures Contains(q + sep + AwsDim(ids), AwsUniqueId)
  {
    var s := q + sep + AwsDim(ids);
    var i := |q| + |sep|;
    assert s[i..i + |AwsUniqueId|] == AwsUniqueId;
    assert OccursAt(s, AwsUniqueId, i);
  }

  /** Without a fragment the query of a URL with a `?` grows with what is appended. */
  lemma QueryAppend(url: string, tail: string)
    requires '#' !in url + tail && '?' in url
    ensures Query(url + tail) == Query(url) + tail
  {
    assert SplitOnce(url + tail, '#')[0] == url + tail;
    assert SplitOnce(url, '#')[0] == url;
    SplitOnceAppend(url, '?', tail);
  }

  /** Without a fragment or a `?` a URL has no query. */
  lemma QueryNone(url: string)
    requires '#' !in url && '?' !in url
    ensures Query(url) == ""
  {
    var beforeFragment := SplitOnce(url, '#')[0];
    assert beforeFragment == url;
    assert |SplitOnce(beforeFragment, '?')| == 1;
  }

  /** Without a fragment a `?` appended to a URL without one opens the query. */
  lemma QueryOpen(url: string, tail: string)
    requires '#' !in url + tail && '?' !in url
    ensures Query(url + "?" + tail) == tail
  {
    var u := url + "?" + tail;
    assert '#' !in u;
    assert SplitOnce(u, '#')[0] == u;
    SplitOnceOf(url, '?', tail);
  }

  /** With a `?` already there, a dimension appended after a separator extends the query. */
  lemma AppendedToQuery(url: string, sep: string, dim: string)
    requires '#' !in url && '#' !in sep && '#' !in dim && '?' in url
    ensures Query(url + sep + dim) == Query(url) + sep + dim
  {
    var tail := sep + dim;
    assert url + sep + dim == url + tail;
    assert '#' !in url + tail;
    QueryAppend(url, tail);
    assert Query(url) + tail == Query(url) + sep + dim;
  }

  /** Without a `?`, the dimension after one becomes the whole query. */
  lemma OpensQuery(url: string, ids: AwsIds)
    requires '#' !in url && '#' !in AwsDim(ids) && '?' !in url
    ensures Contains(Query(url + "?" + AwsDim(ids)), AwsUniqueId)
  {
    var dim := AwsDim(ids);
    QueryOpen(url, dim);
    ContainsAfter("", "", ids);
    assert "" + "" + dim == dim;
  }

  /** On a URL without a fragment the dimension lands in the query, joined with `&` to a query or opening one with `?`. */
  lemma WithAwsDimInQuery(url: string, ids: AwsIds)
    requires '#' !in url && '#' !in AwsDim(ids)
    ensures Contains(Query(WithAwsDim(url, ids)), AwsUniqueId)
  {
    if !Contains(Query(url), AwsUniqueId) {
      if '?' in url {
        var sep := if Query(url) != "" then "&" else "?";
        AppendedToQuery(url, sep, AwsDim(ids));
        ContainsAfter(Query(url), sep, ids);
      } else {
        QueryNone(url);
        OpensQuery(url, ids);
      }
    }
  }

  /** So a second pass over a fragment-free URL leaves it alone. */
  lemma WithAwsDimOnce(url: string, ids: AwsIds)
    requires '#' !in url && '#' !in AwsDim(ids)
    ensures WithAwsDim(WithAwsDim(url, ids), ids) == WithAwsDim(url, ids)
  {
    WithAwsDimInQuery(url, ids);
  }

  /** `POST_URLS` and `AWS_SET`. */
  class PostUrls {
    var urls: seq<string>
    var awsSet: bool

    constructor (urls: seq<string>)
      ensures this.urls == urls && !awsSet
    {
      this.urls := urls;
      awsSet := false;
    }

    /**
     * `set_aws_url`: on an AWS host, once, every URL gets the dimension; the
     * flag is only raised when there was a URL to visit.
     */
    method SetAwsUrl(aws: bool, ids: AwsIds)
      modifies this
      ensures aws && !old(awsSet) ==>
        && urls == seq(|old(urls)|, i requires 0 <= i < |old(urls)| => WithAwsDim(old(urls)[i], ids))
        && awsSet == (old(urls) != [])
      ensures !(aws && !old(awsSet)) ==> urls == old(urls) && awsSet == old(awsSet)
    {
      if aws && !awsSet {
        ghost var before := urls;
        var i := 0;
        while i < |urls|
          invariant 0 <= i <= |urls| == |before| && before == old(urls)
          invariant forall j | 0 <= j < i :: urls[j] == WithAwsDim(before[j], ids)
          invariant forall j | i <= j < |urls| :: urls[j] == before[j]
          invariant awsSet == (i > 0)
        {
          var url := urls[i];
          var query := Query(url);
          if !Contains(query, AwsUniqueId) {
            var dim := AwsDim(ids);
            if query != "" {
              url := url + "&" + dim;
            } else {
              url := url + "?" + dim;
            }
          }
          assert url == WithAwsDim(before[i], ids);
          urls := urls[i := url];
          awsSet := true;
          i := i + 1;
        }
        assert urls == seq(|before|, j requires 0 <= j < |before| => WithAwsDim(before[j], ids));
      }
    }
  }

  // ---------------------------------------------------------------- the send schedule

  /** `NEXT_METADATA_SEND`, `NEXT_METADATA_SEND_INTERVAL`, `LAST`, `HOST`, `SAVED_HOST` and the dogstatsd sender's host. */
  datatype Meta = Meta(next: real, intervals: seq<int>, last: real, host: string, savedHost: string, senderHost: string)

  /** What a call of `send` did to the metadata schedule. */
  datatype SendOutcome = SendOutcome(meta: Meta, notify: bool, raised: bool)

  /**
   * The metadata part of `send`, with the clock read as `started` when the
   * first send is dithered and as `now` afterwards: the first call pops a
   * dither; metadata goes out once the next send time has passed, after which
   * the next interval is popped, the last one repeating forever. An empty
   * interval list raises `IndexError`.
   */
  function SendStep(m: Meta, hostMetadata: bool, started: real, now: real): SendOutcome {
    if !hostMetadata then SendOutcome(m, false, false)
    else if m.next == 0.0 && m.intervals == [] then SendOutcome(m, false, true)
    else
      var m1 := if m.next == 0.0 then m.(next := started + m.intervals[0] as real, intervals := m.intervals[1..]) else m;
      if m1.next < now then
        if |m1.intervals| > 1 then SendOutcome(m1.(next := now + m1.intervals[0] as real, intervals := m1.intervals[1..], last := now), true, false)
        else if m1.intervals == [] then SendOutcome(m1, true, true)
        else SendOutcome(m1.(next := now + m1.intervals[0] as real, last := now), true, false)
      else SendOutcome(m1.(last := now), false, false)
  }

  /** The intervals `reset_metadata_send` draws: a dither, a minute, about an hour, about a day. */
  function DefaultIntervals(dither: int, hourJitter: int, dayJitter: int): seq<int> {
    [dither, 60, 3600 + hourJitter, 86400 + dayJitter]
  }

  /** A schedule that can run: before the first send two intervals are left, afterwards one. */
  predicate Schedulable(m: Meta) {
    && (forall i | 0 <= i < |m.intervals| :: m.intervals[i] >= 0)
    && |m.intervals| >= (if m.next == 0.0 then 2 else 1)
    && m.next >= 0.0
  }

  /** With a positive clock a schedulable state never raises and stays schedulable. */
  lemma SendKeepsSchedulable(m: Meta, hostMetadata: bool, started: real, now: real)
    requires Schedulable(m) && started > 0.0 && now > 0.0
    ensures !SendStep(m, hostMetadata, started, now).raised
    ensures Schedulable(SendStep(m, hostMetadata, started, now).meta)
  {
    var o := SendStep(m, hostMetadata, started, now);
    if hostMetadata && m.next == 0.0 {
      assert m.intervals[0] >= 0;
    }
  }

  /** The first call only dithers: nothing is sent unless the dither has already elapsed. */
  lemma FirstSendDithers(m: Meta, started: real, now: real)
    requires m.next == 0.0 && |m.intervals| >= 2
    ensures var o := SendStep(m, true, started, now);
      && (o.notify <==> started + m.intervals[0] as real < now)
      && (!o.notify ==> o.meta.next == started + m.intervals[0] as real && o.meta.intervals == m.intervals[1..])
  {
  }

  /**
   * After the first send each send moves the next one by the next interval
   * in the list and drops it, until the last one, which repeats forever.
   */
  lemma SendAdvances(m: Meta, started: real, now: real)
    requires m.next != 0.0 && m.next < now && |m.intervals| >= 1
    ensures var o := SendStep(m, true, started, now);
      && o.notify && !o.raised
      && o.meta.next == now + m.intervals[0] as real
      && o.meta.intervals == if |m.intervals| > 1 then m.intervals[1..] else m.intervals
  {
  }

  /** From the defaults the sends come a minute, about an hour, then about a day apart, daily forever. */
  lemma DefaultScheduleGaps(d: int, h: int, j: int, started: real, t1: real, t2: real, t3: real, t4: real, m: Meta)
    requires m.next == 0.0 && m.intervals == DefaultIntervals(d, h, j)
    requires started + d as real < t1 && 0.0 < started + d as real && h >= 0 && j >= 0
    requires t1 + 60.0 < t2 && t2 + (3600 + h) as real < t3 && t3 + (86400 + j) as real < t4
    ensures var o1 := SendStep(m, true, started, t1);
      var o2 := SendStep(o1.meta, true, t1, t2);
      var o3 := SendStep(o2.meta, true, t2, t3);
      var o4 := SendStep(o3.meta, true, t3, t4);
      && o1.notify && o2.notify && o3.notify && o4.notify
      && o1.meta.next == t1 + 60.0
      && o2.meta.next == t2 + (3600 + h) as real
      && o3.meta.next == t3 + (86400 + j) as real
      && o4.meta.next == t4 + (86400 + j) as real
      && o4.meta.intervals == [86400 + j]
  {
    var o1 := SendStep(m, true, started, t1);
    assert o1.meta.intervals == [3600 + h, 86400 + j];
    var o2 := SendStep(o1.meta, true, t1, t2);
    assert o2.meta.intervals == [86400 + j];
  }

  /**
   * `steal_host_from_notifications`: a notification with a host names this
   * host when none is known yet; a different host saved from an earlier run
   * resets the metadata schedule. Any notification lets collectd go on.
   */
  function StealHostStep(m: Meta, notifHost: Option<string>, drawn: seq<int>): (Meta, bool) {
    match notifHost
    case None => (m, false)
    case Some(h) =>
      if m.host == "" && h != "" then
        var reset := m.savedHost != "" && m.savedHost != h;
        var m1 := if reset then m.(next := 0.0, intervals := drawn, savedHost := h) else m;
        (m1.(host := h, senderHost := h), true)
      else (m, true)
  }

  /** Once known, the host never changes, and the schedule is only reset for a host other than the saved one. */
  lemma HostIsStable(m: Meta, notifHost: Option<string>, drawn: seq<int>)
    ensures var (m', cont) := StealHostStep(m, notifHost, drawn);
      && (cont <==> notifHost.Some?)
      && (m.host != "" ==> m' == m)
      && (m'.next != m.next || m'.intervals != m.intervals ==>
            m.host == "" && m.savedHost != "" && notifHost.Some? && m.savedHost != notifHost.value && m'.next == 0.0)
      && (m.host == "" && notifHost.Some? && notifHost.value != "" ==> m'.host == notifHost.value && m'.senderHost == notifHost.value)
  {
  }

  /** A freshly reset schedule from the defaults is schedulable again. */
  lemma ResetSchedulable(m: Meta, notifHost: Option<string>, d: int, h: int, j: int)
    requires Schedulable(m) && d >= 0 && h >= 0 && j >= 0
    ensures Schedulable(StealHostStep(m, notifHost, DefaultIntervals(d, h, j)).0)
  {
  }

  /** The module globals the send schedule and the host live in. */
  class MetadataState {
    var next: real
    var intervals: seq<int>
    var last: real
    var host: string
    var savedHost: string
    var senderHost: string

    constructor (intervals: seq<int>)
      ensures State() == Meta(0.0, intervals, 0.0, "", "", "")
    {
      next := 0.0;
      this.intervals := intervals;
      last := 0.0;
      host := "";
      savedHost := "";
      senderHost := "";
    }

    function State(): Meta
      reads this
    {
      Meta(next, intervals, last, host, savedHost, senderHost)
    }

    /** The metadata part of `send`; returns whether notifications went out and whether it raised. */
    method Send(hostMetadata: bool, started: real, now: real) returns (notify: bool, raised: bool)
      modifies this
      ensures SendOutcome(State(), notify, raised) == SendStep(old(State()), hostMetadata, started, now)
    {
      notify, raised := false, false;
      if !hostMetadata {
        return;
      }
      if next == 0.0 {
        if intervals == [] {
          return false, true;
        }
        var dither := intervals[0];
        intervals := intervals[1..];
        next := started + dither as real;
      }
      if next < now {
        notify := true;
        if |intervals| > 1 {
          next := now + intervals[0] as real;
          intervals := intervals[1..];
        } else if intervals == [] {
          return true, true;
        } else {
          next := now + intervals[0] as real;
        }
      }
      last := now;
    }

    /** `steal_host_from_notifications`, with `drawn` the intervals a reset would draw. */
    method StealHost(notifHost: Option<string>, drawn: seq<int>) returns (cont: bool)
      modifies this
      ensures (State(), cont) == StealHostStep(old(State()), notifHost, drawn)
    {
      if notifHost.None? {
        return false;
      }
      var h := notifHost.value;
      if host == "" && h != "" {
        host := h;
        if savedHost != "" && savedHost != host {
          next := 0.0;
          intervals := drawn;
          savedHost := host;
        }
        senderHost := h;
      }
      cont := true;
    }
  }
}
