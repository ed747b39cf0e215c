/**
 * The client side of the SignalFx ingest API: the data point record, the
 * endpoint derived from the configured URL, the lazily opened connection, and
 * how the answers to the three POST requests (series registration, version 1
 * data points, version 2 data points) and the source-tagging request are read.
 *
 * The HTTP exchange itself is not modelled: every operation that talks to the
 * server takes the server's reply (or the fact that the exchange raised) as a
 * parameter, and returns the request body it would have sent.
 */
module DatapointUploader {
  import opened Wrappers
  import opened Text

  // ---------------------------------------------------------------- data points

  /** One measurement on its way to ingest. `source` is Python's `None` or a name. */
  datatype DataPoint = DataPoint(
    source: Option<string>,
    metric: string,
    value: real,
    dsType: string,
    timestamp: int,
    dimensions: map<string, string>)

  /** `DataPoint.getDimensions`: the point's dimensions plus `sf_source`, which the explicit dimensions override. */
  function GetDimensions(dp: DataPoint): (r: map<string, string>)
    ensures r.Keys == dp.dimensions.Keys + (if dp.source.Some? then {"sf_source"} else {})
    ensures forall k | k in dp.dimensions :: r[k] == dp.dimensions[k]
    ensures dp.source.Some? && "sf_source" !in dp.dimensions ==> r["sf_source"] == dp.source.value
  {
    var base: map<string, string> := if dp.source.Some? then map["sf_source" := dp.source.value] else map[];
    base + dp.dimensions
  }

  // ---------------------------------------------------------------- endpoint

  /** The parts of `urlparse.urlparse(url)` the uploader looks at. */
  datatype ParsedUrl = ParsedUrl(scheme: string, hostname: Option<string>, port: Option<int>)

  datatype Endpoint = Endpoint(host: string, https: bool, port: int)

  /**
   * The host, scheme and port the uploader's constructor derives from a URL;
   * `None` where the constructor raises. A port of 0 is false in Python's `if port:`
   * and so falls back to the scheme's default like a missing one.
   */
  function EndpointFor(u: ParsedUrl): (r: Option<Endpoint>)
    ensures r.None? <==> u.hostname.None? || (u.scheme != "http" && u.scheme != "https")
    ensures r.Some? ==> r.value.host == u.hostname.value && (r.value.https <==> u.scheme == "https")
    ensures r.Some? && u.port.Some? && u.port.value != 0 ==> r.value.port == u.port.value
    ensures r.Some? && (u.port.None? || u.port.value == 0) ==> r.value.port == (if r.value.https then 443 else 80)
  {
    if u.hostname.None? || u.scheme !in {"http", "https"} then None
    else
      var port := if u.port.Some? && u.port.value != 0 then u.port.value
                  else if u.scheme == "https" then 443 else 80;
      Some(Endpoint(u.hostname.value, u.scheme == "https", port))
  }

  // ---------------------------------------------------------------- server replies

  /** One element of the registration reply: its `code` member, as text, if present. */
  datatype Entry = Entry(code: Option<string>)

  /** What the registration exchange produced: it raised, or a status and a body that did or did not decode to a list. */
  datatype RegisterReply = RegisterRaised | RegisterAnswer(status: int, entries: Option<seq<Entry>>)

  /** A decoded JSON reply body: a string, or any other JSON value. */
  datatype Json = JString(s: string) | JOther

  /** What a data point POST produced: it raised, or a status and a body that did or did not decode. */
  datatype PostReply = PostRaised | PostAnswer(status: int, body: Option<Json>)

  /** `int(res['code'])` does not raise. */
  predicate Parsable(e: Entry) {
    e.code.None? || ParseInt(e.code.value).Some?
  }

  /** An entry counts as registered when it has no code or its code is 409 (already exists). */
  predicate Accepted(e: Entry)
    requires Parsable(e)
  {
    e.code.None? || ParseInt(e.code.value).value == 409
  }

  function Falses(n: nat): (r: seq<bool>)
    ensures |r| == n && forall i | 0 <= i < n :: !r[i]
  {
    seq(n, i => false)
  }

  /** The registration exchange ends in `disconnect()`: it raised, the status was not 200, or the body did not read. */
  predicate RegistrationFails(reply: RegisterReply) {
    reply.RegisterRaised? || reply.status != 200 || reply.entries.None?
    || exists i | 0 <= i < |reply.entries.value| :: !Parsable(reply.entries.value[i])
  }

  /** What `registerMultipleSeries` returns for `n` series and the given reply. */
  function Registration(n: nat, reply: RegisterReply): (r: seq<bool>)
    ensures RegistrationFails(reply) ==> r == Falses(n)
    ensures !RegistrationFails(reply) ==>
      |r| == |reply.entries.value| && forall i | 0 <= i < |r| :: r[i] == Accepted(reply.entries.value[i])
  {
    if RegistrationFails(reply) then Falses(n)
    else
      var es := reply.entries.value;
      seq(|es|, i requires 0 <= i < |es| => Accepted(es[i]))
  }

  /** A 409 written by the server with `%d` is read back as accepted. */
  lemma ConflictAccepted()
    ensures Parsable(Entry(Some(IntToString(409)))) && Accepted(Entry(Some(IntToString(409))))
  {
    ParseIntToString(409);
  }

  /** Any other numeric code is read back as rejected. */
  lemma OtherCodeRejected(code: int)
    requires code != 409
    ensures Parsable(Entry(Some(IntToString(code)))) && !Accepted(Entry(Some(IntToString(code))))
  {
    ParseIntToString(code);
  }

  /** The loop over the decoded registration reply; `ok` is false where `int()` raised part-way. */
  method InterpretEntries(entries: seq<Entry>) returns (ok: bool, ret: seq<bool>)
    ensures ok <==> forall i | 0 <= i < |entries| :: Parsable(entries[i])
    ensures ok ==> |ret| == |entries| && forall i | 0 <= i < |ret| :: ret[i] == Accepted(entries[i])
  {
    ret := [];
    var i := 0;
    while i < |entries|
      invariant 0 <= i <= |entries|
      invariant forall j | 0 <= j < i :: Parsable(entries[j])
      invariant |ret| == i && forall j | 0 <= j < i :: ret[j] == Accepted(entries[j])
    {
      var e := entries[i];
      if e.code.Some? {
        var code := ParseInt(e.code.value);
        if code.None? {
          assert !Parsable(entries[i]);
          return false, ret;
        }
        assert Parsable(e) && Accepted(e) == (code.value == 409);
        ret := ret + [code.value == 409];
      } else {
        assert Parsable(e) && Accepted(e);
        ret := ret + [true];
      }
      i := i + 1;
    }
    ok := true;
  }

  // ---------------------------------------------------------------- request bodies

  /** One object of the version 1 data point body; `timestamp` is left out when it is 0. */
  datatype V1Body = V1Body(source: Option<string>, metric: string, value: real, timestamp: Option<int>)

  /** One object of the version 2 data point body. */
  datatype V2Body = V2Body(metric: string, value: real, dimensions: map<string, string>, timestamp: Option<int>)

  function TimestampOf(dp: DataPoint): (t: Option<int>)
    ensures t.None? <==> dp.timestamp == 0
    ensures t.Some? ==> t.value == dp.timestamp
  {
    if dp.timestamp != 0 then Some(dp.timestamp) else None
  }

  function V1Of(dp: DataPoint): V1Body {
    V1Body(dp.source, dp.metric, dp.value, TimestampOf(dp))
  }

  function V2Of(dp: DataPoint): V2Body {
    V2Body(dp.metric, dp.value, GetDimensions(dp), TimestampOf(dp))
  }

  /** The version 2 body: each point under its lower-cased type, built in input order. */
  function Grouped(ps: seq<DataPoint>): map<string, seq<V2Body>> {
    if ps == [] then map[]
    else
      var g := Grouped(ps[..|ps| - 1]);
      var p := ps[|ps| - 1];
      var k := Lower(p.dsType);
      g[k := (if k in g then g[k] else []) + [V2Of(p)]]
  }

  /** The points of type `k`, in input order: the reference for one group of the version 2 body. */
  function Select(ps: seq<DataPoint>, k: string): seq<V2Body> {
    if ps == [] then []
    else Select(ps[..|ps| - 1], k) + (if Lower(ps[|ps| - 1].dsType) == k then [V2Of(ps[|ps| - 1])] else [])
  }

  /** The version 2 body has a group exactly for the types present, and each group is the points of that type in order. */
  lemma {:induction false} GroupedIsSelect(ps: seq<DataPoint>, k: string)
    ensures k in Grouped(ps) <==> exists i | 0 <= i < |ps| :: Lower(ps[i].dsType) == k
    ensures k in Grouped(ps) ==> Grouped(ps)[k] == Select(ps, k)
    ensures k !in Grouped(ps) ==> Select(ps, k) == []
    decreases |ps|
  {
    if ps != [] {
      var init := ps[..|ps| - 1];
      GroupedIsSelect(init, k);
      assert forall i | 0 <= i < |init| :: init[i] == ps[i];
      if k != Lower(ps[|ps| - 1].dsType) && k !in Grouped(init) {
        forall i | 0 <= i < |ps| ensures Lower(ps[i].dsType) != k {
          if i < |init| {
            assert init[i] == ps[i];
          }
        }
      }
    }
  }

  /** Every point of the batch appears, in the group of its type. */
  lemma {:induction false} GroupedHoldsEvery(ps: seq<DataPoint>, i: nat)
    requires i < |ps|
    ensures Lower(ps[i].dsType) in Grouped(ps) && V2Of(ps[i]) in Grouped(ps)[Lower(ps[i].dsType)]
    decreases |ps|
  {
    var init := ps[..|ps| - 1];
    if i < |init| {
      GroupedHoldsEvery(init, i);
      assert init[i] == ps[i];
    }
  }

  // ---------------------------------------------------------------- tagging a source

  /** The `tagSource` body for one source: the tags whose value the source does not already carry. */
  function TagBody(tags: map<string, string>, source: map<string, string>): (r: map<string, string>)
    ensures forall k :: k in r <==> k in tags && !(k in source && source[k] == tags[k])
    ensures forall k | k in r :: r[k] == tags[k]
  {
    map k | k in tags && !(k in source && source[k] == tags[k]) :: tags[k]
  }

  /** Once a body is posted to a source, tagging that source again has nothing left to post. */
  lemma TagBodySettles(tags: map<string, string>, source: map<string, string>)
    ensures TagBody(tags, source + TagBody(tags, source)) == map[]
  {
    var after := source + TagBody(tags, source);
    forall k | k in tags ensures k in after && after[k] == tags[k] {
    }
    assert TagBody(tags, after).Keys == {};
  }

  /** The first source with a non-empty body, which `tagSource` posts to before returning. */
  function FirstToTag(tags: map<string, string>, sources: seq<map<string, string>>): (r: Option<nat>)
    ensures r.None? <==> forall i | 0 <= i < |sources| :: TagBody(tags, sources[i]) == map[]
    ensures r.Some? ==> r.value < |sources| && TagBody(tags, sources[r.value]) != map[]
    ensures r.Some? ==> forall i | 0 <= i < r.value :: TagBody(tags, sources[i]) == map[]
  {
    FirstToTagFrom(tags, sources, 0)
  }

  /** `FirstToTag` among the sources from index `k` on. */
  function FirstToTagFrom(tags: map<string, string>, sources: seq<map<string, string>>, k: nat): (r: Option<nat>)
    requires k <= |sources|
    ensures r.None? <==> forall i | k <= i < |sources| :: TagBody(tags, sources[i]) == map[]
    ensures r.Some? ==> k <= r.value < |sources| && TagBody(tags, sources[r.value]) != map[]
    ensures r.Some? ==> forall i | k <= i < r.value :: TagBody(tags, sources[i]) == map[]
    decreases |sources| - k
  {
    if k == |sources| then None
    else if TagBody(tags, sources[k]) != map[] then Some(k)
    else FirstToTagFrom(tags, sources, k + 1)
  }

  // ---------------------------------------------------------------- the uploader

  /** The connection object `connect` builds: where it points. */
  datatype Conn = Conn(host: string, port: int, https: bool)

  class Uploader {
    const endpoint: Endpoint
    var conn: Option<Conn>

    /** The constructor for a URL it accepts; `EndpointFor` is `None` where it raises. */
    constructor (url: ParsedUrl)
      requires EndpointFor(url).Some?
      ensures endpoint == EndpointFor(url).value && conn.None?
    {
      endpoint := EndpointFor(url).value;
      conn := None;
    }

    predicate Connected()
      reads this
    {
      conn.Some?
    }

    function ConnectedConn(): Conn {
      Conn(endpoint.host, endpoint.port, endpoint.https)
    }

    /** Opens a connection to the endpoint unless one is open already. */
    method Connect()
      modifies this
      ensures Connected()
      ensures old(conn).Some? ==> conn == old(conn)
      ensures old(conn).None? ==> conn == Some(ConnectedConn())
    {
      if !Connected() {
        conn := Some(ConnectedConn());
      }
    }

    method Disconnect()
      modifies this
      ensures !Connected()
    {
      conn := None;
    }

    /** `registerMultipleSeries`: one flag per series, or all false and disconnected on any failure. */
    method RegisterMultipleSeries(series: seq<DataPoint>, reply: RegisterReply) returns (ret: seq<bool>)
      requires |series| > 0
      modifies this
      ensures ret == Registration(|series|, reply)
      ensures RegistrationFails(reply) ==> !Connected()
      ensures !RegistrationFails(reply) ==> conn == (if old(conn).Some? then old(conn) else Some(ConnectedConn()))
    {
      Connect();
      if reply.RegisterRaised? || reply.status != 200 || reply.entries.None? {
        Disconnect();
        return Falses(|series|);
      }
      var ok;
      ok, ret := InterpretEntries(reply.entries.value);
      if !ok {
        Disconnect();
        ret := Falses(|series|);
      }
    }

    /**
     * `addDatapoints`: `Some(true)` only for status 200 with the body `"OK"`,
     * `Some(false)` for any other answer, `None` where the exchange raised; every
     * outcome but success disconnects. `body` is the list of objects posted.
     */
    method AddDatapoints(points: seq<DataPoint>, reply: PostReply) returns (res: Option<bool>, body: seq<V1Body>)
      modifies this
      ensures |body| == |points| && forall i | 0 <= i < |points| :: body[i] == V1Of(points[i])
      ensures res == PostResult(reply)
      ensures res == Some(true) ==> conn == (if old(conn).Some? then old(conn) else Some(ConnectedConn()))
      ensures res != Some(true) ==> !Connected()
    {
      Connect();
      body := [];
      var i := 0;
      while i < |points|
        invariant 0 <= i <= |points|
        invariant |body| == i && forall j | 0 <= j < i :: body[j] == V1Of(points[j])
      {
        body := body + [V1Of(points[i])];
        i := i + 1;
      }
      res := PostResult(reply);
      if res != Some(true) {
        Disconnect();
      }
    }

    /** `addDatapointsV2`: the points grouped by lower-cased type; the answer is read as for version 1. */
    method AddDatapointsV2(points: seq<DataPoint>, reply: PostReply) returns (res: Option<bool>, body: map<string, seq<V2Body>>)
      modifies this
      ensures body == Grouped(points)
      ensures res == PostResult(reply)
      ensures res == Some(true) ==> conn == (if old(conn).Some? then old(conn) else Some(ConnectedConn()))
      ensures res != Some(true) ==> !Connected()
    {
      Connect();
      body := map[];
      var i := 0;
      while i < |points|
        invariant 0 <= i <= |points|
        invariant body == Grouped(points[..i])
      {
        var dp := points[i];
        var key := Lower(dp.dsType);
        if key !in body {
          body := body[key := []];
        }
        body := body[key := body[key] + [V2Of(dp)]];
        assert points[..i + 1][..i] == points[..i];
        i := i + 1;
      }
      assert points[..i] == points;
      res := PostResult(reply);
      if res != Some(true) {
        Disconnect();
      }
    }

    /**
     * `getSourcesFromName`: connects and asks for the sources named `source`;
     * `lookup` is the list the server answered, or `None` where the answer was not
     * status 200 or the exchange raised, which disconnects and gives no sources.
     */
    method GetSourcesFromName(lookup: Option<seq<map<string, string>>>) returns (sources: seq<map<string, string>>)
      modifies this
      ensures lookup.Some? ==> sources == lookup.value && conn == (if old(conn).Some? then old(conn) else Some(ConnectedConn()))
      ensures lookup.None? ==> sources == [] && !Connected()
    {
      Connect();
      if lookup.None? {
        Disconnect();
        return [];
      }
      sources := lookup.value;
    }

    /**
     * `tagSource`: looks the sources up, then posts the body of the first source
     * that has one and returns; `None` where nothing was posted or the exchange
     * raised (a source without `sf_id` raises), else whether the status was 200.
     */
    method TagSource(tags: map<string, string>, lookup: Option<seq<map<string, string>>>, status: Option<int>)
      returns (res: Option<bool>, posted: Option<(string, map<string, string>)>)
      modifies this
      ensures lookup.None? ==> res.None? && posted.None? && !Connected()
      ensures lookup.Some? && FirstToTag(tags, lookup.value).None? ==>
        res.None? && posted.None? && conn == (if old(conn).Some? then old(conn) else Some(ConnectedConn()))
      ensures lookup.Some? && FirstToTag(tags, lookup.value).Some? ==>
        var s := lookup.value[FirstToTag(tags, lookup.value).value];
        && (posted.Some? <==> "sf_id" in s)
        && (posted.Some? ==> posted.value == (s["sf_id"], TagBody(tags, s)))
        && res == (if "sf_id" in s && status.Some? then Some(status.value == 200) else None)
        && (res == Some(true) ==> conn == (if old(conn).Some? then old(conn) else Some(ConnectedConn())))
        && (res != Some(true) ==> !Connected())
    {
      res, posted := None, None;
      var sources := GetSourcesFromName(lookup);
      if |sources| == 0 {
        return;
      }
      ghost var looked := conn;
      var i := 0;
      while i < |sources|
        invariant 0 <= i <= |sources|
        invariant forall j | 0 <= j < i :: TagBody(tags, sources[j]) == map[]
        invariant conn == looked
      {
        var source := sources[i];
        var postBody := TagBody(tags, source);
        if postBody != map[] {
          FirstToTagIs(tags, sources, i);
          res, posted := PostTags(source, postBody, status);
          return;
        }
        i := i + 1;
      }
    }

    /** The exchange of `tagSource` with the source it tags: connect, POST the body to `/source/<sf_id>`, read the status. */
    method PostTags(source: map<string, string>, body: map<string, string>, status: Option<int>)
      returns (res: Option<bool>, posted: Option<(string, map<string, string>)>)
      modifies this
      ensures posted.Some? <==> "sf_id" in source
      ensures posted.Some? ==> posted.value == (source["sf_id"], body)
      ensures res == (if "sf_id" in source && status.Some? then Some(status.value == 200) else None)
      ensures res == Some(true) ==> conn == (if old(conn).Some? then old(conn) else Some(ConnectedConn()))
      ensures res != Some(true) ==> !Connected()
    {
      res, posted := None, None;
      Connect();
      if "sf_id" !in source {
        Disconnect();
        return;
      }
      posted := Some((source["sf_id"], body));
      if status.None? {
        Disconnect();
        return;
      }
      if status.value != 200 {
        Disconnect();
        return Some(false), posted;
      }
      return Some(true), posted;
    }
  }

  /** The source at `i` is the first to tag when it has tags to add and none before it has. */
  lemma FirstToTagIs(tags: map<string, string>, sources: seq<map<string, string>>, i: nat)
    requires i < |sources| && TagBody(tags, sources[i]) != map[]
    requires forall j | 0 <= j < i :: TagBody(tags, sources[j]) == map[]
    ensures FirstToTag(tags, sources) == Some(i)
  {
  }

  /** How a data point POST's answer is read: success needs status 200 and the decoded body `"OK"`. */
  function PostResult(reply: PostReply): (r: Option<bool>)
    ensures r == Some(true) <==> reply.PostAnswer? && reply.status == 200 && reply.body == Some(JString("OK"))
    ensures r.None? <==> reply.PostRaised? || (reply.status == 200 && reply.body.None?)
  {
    match reply
    case PostRaised => None
    case PostAnswer(status, body) =>
      if status != 200 then Some(false)
      else if body.None? then None
      else Some(body.value == JString("OK"))
  }
}
