/** pkg/influx/write.go: turning point groups into the points written to an
    InfluxDB bucket, and writing them one at a time.  The client is not
    modelled: whether each `WritePoint` succeeds is an input, and the insert
    returns the calls it made. */
module InfluxWrite {
  import opened Errors
  import opened Points
  import opened Config
  import opened Filter
  import Prepare
  import Timescale

  /** A point of a group as written: the group's measurement, the added
      tags laid over the point's own. */
  function Relabelled(p: Point, measurement: string, added: map<string, string>): Point
  {
    Point(measurement, p.fields, p.tags + added, p.timestamp)
  }

  function RelabelledAll(ps: seq<Point>, measurement: string, added: map<string, string>): seq<Point>
  {
    seq(|ps|, j requires 0 <= j < |ps| => Relabelled(ps[j], measurement, added))
  }

  /** `buildDBPointsInflux`: the points of every group whose measurement is
      configured and not ignored, in order, or the first unknown measurement.
      The tag filter is handed a pointer to the configuration and so keeps
      every point. */
  function InfluxPoints(groups: seq<PointGroup>, cfg: OutputInflux): Result<seq<Point>>
  {
    if |groups| == 0 then Ok([])
    else
      match InfluxPoints(groups[..|groups| - 1], cfg)
      case Err(e) => Err(e)
      case Ok(acc) =>
        var g := groups[|groups| - 1];
        if g.measurement !in cfg.measurements then Err(UnknownMeasurement(g.measurement))
        else if cfg.measurements[g.measurement].ignore then Ok(acc)
        else Ok(acc + RelabelledAll(g.points, g.measurement, cfg.measurements[g.measurement].addedTags))
  }

  /** The number of points in groups that are not ignored. */
  function KeptCount(groups: seq<PointGroup>, cfg: OutputInflux): nat
  {
    if |groups| == 0 then 0
    else
      var g := groups[|groups| - 1];
      KeptCount(groups[..|groups| - 1], cfg) +
        (if g.measurement in cfg.measurements && !cfg.measurements[g.measurement].ignore then |g.points| else 0)
  }

  /** The build fails exactly when some group's measurement is unknown. */
  lemma {:induction false} InfluxPointsFail(groups: seq<PointGroup>, cfg: OutputInflux)
    ensures InfluxPoints(groups, cfg).Err? <==> exists i | 0 <= i < |groups| :: groups[i].measurement !in cfg.measurements
    decreases |groups|
  {
    if |groups| > 0 {
      var init := groups[..|groups| - 1];
      InfluxPointsFail(init, cfg);
      assert forall i | 0 <= i < |init| :: groups[i] == init[i];
    }
  }

  /** A successful build has one point per point of a kept group; every
      point written names a configured, not ignored measurement and carries
      that measurement's added tags. */
  lemma {:induction false} InfluxPointsShape(groups: seq<PointGroup>, cfg: OutputInflux)
    requires InfluxPoints(groups, cfg).Ok?
    ensures var r := InfluxPoints(groups, cfg).value;
      |r| == KeptCount(groups, cfg) &&
      forall j | 0 <= j < |r| ::
        r[j].measurement in cfg.measurements && !cfg.measurements[r[j].measurement].ignore &&
        forall k | k in cfg.measurements[r[j].measurement].addedTags ::
          k in r[j].tags && r[j].tags[k] == cfg.measurements[r[j].measurement].addedTags[k]
    decreases |groups|
  {
    if |groups| > 0 {
      InfluxPointsShape(groups[..|groups| - 1], cfg);
    }
  }

  /** An ignored group contributes nothing; a kept one contributes its
      points, relabelled, after those of the groups before it. */
  lemma InfluxPointsStep(groups: seq<PointGroup>, g: PointGroup, cfg: OutputInflux)
    requires InfluxPoints(groups, cfg).Ok? && g.measurement in cfg.measurements
    ensures var mc := cfg.measurements[g.measurement];
      InfluxPoints(groups + [g], cfg) ==
        Ok(InfluxPoints(groups, cfg).value + (if mc.ignore then [] else RelabelledAll(g.points, g.measurement, mc.addedTags)))
  {
    assert (groups + [g])[..|groups|] == groups;
    assert (groups + [g])[|groups|] == g;
    var acc := InfluxPoints(groups, cfg).value;
    assert acc + [] == acc;
  }

  lemma {:induction false} InfluxPointsErrorStays(groups: seq<PointGroup>, cfg: OutputInflux, k: nat)
    requires k <= |groups| && InfluxPoints(groups[..k], cfg).Err?
    ensures InfluxPoints(groups, cfg) == InfluxPoints(groups[..k], cfg)
    decreases |groups| - k
  {
    if k < |groups| {
      assert groups[..|groups| - 1][..k] == groups[..k];
      InfluxPointsErrorStays(groups[..|groups| - 1], cfg, k);
    } else {
      assert groups[..k] == groups;
    }
  }

  /** The loop over one group's points. */
  method RelabelPoints(ps: seq<Point>, measurement: string, added: map<string, string>) returns (r: seq<Point>)
    ensures |r| == |ps|
    ensures forall j | 0 <= j < |ps| ::
      r[j].measurement == measurement && r[j].fields == ps[j].fields &&
      r[j].tags == ps[j].tags + added && r[j].timestamp == ps[j].timestamp
  {
    r := [];
    var j := 0;
    while j < |ps|
      invariant 0 <= j <= |ps| && r == RelabelledAll(ps[..j], measurement, added)
    {
      var tags := Timescale.MergeInto(ps[j].tags, added);
      r := r + [Point(measurement, ps[j].fields, tags, ps[j].timestamp)];
      j := j + 1;
    }
    assert ps[..j] == ps;
  }

  /** `buildDBPointsInflux`. */
  method BuildDBPointsInflux(groups: seq<PointGroup>, cfg: OutputInflux) returns (r: Result<seq<Point>>)
    ensures r == InfluxPoints(groups, cfg)
  {
    var writePoints: seq<Point> := [];
    var i := 0;
    while i < |groups|
      invariant 0 <= i <= |groups| && InfluxPoints(groups[..i], cfg) == Ok(writePoints)
    {
      assert groups[..i + 1][..i] == groups[..i];
      var measurement := groups[i].measurement;
      if measurement !in cfg.measurements {
        InfluxPointsErrorStays(groups, cfg, i + 1);
        return Err(UnknownMeasurement(measurement));
      }
      var mc := cfg.measurements[measurement];
      if !mc.ignore {
        var points := FilterPoints(groups[i].points, ConfigPointer(InfluxOutput(cfg)));
        var relabelled := RelabelPoints(points, measurement, mc.addedTags);
        assert relabelled == RelabelledAll(groups[i].points, measurement, mc.addedTags);
        writePoints := writePoints + relabelled;
      }
      i := i + 1;
    }
    assert groups[..i] == groups;
    return Ok(writePoints);
  }

  // ---------------------------------------------------------------------
  // The insert

  /** The client calls, in order. */
  datatype InfluxCall = NewClient(url: string, token: string) | WritePoint(p: Point) | Close

  /** The write loop: one call per point until the first failure;
      `ok(i)` says whether the server accepts the i-th point. */
  function WriteCalls(ps: seq<Point>, ok: nat -> bool): (seq<InfluxCall>, Option<Error>)
  {
    if |ps| == 0 then ([], None)
    else
      var (calls, err) := WriteCalls(ps[..|ps| - 1], ok);
      if err.Some? then (calls, err)
      else if ok(|ps| - 1) then (calls + [WritePoint(ps[|ps| - 1])], None)
      else (calls + [WritePoint(ps[|ps| - 1])], Some(SinkFailure("WritePoint")))
  }

  /** `insertRowsInflux`: the calls made and the error returned. */
  function InsertedInflux(ps: seq<Point>, cfg: OutputInflux, ok: nat -> bool): (seq<InfluxCall>, Option<Error>)
  {
    var (calls, err) := WriteCalls(ps, ok);
    ([NewClient(cfg.connection, cfg.authToken)] + calls + (if err.None? then [Close] else []), err)
  }

  function WritesOf(ps: seq<Point>): seq<InfluxCall>
  {
    seq(|ps|, j requires 0 <= j < |ps| => WritePoint(ps[j]))
  }

  /** Points are written in order; the loop stops at the first point the
      server refuses, after which nothing else is sent and the client is not
      closed. */
  lemma {:induction false} WriteCallsStop(ps: seq<Point>, ok: nat -> bool)
    ensures var (calls, err) := WriteCalls(ps, ok);
      (err.None? <==> forall j | 0 <= j < |ps| :: ok(j)) &&
      (err.None? ==> calls == WritesOf(ps)) &&
      (err.Some? ==> exists k | 0 <= k < |ps| ::
        !ok(k) && (forall j | 0 <= j < k :: ok(j)) && calls == WritesOf(ps[..k + 1]))
    decreases |ps|
  {
    if |ps| > 0 {
      var n := |ps| - 1;
      WriteCallsStop(ps[..n], ok);
      var (calls, err) := WriteCalls(ps[..n], ok);
      if err.Some? {
        var k :| 0 <= k < n && !ok(k) && (forall j | 0 <= j < k :: ok(j)) && calls == WritesOf(ps[..n][..k + 1]);
        assert ps[..n][..k + 1] == ps[..k + 1];
      } else {
        assert ps[..n + 1] == ps;
        assert WritesOf(ps) == WritesOf(ps[..n]) + [WritePoint(ps[n])];
      }
    }
  }

  lemma {:induction false} WriteErrorStays(ps: seq<Point>, ok: nat -> bool, k: nat)
    requires k <= |ps| && WriteCalls(ps[..k], ok).1.Some?
    ensures WriteCalls(ps, ok) == WriteCalls(ps[..k], ok)
    decreases |ps| - k
  {
    if k < |ps| {
      var n := |ps| - 1;
      assert ps[..n][..k] == ps[..k];
      WriteErrorStays(ps[..n], ok, k);
    } else {
      assert ps[..k] == ps;
    }
  }

  /** `insertRowsInflux`. */
  method InsertRowsInflux(ps: seq<Point>, cfg: OutputInflux, ok: nat -> bool) returns (calls: seq<InfluxCall>, err: Option<Error>)
    ensures (calls, err) == InsertedInflux(ps, cfg, ok)
  {
    calls := [NewClient(cfg.connection, cfg.authToken)];
    var i := 0;
    while i < |ps|
      invariant 0 <= i <= |ps|
      invariant WriteCalls(ps[..i], ok).1 == None
      invariant calls == [NewClient(cfg.connection, cfg.authToken)] + WriteCalls(ps[..i], ok).0
    {
      assert ps[..i + 1][..i] == ps[..i];
      assert ps[..i + 1][i] == ps[i];
      ghost var prev := WriteCalls(ps[..i], ok).0;
      calls := calls + [WritePoint(ps[i])];
      if !ok(i) {
        assert WriteCalls(ps[..i + 1], ok) == (prev + [WritePoint(ps[i])], Some(SinkFailure("WritePoint")));
        WriteErrorStays(ps, ok, i + 1);
        assert calls == [NewClient(cfg.connection, cfg.authToken)] + (prev + [WritePoint(ps[i])]);
        assert InsertedInflux(ps, cfg, ok) == (calls + [], Some(SinkFailure("WritePoint")));
        assert calls + [] == calls;
        return calls, Some(SinkFailure("WritePoint"));
      }
      i := i + 1;
    }
    assert ps[..i] == ps;
    calls := calls + [Close];
    err := None;
  }

  /** The error `Write` returns. */
  function WriteError(groups: seq<PointGroup>, cfg: OutputInflux, ok: nat -> bool): Option<Error>
  {
    match InfluxPoints(groups, cfg)
    case Err(e) => Some(Wrapped("An error ocurred while building db rows", e))
    case Ok(ps) =>
      var e := InsertedInflux(ps, cfg, ok).1;
      if |ps| > 0 && e.Some? then Some(Wrapped("An error ocurred while inserting db rows", e.value)) else None
  }

  /** `Write` fails exactly when the build fails, or when some point it
      builds is refused. */
  lemma WriteErrorCases(groups: seq<PointGroup>, cfg: OutputInflux, ok: nat -> bool)
    ensures WriteError(groups, cfg, ok).None? <==>
      InfluxPoints(groups, cfg).Ok? && forall j | 0 <= j < |InfluxPoints(groups, cfg).value| :: ok(j)
  {
    if InfluxPoints(groups, cfg).Ok? {
      WriteCallsStop(InfluxPoints(groups, cfg).value, ok);
    }
  }

  /** `Write` (the enrichment sets it is handed are not used): build, then
      insert when there is at least one point. */
  method Write(groups: seq<PointGroup>, cfg: OutputInflux, sets: seq<EnrichmentSet>, ok: nat -> bool) returns (calls: seq<InfluxCall>, err: Option<Error>)
    ensures err == WriteError(groups, cfg, ok)
    ensures InfluxPoints(groups, cfg).Err? || |InfluxPoints(groups, cfg).value| == 0 ==> calls == []
    ensures InfluxPoints(groups, cfg).Ok? && |InfluxPoints(groups, cfg).value| > 0 ==>
      calls == InsertedInflux(InfluxPoints(groups, cfg).value, cfg, ok).0
  {
    var points := BuildDBPointsInflux(groups, cfg);
    if points.Err? {
      return [], Some(Wrapped("An error ocurred while building db rows", points.error));
    }
    if |points.value| > 0 {
      var e;
      calls, e := InsertRowsInflux(points.value, cfg, ok);
      if e.Some? {
        return calls, Some(Wrapped("An error ocurred while inserting db rows", e.value));
      }
      return calls, None;
    }
    return [], None;
  }
}
