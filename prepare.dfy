/** `PreparePointGroups` of pkg/general/processMeasurementPoints.go: the
    per-output preparation of the grouped points.  For each group, in order:
    look up its measurement's configuration (unknown is an error), resolve
    the named enrichment set (unknown is an error, checked before the ignore
    flag), drop ignored groups, filter unless filtering is switched off, drop
    groups left empty, then enrich every point's tags and overlay the
    measurement's added tags, which win on collision.  Any error ends the
    call with no groups.

    The enrichment cache that `EnrichTags` reads is a parameter. */
module Prepare {
  import opened Errors
  import opened Points
  import opened Config
  import opened Filter
  import opened Enrichments
  import Timescale

  /** One emitted point: the input point with its tags enriched (when a set
      is configured) and the added tags laid over them. */
  function EnrichedPoint(p: Point, es: Option<EnrichmentSet>, added: map<string, string>, cache: CacheItems): Result<Point>
  {
    var base := if es.Some? then EnrichTags(p.tags, es.value, cache) else Ok(p.tags);
    match base
    case Err(e) => Err(e)
    case Ok(tags) => Ok(Point(p.measurement, p.fields, tags + added, p.timestamp))
  }

  /** The enrichment loop: the points in order, or the first error. */
  function EnrichedPoints(ps: seq<Point>, es: Option<EnrichmentSet>, added: map<string, string>, cache: CacheItems): Result<seq<Point>>
  {
    if |ps| == 0 then Ok([])
    else
      match EnrichedPoints(ps[..|ps| - 1], es, added, cache)
      case Err(e) => Err(e)
      case Ok(qs) =>
        match EnrichedPoint(ps[|ps| - 1], es, added, cache)
        case Err(e) => Err(e)
        case Ok(q) => Ok(qs + [q])
  }

  /** The enrichment set a measurement names: none for the empty name, an
      error for a name no configured set has. */
  function ResolvedSet(name: string, sets: seq<EnrichmentSet>): Result<Option<EnrichmentSet>>
  {
    if name == "" then Ok(None)
    else
      match FindEnrichmentSetByName(name, sets)
      case Err(_) => Err(UnknownEnrichment(name))
      case Ok(s) => Ok(Some(s))
  }

  /** The points a group keeps before enrichment. */
  function Candidates(g: PointGroup, cfg: OutputConfig, mc: MeasurementConfig): seq<Point>
  {
    if mc.GetIgnoreFiltering() then g.points
    else Selected(g.points, PointTags, cfg.GetTagfilterInclude(), cfg.GetTagfilterBlock())
  }

  /** One iteration of the loop over the groups: an error, nothing, or the
      prepared group. */
  function PreparedGroup(g: PointGroup, cfg: OutputConfig, sets: seq<EnrichmentSet>, cache: CacheItems)
    : Result<Option<PointGroup>>
  {
    match cfg.GetMeasurementConfig(g.measurement)
    case None => Err(UnknownMeasurement(g.measurement))
    case Some(mc) =>
      match ResolvedSet(mc.GetEnrichment(), sets)
      case Err(e) => Err(e)
      case Ok(es) =>
        if mc.GetIgnore() then Ok(None)
        else
          var points := Candidates(g, cfg, mc);
          if |points| == 0 then Ok(None)
          else
            match EnrichedPoints(points, es, mc.GetAddedTags(), cache)
            case Err(e) => Err(e)
            case Ok(ps) => Ok(Some(Group(g.measurement, ps)))
  }

  /** Reference definition of the whole call: the prepared groups in input
      order, or the first error. */
  function Prepared(groups: seq<PointGroup>, cfg: OutputConfig, sets: seq<EnrichmentSet>, cache: CacheItems)
    : Result<seq<PointGroup>>
  {
    if |groups| == 0 then Ok([])
    else
      match Prepared(groups[..|groups| - 1], cfg, sets, cache)
      case Err(e) => Err(e)
      case Ok(acc) =>
        match PreparedGroup(groups[|groups| - 1], cfg, sets, cache)
        case Err(e) => Err(e)
        case Ok(None) => Ok(acc)
        case Ok(Some(h)) => Ok(acc + [h])
  }

  // ---------------------------------------------------------------------
  // Properties

  /** Emitted points keep measurement, fields and timestamp; their tags are
      the base tags overlaid by the added tags.  Enrichment fails only when
      a set is configured but missing from the cache. */
  lemma {:induction false} EnrichedPointsShape(ps: seq<Point>, es: Option<EnrichmentSet>, added: map<string, string>, cache: CacheItems)
    ensures EnrichedPoints(ps, es, added, cache).Err? <==> |ps| > 0 && es.Some? && es.value.name !in cache
    ensures var r := EnrichedPoints(ps, es, added, cache);
      r.Ok? ==> |r.value| == |ps| && forall i | 0 <= i < |ps| ::
        r.value[i].measurement == ps[i].measurement && r.value[i].fields == ps[i].fields &&
        r.value[i].timestamp == ps[i].timestamp &&
        r.value[i].tags == (if es.Some? then EnrichTags(ps[i].tags, es.value, cache).value else ps[i].tags) + added
    decreases |ps|
  {
    if |ps| > 0 {
      EnrichedPointsShape(ps[..|ps| - 1], es, added, cache);
    }
  }

  /** Added tags win on collision; every other tag keeps its value. */
  lemma AddedTagsWin(ps: seq<Point>, es: Option<EnrichmentSet>, added: map<string, string>, cache: CacheItems, i: nat)
    requires EnrichedPoints(ps, es, added, cache).Ok? && i < |EnrichedPoints(ps, es, added, cache).value|
    ensures i < |ps|
    ensures var q := EnrichedPoints(ps, es, added, cache).value[i];
      (forall k | k in added :: k in q.tags && q.tags[k] == added[k]) &&
      (forall k | k in ps[i].tags && k !in added :: k in q.tags && q.tags[k] == ps[i].tags[k])
  {
    EnrichedPointsShape(ps, es, added, cache);
  }

  /** An error in a prefix of the groups is the error of the whole call. */
  lemma {:induction false} PreparedErrorStays(groups: seq<PointGroup>, cfg: OutputConfig, sets: seq<EnrichmentSet>, cache: CacheItems, k: nat)
    requires k <= |groups| && Prepared(groups[..k], cfg, sets, cache).Err?
    ensures Prepared(groups, cfg, sets, cache) == Prepared(groups[..k], cfg, sets, cache)
    decreases |groups| - k
  {
    if k < |groups| {
      assert groups[..|groups| - 1][..k] == groups[..k];
      PreparedErrorStays(groups[..|groups| - 1], cfg, sets, cache, k);
    } else {
      assert groups[..k] == groups;
    }
  }

  /** A failing group fails the whole call: no groups are returned. */
  lemma {:induction false} FailingGroupFailsAll(groups: seq<PointGroup>, cfg: OutputConfig, sets: seq<EnrichmentSet>, cache: CacheItems, k: nat)
    requires k < |groups| && PreparedGroup(groups[k], cfg, sets, cache).Err?
    ensures Prepared(groups, cfg, sets, cache).Err?
  {
    assert groups[..k + 1][..k] == groups[..k];
    assert Prepared(groups[..k + 1], cfg, sets, cache).Err?;
    PreparedErrorStays(groups, cfg, sets, cache, k + 1);
  }

  /** A measurement the output does not configure is an error. */
  lemma UnknownMeasurementFails(groups: seq<PointGroup>, cfg: OutputConfig, sets: seq<EnrichmentSet>, cache: CacheItems, k: nat)
    requires k < |groups| && cfg.GetMeasurementConfig(groups[k].measurement).None?
    ensures Prepared(groups, cfg, sets, cache).Err?
  {
    FailingGroupFailsAll(groups, cfg, sets, cache, k);
  }

  /** An unresolvable enrichment name is an error even when the measurement
      is ignored. */
  lemma UnknownEnrichmentFails(g: PointGroup, cfg: OutputConfig, sets: seq<EnrichmentSet>, cache: CacheItems)
    requires cfg.GetMeasurementConfig(g.measurement).Some?
    requires var name := cfg.GetMeasurementConfig(g.measurement).value.GetEnrichment();
      name != "" && forall i | 0 <= i < |sets| :: sets[i].name != name
    ensures PreparedGroup(g, cfg, sets, cache) ==
      Err(UnknownEnrichment(cfg.GetMeasurementConfig(g.measurement).value.GetEnrichment()))
  {
  }

  /** An ignored measurement with a resolvable enrichment contributes nothing
      and no error. */
  lemma IgnoredGroupDropped(g: PointGroup, cfg: OutputConfig, sets: seq<EnrichmentSet>, cache: CacheItems)
    requires cfg.GetMeasurementConfig(g.measurement).Some?
    requires var mc := cfg.GetMeasurementConfig(g.measurement).value;
      mc.GetIgnore() && ResolvedSet(mc.GetEnrichment(), sets).Ok?
    ensures PreparedGroup(g, cfg, sets, cache) == Ok(None)
  {
  }

  /** What a prepared group holds: the same measurement, at least one point,
      one emitted point per candidate (all points when filtering is switched
      off, the filter's survivors otherwise), and a configuration that does
      not ignore it. */
  lemma PreparedGroupShape(g: PointGroup, cfg: OutputConfig, sets: seq<EnrichmentSet>, cache: CacheItems)
    requires PreparedGroup(g, cfg, sets, cache).Ok? && PreparedGroup(g, cfg, sets, cache).value.Some?
    ensures var h := PreparedGroup(g, cfg, sets, cache).value.value;
      var mc := cfg.GetMeasurementConfig(g.measurement).value;
      cfg.GetMeasurementConfig(g.measurement).Some? && !mc.GetIgnore() &&
      h.measurement == g.measurement && |h.points| > 0 &&
      |h.points| == |Candidates(g, cfg, mc)| &&
      (mc.GetIgnoreFiltering() ==> |h.points| == |g.points|) &&
      forall i | 0 <= i < |h.points| ::
        h.points[i].fields == Candidates(g, cfg, mc)[i].fields &&
        h.points[i].timestamp == Candidates(g, cfg, mc)[i].timestamp &&
        forall k | k in mc.GetAddedTags() :: k in h.points[i].tags && h.points[i].tags[k] == mc.GetAddedTags()[k]
  {
    var mc := cfg.GetMeasurementConfig(g.measurement).value;
    var es := ResolvedSet(mc.GetEnrichment(), sets).value;
    EnrichedPointsShape(Candidates(g, cfg, mc), es, mc.GetAddedTags(), cache);
  }

  /** The prepared forms of the groups that yield one, in input order. */
  function Emitted(groups: seq<PointGroup>, cfg: OutputConfig, sets: seq<EnrichmentSet>, cache: CacheItems): seq<PointGroup>
  {
    if |groups| == 0 then []
    else
      var r := PreparedGroup(groups[|groups| - 1], cfg, sets, cache);
      Emitted(groups[..|groups| - 1], cfg, sets, cache) +
        (if r.Ok? && r.value.Some? then [r.value.value] else [])
  }

  /** The measurement of each group, in order. */
  function MeasurementsOf(groups: seq<PointGroup>): seq<string>
  {
    if |groups| == 0 then [] else MeasurementsOf(groups[..|groups| - 1]) + [groups[|groups| - 1].measurement]
  }

  /** A successful call prepared every group without error. */
  lemma {:induction false} PreparedAllGroups(groups: seq<PointGroup>, cfg: OutputConfig, sets: seq<EnrichmentSet>, cache: CacheItems)
    requires Prepared(groups, cfg, sets, cache).Ok?
    ensures forall i | 0 <= i < |groups| :: PreparedGroup(groups[i], cfg, sets, cache).Ok?
    decreases |groups|
  {
    if |groups| > 0 {
      var init := groups[..|groups| - 1];
      PreparedAllGroups(init, cfg, sets, cache);
      assert forall i | 0 <= i < |init| :: groups[i] == init[i];
    }
  }

  /** A successful call returns the emitted groups, in input order. */
  lemma {:induction false} PreparedIsEmitted(groups: seq<PointGroup>, cfg: OutputConfig, sets: seq<EnrichmentSet>, cache: CacheItems)
    requires Prepared(groups, cfg, sets, cache).Ok?
    ensures Prepared(groups, cfg, sets, cache).value == Emitted(groups, cfg, sets, cache)
    decreases |groups|
  {
    if |groups| > 0 {
      PreparedIsEmitted(groups[..|groups| - 1], cfg, sets, cache);
    }
  }

  /** No emitted group is empty, and the emitted measurements are a
      subsequence of the input measurements. */
  lemma {:induction false} EmittedInInputOrder(groups: seq<PointGroup>, cfg: OutputConfig, sets: seq<EnrichmentSet>, cache: CacheItems)
    ensures forall h | h in Emitted(groups, cfg, sets, cache) :: |h.points| > 0
    ensures IsSubsequence(MeasurementsOf(Emitted(groups, cfg, sets, cache)), MeasurementsOf(groups))
    decreases |groups|
  {
    if |groups| > 0 {
      var init, last := groups[..|groups| - 1], groups[|groups| - 1];
      EmittedInInputOrder(init, cfg, sets, cache);
      var em := Emitted(init, cfg, sets, cache);
      var r := PreparedGroup(last, cfg, sets, cache);
      var ms := MeasurementsOf(em);
      if r.Ok? && r.value.Some? {
        var h := r.value.value;
        PreparedGroupShape(last, cfg, sets, cache);
        assert Emitted(groups, cfg, sets, cache) == em + [h];
        assert (em + [h])[..|em|] == em;
        assert MeasurementsOf(em + [h]) == ms + [last.measurement];
        assert (ms + [last.measurement])[..|ms|] == ms;
      } else {
        assert Emitted(groups, cfg, sets, cache) == em;
        if |ms| > 0 {
          assert IsSubsequence(ms, MeasurementsOf(groups)[..|MeasurementsOf(groups)| - 1]);
        }
      }
    }
  }

  // ---------------------------------------------------------------------
  // The loops of the source

  /** The enrichment loop over one group's points. */
  method EnrichPoints(ps: seq<Point>, es: Option<EnrichmentSet>, added: map<string, string>, cache: CacheItems)
    returns (r: Result<seq<Point>>)
    ensures r == EnrichedPoints(ps, es, added, cache)
  {
    var enriched: seq<Point> := [];
    var i := 0;
    while i < |ps|
      invariant 0 <= i <= |ps|
      invariant EnrichedPoints(ps[..i], es, added, cache) == Ok(enriched)
    {
      assert ps[..i + 1][..i] == ps[..i];
      var p := ps[i];
      var tags := p.tags;
      if es.Some? {
        var t := EnrichTags(tags, es.value, cache);
        if t.Err? {
          EnrichedPointsErrorStays(ps, es, added, cache, i + 1);
          return Err(t.error);
        }
        tags := t.value;
      }
      tags := Timescale.MergeInto(tags, added);
      enriched := enriched + [Point(p.measurement, p.fields, tags, p.timestamp)];
      i := i + 1;
    }
    assert ps[..i] == ps;
    return Ok(enriched);
  }

  lemma {:induction false} EnrichedPointsErrorStays(ps: seq<Point>, es: Option<EnrichmentSet>, added: map<string, string>, cache: CacheItems, k: nat)
    requires k <= |ps| && EnrichedPoints(ps[..k], es, added, cache).Err?
    ensures EnrichedPoints(ps, es, added, cache) == EnrichedPoints(ps[..k], es, added, cache)
    decreases |ps| - k
  {
    if k < |ps| {
      assert ps[..|ps| - 1][..k] == ps[..k];
      EnrichedPointsErrorStays(ps[..|ps| - 1], es, added, cache, k);
    } else {
      assert ps[..k] == ps;
    }
  }

  /** The body of the loop over the groups. */
  method PrepareGroup(g: PointGroup, cfg: OutputConfig, sets: seq<EnrichmentSet>, cache: CacheItems)
    returns (r: Result<Option<PointGroup>>)
    ensures r == PreparedGroup(g, cfg, sets, cache)
  {
    var found := cfg.GetMeasurementConfig(g.measurement);
    if found.None? {
      return Err(UnknownMeasurement(g.measurement));
    }
    var mc := found.value;
    var name := mc.GetEnrichment();
    var es: Option<EnrichmentSet> := None;
    if name != "" {
      var s := FindEnrichmentSetByName(name, sets);
      if s.Err? {
        return Err(UnknownEnrichment(name));
      }
      es := Some(s.value);
    }
    if mc.GetIgnore() {
      return Ok(None);
    }
    var points := g.points;
    if !mc.GetIgnoreFiltering() {
      points := FilterOutput(points, cfg);
    }
    if |points| == 0 {
      return Ok(None);
    }
    var enriched := EnrichPoints(points, es, mc.GetAddedTags(), cache);
    if enriched.Err? {
      return Err(enriched.error);
    }
    return Ok(Some(Group(g.measurement, enriched.value)));
  }

  /** `PreparePointGroups`. */
  method PreparePointGroups(groups: seq<PointGroup>, cfg: OutputConfig, sets: seq<EnrichmentSet>, cache: CacheItems)
    returns (r: Result<seq<PointGroup>>)
    ensures r == Prepared(groups, cfg, sets, cache)
  {
    var ret: seq<PointGroup> := [];
    var i := 0;
    while i < |groups|
      invariant 0 <= i <= |groups|
      invariant Prepared(groups[..i], cfg, sets, cache) == Ok(ret)
    {
      assert groups[..i + 1][..i] == groups[..i];
      var h := PrepareGroup(groups[i], cfg, sets, cache);
      if h.Err? {
        PreparedErrorStays(groups, cfg, sets, cache, i + 1);
        return Err(h.error);
      }
      if h.value.Some? {
        ret := ret + [h.value.value];
      }
      i := i + 1;
    }
    assert groups[..i] == groups;
    return Ok(ret);
  }
}
