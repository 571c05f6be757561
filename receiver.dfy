/** cmd/metrics-receiver/main.go: the receiver's own bookkeeping and the
    fan-out of a batch of points to every configured output.

    `writeOutputs` prepares and writes the batch for each TimescaleDB output,
    then for each InfluxDB output, in configuration order.  Under the
    `commit` write strategy the first failure of an output ends the call with
    a critical error; under any other strategy the failure is recorded and
    the next output is processed.  The databases answer through `Sinks`: the
    driver outcomes of the i-th TimescaleDB output and the point-write
    outcomes of the i-th InfluxDB output.

    The internal-metrics record is a class whose methods are the three
    transitions the source makes under its lock: counting a parsed request,
    collecting the counters into a point, and flushing the buffer. */
module Receiver {
  import opened Errors
  import opened Points
  import opened Config
  import opened Enrichments
  import opened Grouping
  import opened Prepare
  import LineProtocol
  import Text
  import Timescale
  import InfluxWrite

  /** The answers of the databases, per output. */
  datatype Sinks = Sinks(timescale: nat -> Timescale.TxOutcomes, influx: nat -> (nat -> bool))

  /** How one output's turn ended. */
  datatype Stage = Fine | PrepareFailed(e: Error) | WriteFailed(e: Error)

  /** One output's turn: its write strategy, the name used in the error
      text, and how it ended. */
  datatype Attempt = Attempt(strategy: string, sink: string, stage: Stage)

  /** What `writeOutputs` returns: the critical error, if any, and the
      non-critical errors recorded before it. */
  datatype Verdict = Verdict(critical: Option<Error>, nonCritical: seq<Error>)

  function TimescaleStage(groups: seq<PointGroup>, ts: OutputTimescale, sets: seq<EnrichmentSet>, cache: CacheItems, tx: Timescale.TxOutcomes): Stage
  {
    match Prepared(groups, TimescaleOutput(ts), sets, cache)
    case Err(e) => PrepareFailed(e)
    case Ok(prepared) =>
      var w := Timescale.WriteError(prepared, ts, tx);
      if w.Some? then WriteFailed(w.value) else Fine
  }

  function InfluxStage(groups: seq<PointGroup>, ix: OutputInflux, sets: seq<EnrichmentSet>, cache: CacheItems, ok: nat -> bool): Stage
  {
    match Prepared(groups, InfluxOutput(ix), sets, cache)
    case Err(e) => PrepareFailed(e)
    case Ok(prepared) =>
      var w := InfluxWrite.WriteError(prepared, ix, ok);
      if w.Some? then WriteFailed(w.value) else Fine
  }

  function TimescaleAttempts(groups: seq<PointGroup>, cfg: Configuration, cache: CacheItems, sinks: Sinks): seq<Attempt>
  {
    var outs := cfg.outputsTimescale;
    seq(|outs|, i requires 0 <= i < |outs| =>
      Attempt(outs[i].writeStrategy, "timescaleDB", TimescaleStage(groups, outs[i], cfg.enrichment.sets, cache, sinks.timescale(i))))
  }

  function InfluxAttempts(groups: seq<PointGroup>, cfg: Configuration, cache: CacheItems, sinks: Sinks): seq<Attempt>
  {
    var outs := cfg.outputsInflux;
    seq(|outs|, i requires 0 <= i < |outs| =>
      Attempt(outs[i].writeStrategy, "influxDB", InfluxStage(groups, outs[i], cfg.enrichment.sets, cache, sinks.influx(i))))
  }

  /** The outputs' turns in the order `writeOutputs` takes them. */
  function Attempts(groups: seq<PointGroup>, cfg: Configuration, cache: CacheItems, sinks: Sinks): seq<Attempt>
  {
    TimescaleAttempts(groups, cfg, cache, sinks) + InfluxAttempts(groups, cfg, cache, sinks)
  }

  predicate Failed(a: Attempt)
  {
    !a.stage.Fine?
  }

  /** The critical error a failing `commit` output produces. */
  function CriticalError(a: Attempt): Error
    requires Failed(a)
  {
    match a.stage
    case PrepareFailed(e) => Wrapped("An error occurred preparing " + a.sink + " output", e)
    case WriteFailed(e) => Wrapped("An error occurred writing " + a.sink + " output", e)
  }

  /** One turn's effect on the verdict so far. */
  function Step(v: Verdict, a: Attempt): Verdict
  {
    if v.critical.Some? || !Failed(a) then v
    else if a.strategy == CommitStrategy then Verdict(Some(CriticalError(a)), v.nonCritical)
    else Verdict(None, v.nonCritical + [a.stage.e])
  }

  /** The verdict after the given turns, stopping at the first critical error. */
  function VerdictOf(attempts: seq<Attempt>): Verdict
  {
    if |attempts| == 0 then Verdict(None, [])
    else Step(VerdictOf(attempts[..|attempts| - 1]), attempts[|attempts| - 1])
  }

  lemma VerdictStep(attempts: seq<Attempt>, k: nat)
    requires k < |attempts|
    ensures VerdictOf(attempts[..k + 1]) == Step(VerdictOf(attempts[..k]), attempts[k])
  {
    assert attempts[..k + 1][..k] == attempts[..k];
  }

  lemma TimescaleAttemptAt(groups: seq<PointGroup>, cfg: Configuration, cache: CacheItems, sinks: Sinks, i: nat)
    requires i < |cfg.outputsTimescale|
    ensures Attempts(groups, cfg, cache, sinks)[i] ==
      Attempt(cfg.outputsTimescale[i].writeStrategy, "timescaleDB",
        TimescaleStage(groups, cfg.outputsTimescale[i], cfg.enrichment.sets, cache, sinks.timescale(i)))
  {
  }

  lemma InfluxAttemptAt(groups: seq<PointGroup>, cfg: Configuration, cache: CacheItems, sinks: Sinks, j: nat)
    requires j < |cfg.outputsInflux|
    ensures Attempts(groups, cfg, cache, sinks)[|cfg.outputsTimescale| + j] ==
      Attempt(cfg.outputsInflux[j].writeStrategy, "influxDB",
        InfluxStage(groups, cfg.outputsInflux[j], cfg.enrichment.sets, cache, sinks.influx(j)))
  {
    var t := TimescaleAttempts(groups, cfg, cache, sinks);
    assert Attempts(groups, cfg, cache, sinks)[|t| + j] == InfluxAttempts(groups, cfg, cache, sinks)[j];
  }

  lemma InfluxAttemptIs(groups: seq<PointGroup>, cfg: Configuration, cache: CacheItems, sinks: Sinks, j: nat, stage: Stage)
    requires j < |cfg.outputsInflux|
    requires stage == InfluxStage(groups, cfg.outputsInflux[j], cfg.enrichment.sets, cache, sinks.influx(j))
    ensures Attempts(groups, cfg, cache, sinks)[|cfg.outputsTimescale| + j] ==
      Attempt(cfg.outputsInflux[j].writeStrategy, "influxDB", stage)
  {
    InfluxAttemptAt(groups, cfg, cache, sinks, j);
  }

  /** The errors of the failed best-effort turns, in order. */
  function Recorded(attempts: seq<Attempt>): seq<Error>
  {
    if |attempts| == 0 then []
    else
      var a := attempts[0];
      (if Failed(a) && a.strategy != CommitStrategy then [a.stage.e] else []) + Recorded(attempts[1..])
  }

  // ---------------------------------------------------------------------
  // Properties of the fan-out

  lemma {:induction false} RecordedAppend(attempts: seq<Attempt>, a: Attempt)
    ensures Recorded(attempts + [a]) == Recorded(attempts) + (if Failed(a) && a.strategy != CommitStrategy then [a.stage.e] else [])
    decreases |attempts|
  {
    if |attempts| == 0 {
      assert [a][1..] == [];
    } else {
      assert (attempts + [a])[1..] == attempts[1..] + [a];
      RecordedAppend(attempts[1..], a);
    }
  }

  /** There is no critical error iff no `commit` output failed; the
      non-critical errors are then exactly those of the failed best-effort
      outputs, in order. */
  lemma {:induction false} NoCriticalIffCommitsSucceed(attempts: seq<Attempt>)
    ensures VerdictOf(attempts).critical.None? <==>
      forall i | 0 <= i < |attempts| :: attempts[i].strategy == CommitStrategy ==> !Failed(attempts[i])
    ensures VerdictOf(attempts).critical.None? ==> VerdictOf(attempts).nonCritical == Recorded(attempts)
    decreases |attempts|
  {
    if |attempts| > 0 {
      var init := attempts[..|attempts| - 1];
      NoCriticalIffCommitsSucceed(init);
      assert forall i | 0 <= i < |init| :: attempts[i] == init[i];
      assert attempts == init + [attempts[|attempts| - 1]];
      RecordedAppend(init, attempts[|attempts| - 1]);
    }
  }

  /** A critical error comes from the first failing `commit` output; nothing
      after it counts, and the non-critical errors are those recorded
      before it. */
  lemma {:induction false} CriticalIsFirstFailingCommit(attempts: seq<Attempt>)
    requires VerdictOf(attempts).critical.Some?
    ensures exists k | 0 <= k < |attempts| ::
      attempts[k].strategy == CommitStrategy && Failed(attempts[k]) &&
      (forall i | 0 <= i < k :: attempts[i].strategy == CommitStrategy ==> !Failed(attempts[i])) &&
      VerdictOf(attempts) == Verdict(Some(CriticalError(attempts[k])), Recorded(attempts[..k]))
    decreases |attempts|
  {
    var n := |attempts| - 1;
    var init := attempts[..n];
    assert forall i | 0 <= i < n :: attempts[i] == init[i];
    if VerdictOf(init).critical.Some? {
      CriticalIsFirstFailingCommit(init);
      var k :| 0 <= k < n && init[k].strategy == CommitStrategy && Failed(init[k]) &&
        (forall i | 0 <= i < k :: init[i].strategy == CommitStrategy ==> !Failed(init[i])) &&
        VerdictOf(init) == Verdict(Some(CriticalError(init[k])), Recorded(init[..k]));
      assert init[..k] == attempts[..k];
    } else {
      NoCriticalIffCommitsSucceed(init);
      assert init == attempts[..n];
    }
  }

  /** Once a critical error is reached, later turns change nothing. */
  lemma {:induction false} CriticalStays(attempts: seq<Attempt>, k: nat)
    requires k <= |attempts| && VerdictOf(attempts[..k]).critical.Some?
    ensures VerdictOf(attempts) == VerdictOf(attempts[..k])
    decreases |attempts| - k
  {
    if k < |attempts| {
      assert attempts[..|attempts| - 1][..k] == attempts[..k];
      CriticalStays(attempts[..|attempts| - 1], k);
    } else {
      assert attempts[..k] == attempts;
    }
  }

  /** A critical error from a TimescaleDB output means no InfluxDB output
      is processed. */
  lemma TimescaleCriticalSkipsInflux(groups: seq<PointGroup>, cfg: Configuration, cache: CacheItems, sinks: Sinks)
    requires VerdictOf(TimescaleAttempts(groups, cfg, cache, sinks)).critical.Some?
    ensures VerdictOf(Attempts(groups, cfg, cache, sinks)) == VerdictOf(TimescaleAttempts(groups, cfg, cache, sinks))
  {
    var t := TimescaleAttempts(groups, cfg, cache, sinks);
    var all := Attempts(groups, cfg, cache, sinks);
    assert all[..|t|] == t;
    CriticalStays(all, |t|);
  }

  // ---------------------------------------------------------------------
  // writeOutputs

  /** One TimescaleDB output's turn: prepare, then write what was prepared. */
  method TimescaleTurn(groups: seq<PointGroup>, out: OutputTimescale, sets: seq<EnrichmentSet>, cache: CacheItems, tx: Timescale.TxOutcomes)
    returns (stage: Stage)
    ensures stage == TimescaleStage(groups, out, sets, cache, tx)
  {
    var prepared := PreparePointGroups(groups, TimescaleOutput(out), sets, cache);
    if prepared.Err? {
      return PrepareFailed(prepared.error);
    }
    var _, err := Timescale.Write(prepared.value, out, sets, tx);
    if err.Some? {
      return WriteFailed(err.value);
    }
    return Fine;
  }

  /** One InfluxDB output's turn. */
  method InfluxTurn(groups: seq<PointGroup>, out: OutputInflux, sets: seq<EnrichmentSet>, cache: CacheItems, ok: nat -> bool)
    returns (stage: Stage)
    ensures stage == InfluxStage(groups, out, sets, cache, ok)
  {
    var prepared := PreparePointGroups(groups, InfluxOutput(out), sets, cache);
    if prepared.Err? {
      return PrepareFailed(prepared.error);
    }
    var _, err := InfluxWrite.Write(prepared.value, out, sets, ok);
    if err.Some? {
      return WriteFailed(err.value);
    }
    return Fine;
  }

  /** `writeOutputs`: the groups are formed once; the returned groups are the
      ones the outputs saw, since their order comes from map iteration. */
  method WriteOutputs(points: seq<Point>, cfg: Configuration, cache: CacheItems, sinks: Sinks)
    returns (groups: seq<PointGroup>, critical: Option<Error>, nonCritical: seq<Error>)
    ensures IsGrouping(groups, points, PointName)
    ensures Verdict(critical, nonCritical) == VerdictOf(Attempts(groups, cfg, cache, sinks))
  {
    groups := SplitPointsByMeasurement(points);
    critical, nonCritical := WriteGroups(groups, cfg, cache, sinks);
  }

  /** The two loops of `writeOutputs` over the grouped points. */
  method WriteGroups(groups: seq<PointGroup>, cfg: Configuration, cache: CacheItems, sinks: Sinks)
    returns (critical: Option<Error>, nonCritical: seq<Error>)
    ensures Verdict(critical, nonCritical) == VerdictOf(Attempts(groups, cfg, cache, sinks))
  {
    critical, nonCritical := WriteTimescaleOutputs(groups, cfg, cache, sinks);
    if critical.None? {
      critical, nonCritical := WriteInfluxOutputs(groups, cfg, cache, sinks, nonCritical);
    }
  }

  lemma AttemptsLength(groups: seq<PointGroup>, cfg: Configuration, cache: CacheItems, sinks: Sinks)
    ensures |Attempts(groups, cfg, cache, sinks)| == |cfg.outputsTimescale| + |cfg.outputsInflux|
  {
  }

  /** The loop over the TimescaleDB outputs. */
  method WriteTimescaleOutputs(groups: seq<PointGroup>, cfg: Configuration, cache: CacheItems, sinks: Sinks)
    returns (critical: Option<Error>, nonCritical: seq<Error>)
    ensures critical.Some? ==> Verdict(critical, nonCritical) == VerdictOf(Attempts(groups, cfg, cache, sinks))
    ensures critical.None? ==>
      Verdict(critical, nonCritical) == VerdictOf(Attempts(groups, cfg, cache, sinks)[..|cfg.outputsTimescale|])
  {
    ghost var all := Attempts(groups, cfg, cache, sinks);
    AttemptsLength(groups, cfg, cache, sinks);
    nonCritical := [];
    var i := 0;
    while i < |cfg.outputsTimescale|
      invariant 0 <= i <= |cfg.outputsTimescale| && VerdictOf(all[..i]) == Verdict(None, nonCritical)
    {
      var out := cfg.outputsTimescale[i];
      var stage := TimescaleTurn(groups, out, cfg.enrichment.sets, cache, sinks.timescale(i));
      TimescaleAttemptAt(groups, cfg, cache, sinks, i);
      VerdictStep(all, i);
      if !stage.Fine? {
        if out.writeStrategy == CommitStrategy {
          CriticalStays(all, i + 1);
          return Some(CriticalError(Attempt(out.writeStrategy, "timescaleDB", stage))), nonCritical;
        }
        nonCritical := nonCritical + [stage.e];
      }
      i := i + 1;
    }
    critical := None;
  }

  /** One turn taken while no critical error has occurred: the verdict
      follows `Step`, and a failing `commit` output decides the whole run. */
  lemma TurnTaken(all: seq<Attempt>, k: nat, v: Verdict, a: Attempt)
    requires k < |all| && all[k] == a && VerdictOf(all[..k]) == v && v.critical.None?
    ensures !Failed(a) ==> VerdictOf(all[..k + 1]) == v
    ensures Failed(a) && a.strategy != CommitStrategy ==>
      VerdictOf(all[..k + 1]) == Verdict(None, v.nonCritical + [a.stage.e])
    ensures Failed(a) && a.strategy == CommitStrategy ==>
      VerdictOf(all) == Verdict(Some(CriticalError(a)), v.nonCritical)
  {
    VerdictStep(all, k);
    if Failed(a) && a.strategy == CommitStrategy {
      CriticalStays(all, k + 1);
    }
  }

  lemma WholePrefix<T>(s: seq<T>, n: nat)
    requires n == |s|
    ensures s[..n] == s
  {
  }

  /** The loop over the InfluxDB outputs, after the TimescaleDB outputs
      recorded `recorded` and produced no critical error. */
  method WriteInfluxOutputs(groups: seq<PointGroup>, cfg: Configuration, cache: CacheItems, sinks: Sinks, recorded: seq<Error>)
    returns (critical: Option<Error>, nonCritical: seq<Error>)
    requires VerdictOf(Attempts(groups, cfg, cache, sinks)[..|cfg.outputsTimescale|]) == Verdict(None, recorded)
    ensures Verdict(critical, nonCritical) == VerdictOf(Attempts(groups, cfg, cache, sinks))
  {
    ghost var all := Attempts(groups, cfg, cache, sinks);
    ghost var nt := |cfg.outputsTimescale|;
    AttemptsLength(groups, cfg, cache, sinks);
    nonCritical := recorded;
    var j := 0;
    while j < |cfg.outputsInflux|
      invariant 0 <= j <= |cfg.outputsInflux|
      invariant VerdictOf(all[..nt + j]) == Verdict(None, nonCritical)
    {
      var out := cfg.outputsInflux[j];
      var stage := InfluxTurn(groups, out, cfg.enrichment.sets, cache, sinks.influx(j));
      ghost var a := Attempt(out.writeStrategy, "influxDB", stage);
      InfluxAttemptIs(groups, cfg, cache, sinks, j, stage);
      TurnTaken(all, nt + j, Verdict(None, nonCritical), a);
      if !stage.Fine? {
        if out.writeStrategy == CommitStrategy {
          return Some(CriticalError(Attempt(out.writeStrategy, "influxDB", stage))), nonCritical;
        }
        nonCritical := nonCritical + [stage.e];
      }
      j := j + 1;
    }
    WholePrefix(all, nt + j);
    critical := None;
  }

  // ---------------------------------------------------------------------
  // Internal metrics

  /** The point a collect tick appends. */
  function CountersPoint(measurement: string, messages: int, lines: int, bytes: int, now: int): Point
  {
    Point(measurement,
      map["received_messages" := Int64(messages), "received_lines" := Int64(lines), "received_bytes" := Int64(bytes)],
      map[], now)
  }

  /** A collected point carries the three counts and no tags. */
  lemma CountersPointFields(measurement: string, messages: int, lines: int, bytes: int, now: int)
    ensures var p := CountersPoint(measurement, messages, lines, bytes, now);
      p.measurement == measurement && p.tags == map[] && p.timestamp == now &&
      p.fields.Keys == {"received_messages", "received_lines", "received_bytes"} &&
      p.fields["received_messages"] == Int64(messages) &&
      p.fields["received_lines"] == Int64(lines) &&
      p.fields["received_bytes"] == Int64(bytes)
  {
  }

  class InternalMetrics {
    var incomingMetrics: seq<Point>
    var incomingMessagesCount: int
    var incomingLinesCount: int
    var incomingBytesCount: int

    constructor ()
      ensures incomingMetrics == [] && incomingMessagesCount == 0 && incomingLinesCount == 0 && incomingBytesCount == 0
    {
      incomingMetrics := [];
      incomingMessagesCount := 0;
      incomingLinesCount := 0;
      incomingBytesCount := 0;
    }

    /** The write handler from parsing to counting: the counts move only
        when the body parses. */
    method RecordRequest(buf: string, now: int) returns (r: Result<seq<Point>>)
      modifies this
      ensures r == LineProtocol.Parsed(buf, now)
      ensures incomingMetrics == old(incomingMetrics)
      ensures r.Ok? ==>
        incomingMessagesCount == old(incomingMessagesCount) + 1 &&
        incomingBytesCount == old(incomingBytesCount) + Text.Utf8Length(buf) &&
        incomingLinesCount == old(incomingLinesCount) + |r.value|
      ensures r.Err? ==>
        incomingMessagesCount == old(incomingMessagesCount) &&
        incomingBytesCount == old(incomingBytesCount) &&
        incomingLinesCount == old(incomingLinesCount)
    {
      r := LineProtocol.Parse(buf, now);
      if r.Err? {
        return;
      }
      incomingMessagesCount := incomingMessagesCount + 1;
      incomingBytesCount := incomingBytesCount + Text.Utf8Length(buf);
      incomingLinesCount := incomingLinesCount + |r.value|;
    }

    /** The collect tick: one point of the current counts, then the counts
        start again from zero. */
    method Collect(measurement: string, now: int)
      modifies this
      ensures incomingMetrics == old(incomingMetrics) +
        [CountersPoint(measurement, old(incomingMessagesCount), old(incomingLinesCount), old(incomingBytesCount), now)]
      ensures incomingMessagesCount == 0 && incomingLinesCount == 0 && incomingBytesCount == 0
    {
      var metric := CountersPoint(measurement, incomingMessagesCount, incomingLinesCount, incomingBytesCount, now);
      incomingMetrics := incomingMetrics + [metric];
      incomingMessagesCount := 0;
      incomingLinesCount := 0;
      incomingBytesCount := 0;
    }

    /** The flush tick: the buffered points go to every output and the
        buffer is emptied, whatever the outcome; the counts are untouched. */
    method Flush(cfg: Configuration, cache: CacheItems, sinks: Sinks)
      returns (groups: seq<PointGroup>, critical: Option<Error>, nonCritical: seq<Error>)
      modifies this
      ensures IsGrouping(groups, old(incomingMetrics), PointName)
      ensures Verdict(critical, nonCritical) == VerdictOf(Attempts(groups, cfg, cache, sinks))
      ensures incomingMetrics == []
      ensures incomingMessagesCount == old(incomingMessagesCount) &&
        incomingLinesCount == old(incomingLinesCount) && incomingBytesCount == old(incomingBytesCount)
    {
      groups, critical, nonCritical := WriteOutputs(incomingMetrics, cfg, cache, sinks);
      incomingMetrics := [];
    }
  }
}
