/** cmd/metrics-receiver-ng/main.go: the older receiver, which works on the
    legacy point shape (text timestamp) and builds, per TimescaleDB group, an
    INSERT statement with bind parameters instead of a column copy.

    It differs from the current builders in three ways the model keeps:
    its filter is handed the configuration by value, so the tag rules apply;
    `ignore` skips a group in the TimescaleDB builder too; and `data` holds
    the tags and fields that ARE column-mapped (a key is copied when it
    equals a column name), not the unmapped ones.

    `time.Format` is the parameter `format`.  The inserts themselves are not
    modelled: the handler is given, per output, the error its insert returns. */
module ReceiverNg {
  import opened Errors
  import opened Text
  import opened Points
  import opened Config
  import opened Filter
  import opened Grouping
  import Prepare
  import Timescale

  type LegacyGroup = Group<LegacyPoint>

  /** One row of an INSERT: the formatted time, `data`, then the column values. */
  datatype InsertRow = InsertRow(
    timestampFormatted: string,
    data: map<string, Timescale.DataValue>,
    fieldColumnValues: seq<Timescale.Cell>,
    tagColumnValues: seq<Timescale.Cell>)

  /** DBRow: the statement, its rows and the table. */
  datatype DBRow = DBRow(insertQuery: string, insertRows: seq<InsertRow>, targetTable: string)

  function TagAsData(s: string): Timescale.DataValue { Timescale.TagValue(s) }

  function FieldAsData(v: FieldValue): Timescale.DataValue { Timescale.FieldData(v) }

  /** The entries of `m` whose key is one of `cols`. */
  function MappedData<V>(m: map<string, V>, cols: seq<string>, wrap: V -> Timescale.DataValue): map<string, Timescale.DataValue>
  {
    map k | k in m && k in cols :: wrap(m[k])
  }

  /** The row of a point: the added tags are laid over its tags first. */
  function LegacyRow(p: LegacyPoint, mc: MeasurementTimescale, format: string -> string): InsertRow
  {
    var tags := p.tags + mc.addedTags;
    InsertRow(
      format(p.timestamp),
      Timescale.Merged([MappedData(tags, mc.tagsAsColumns, TagAsData), MappedData(p.fields, mc.fieldsAsColumns, FieldAsData)]),
      Timescale.FieldColumns(p.fields, mc.fieldsAsColumns),
      Timescale.TagColumns(tags, mc.tagsAsColumns))
  }

  /** `$1` to `$n`. */
  function Placeholders(n: nat): seq<string>
  {
    seq(n, i requires 0 <= i < n => "$" + IntToString(i + 1))
  }

  /** The statement for a table and its columns. */
  function InsertSql(table: string, cols: seq<string>): string
  {
    "INSERT INTO " + table + "(" + Join(cols, ",") + ") VALUES (" + Join(Placeholders(|cols|), ",") + ")"
  }

  /** The points of a group that pass the output's tag filter. */
  function Kept(ps: seq<LegacyPoint>, cfg: OutputConfig): seq<LegacyPoint>
  {
    Selected(ps, LegacyTags, cfg.GetTagfilterInclude(), cfg.GetTagfilterBlock())
  }

  function LegacyGroupRows(g: LegacyGroup, cfg: OutputTimescale, mc: MeasurementTimescale, format: string -> string): DBRow
  {
    var ps := Kept(g.points, TimescaleOutput(cfg));
    DBRow(InsertSql(mc.targetTable, Timescale.ColumnsOf(mc)),
      seq(|ps|, j requires 0 <= j < |ps| => LegacyRow(ps[j], mc, format)), mc.targetTable)
  }

  /** The legacy `buildDBRowsTimescale`: one DBRow per configured group that
      is not ignored, or the first unknown measurement. */
  function LegacyRowsOf(groups: seq<LegacyGroup>, cfg: OutputTimescale, format: string -> string): Result<seq<DBRow>>
  {
    if |groups| == 0 then Ok([])
    else
      match LegacyRowsOf(groups[..|groups| - 1], cfg, format)
      case Err(e) => Err(e)
      case Ok(acc) =>
        var g := groups[|groups| - 1];
        if g.measurement !in cfg.measurements then Err(UnknownMeasurement(g.measurement))
        else if cfg.measurements[g.measurement].ignore then Ok(acc)
        else Ok(acc + [LegacyGroupRows(g, cfg, cfg.measurements[g.measurement], format)])
  }

  function LegacyRelabelled(p: LegacyPoint, measurement: string, added: map<string, string>): LegacyPoint
  {
    LegacyPoint(measurement, p.fields, p.tags + added, p.timestamp)
  }

  /** The legacy `buildDBPointsInflux`: as the current one, but the filter applies. */
  function LegacyInfluxPoints(groups: seq<LegacyGroup>, cfg: OutputInflux): Result<seq<LegacyPoint>>
  {
    if |groups| == 0 then Ok([])
    else
      match LegacyInfluxPoints(groups[..|groups| - 1], cfg)
      case Err(e) => Err(e)
      case Ok(acc) =>
        var g := groups[|groups| - 1];
        if g.measurement !in cfg.measurements then Err(UnknownMeasurement(g.measurement))
        else if cfg.measurements[g.measurement].ignore then Ok(acc)
        else
          var ps := Kept(g.points, InfluxOutput(cfg));
          var added := cfg.measurements[g.measurement].addedTags;
          Ok(acc + seq(|ps|, j requires 0 <= j < |ps| => LegacyRelabelled(ps[j], g.measurement, added)))
  }

  // ---------------------------------------------------------------------
  // Properties of the builders

  /** Each builder fails exactly when some group's measurement is unknown. */
  lemma {:induction false} LegacyRowsFail(groups: seq<LegacyGroup>, cfg: OutputTimescale, format: string -> string)
    ensures LegacyRowsOf(groups, cfg, format).Err? <==> exists i | 0 <= i < |groups| :: groups[i].measurement !in cfg.measurements
    decreases |groups|
  {
    if |groups| > 0 {
      var init := groups[..|groups| - 1];
      LegacyRowsFail(init, cfg, format);
      assert forall i | 0 <= i < |init| :: groups[i] == init[i];
    }
  }

  lemma {:induction false} LegacyInfluxFail(groups: seq<LegacyGroup>, cfg: OutputInflux)
    ensures LegacyInfluxPoints(groups, cfg).Err? <==> exists i | 0 <= i < |groups| :: groups[i].measurement !in cfg.measurements
    decreases |groups|
  {
    if |groups| > 0 {
      var init := groups[..|groups| - 1];
      LegacyInfluxFail(init, cfg);
      assert forall i | 0 <= i < |init| :: groups[i] == init[i];
    }
  }

  /** An ignored group yields no DBRow; every DBRow comes from a configured
      group that is not ignored and names that group's table. */
  lemma {:induction false} LegacyRowsFromKeptGroups(groups: seq<LegacyGroup>, cfg: OutputTimescale, format: string -> string)
    requires LegacyRowsOf(groups, cfg, format).Ok?
    ensures forall r | r in LegacyRowsOf(groups, cfg, format).value ::
      exists i | 0 <= i < |groups| ::
        groups[i].measurement in cfg.measurements && !cfg.measurements[groups[i].measurement].ignore &&
        r == LegacyGroupRows(groups[i], cfg, cfg.measurements[groups[i].measurement], format) &&
        r.targetTable == cfg.measurements[groups[i].measurement].targetTable
    decreases |groups|
  {
    if |groups| > 0 {
      var init := groups[..|groups| - 1];
      LegacyRowsFromKeptGroups(init, cfg, format);
      assert forall i | 0 <= i < |init| :: groups[i] == init[i];
    }
  }

  /** The placeholders are `$1`…`$n`, and each reads back as its position. */
  lemma PlaceholdersReadBack(n: nat, i: nat)
    requires i < n <= MaxInt64
    ensures Placeholders(n)[i][0] == '$' && Atoi(Placeholders(n)[i][1..]) == Some(i + 1)
  {
    assert Placeholders(n)[i][1..] == IntToString(i + 1);
    AtoiOfIntToString(i + 1);
  }

  lemma PlaceholdersCommaFree(n: nat)
    ensures forall i | 0 <= i < n :: ',' !in Placeholders(n)[i]
  {
    forall i | 0 <= i < n
      ensures ',' !in Placeholders(n)[i]
    {
      NatToStringDigits(i + 1);
      var s := Placeholders(n)[i];
      assert s == "$" + NatToString(i + 1);
      forall c | 0 <= c < |s| ensures s[c] != ',' {
        if c > 0 { assert s[c] == NatToString(i + 1)[c - 1]; }
      }
    }
  }

  /** The statement names the columns in order and has one placeholder per
      column: splitting the two comma-joined lists that `InsertSql` writes
      gives back the column names and `$1`…`$n`. */
  lemma InsertSqlLists(table: string, cols: seq<string>)
    requires |cols| > 0 && forall i | 0 <= i < |cols| :: ',' !in cols[i]
    ensures Split(Join(cols, ","), ',') == cols
    ensures Split(Join(Placeholders(|cols|), ","), ',') == Placeholders(|cols|)
  {
    SplitJoin(cols, ',');
    PlaceholdersCommaFree(|cols|);
    SplitJoin(Placeholders(|cols|), ',');
  }

  /** A row has one value per field column and one per tag column, so with
      the time and `data` it fills every placeholder of its statement. */
  lemma LegacyRowFillsStatement(p: LegacyPoint, mc: MeasurementTimescale, format: string -> string)
    ensures var row := LegacyRow(p, mc, format);
      2 + |row.fieldColumnValues| + |row.tagColumnValues| == |Timescale.ColumnsOf(mc)| == |Placeholders(|Timescale.ColumnsOf(mc)|)|
  {
    Timescale.ColumnsLayout(mc);
  }

  /** `data` holds exactly the column-mapped tags (after the added tags) and
      fields, a field winning over a tag of the same name.  So a key is never
      both in the legacy `data` and in the current builder's `data`. */
  lemma LegacyDataContents(p: LegacyPoint, mc: MeasurementTimescale, format: string -> string, k: string)
    ensures var data := LegacyRow(p, mc, format).data; var tags := p.tags + mc.addedTags;
      (k in data <==> (k in tags && k in mc.tagsAsColumns) || (k in p.fields && k in mc.fieldsAsColumns)) &&
      (k in p.fields && k in mc.fieldsAsColumns ==> data[k] == Timescale.FieldData(p.fields[k])) &&
      (k in tags && k in mc.tagsAsColumns && !(k in p.fields && k in mc.fieldsAsColumns) ==> data[k] == Timescale.TagValue(tags[k]))
  {
    var tags := p.tags + mc.addedTags;
    var ms := [MappedData(tags, mc.tagsAsColumns, TagAsData), MappedData(p.fields, mc.fieldsAsColumns, FieldAsData)];
    assert ms[..1][..0] == [];
    assert Timescale.Merged(ms[..1]) == ms[0];
  }

  /** Every point the legacy Influx builder emits comes from a point of a
      configured, not ignored group that passed the tag filter. */
  lemma {:induction false} LegacyInfluxFromKeptPoints(groups: seq<LegacyGroup>, cfg: OutputInflux, p: LegacyPoint)
    requires LegacyInfluxPoints(groups, cfg).Ok? && p in LegacyInfluxPoints(groups, cfg).value
    ensures exists i, q | 0 <= i < |groups| && q in groups[i].points ::
      groups[i].measurement in cfg.measurements && !cfg.measurements[groups[i].measurement].ignore &&
      (|cfg.tagfilterInclude| == 0 || Matches(q.tags, cfg.tagfilterInclude)) && !Matches(q.tags, cfg.tagfilterBlock) &&
      p == LegacyRelabelled(q, groups[i].measurement, cfg.measurements[groups[i].measurement].addedTags)
    decreases |groups|
  {
    var n := |groups| - 1;
    var init := groups[..n];
    assert forall i | 0 <= i < n :: groups[i] == init[i];
    var acc := LegacyInfluxPoints(init, cfg).value;
    if p in acc {
      LegacyInfluxFromKeptPoints(init, cfg, p);
    } else {
      var g := groups[n];
      var ps := Kept(g.points, InfluxOutput(cfg));
      var added := cfg.measurements[g.measurement].addedTags;
      var tail := seq(|ps|, j requires 0 <= j < |ps| => LegacyRelabelled(ps[j], g.measurement, added));
      assert p in tail;
      var j :| 0 <= j < |ps| && tail[j] == p;
      SelectedMembers(g.points, LegacyTags, cfg.tagfilterInclude, cfg.tagfilterBlock, ps[j]);
    }
  }

  // ---------------------------------------------------------------------
  // The loops of the source

  /** The legacy `filterPoints`: the rules come from a configuration value;
      anything else leaves them empty. */
  method LegacyFilterPoints(points: seq<LegacyPoint>, c: FilterArg) returns (result: seq<LegacyPoint>)
    ensures c.ConfigValue? ==> result == Kept(points, c.output)
    ensures !c.ConfigValue? ==> result == points
  {
    var inc: Rules := map[];
    var blk: Rules := map[];
    if c.ConfigValue? {
      inc := c.output.GetTagfilterInclude();
      blk := c.output.GetTagfilterBlock();
    }
    result := FilterByRules(points, LegacyTags, inc, blk);
    if !c.ConfigValue? {
      NoRulesKeepsAll(points, LegacyTags, inc, blk);
    }
  }

  /** The double loop copying the entries whose key equals a column name. */
  method MappedDataValues<V>(m: map<string, V>, cols: seq<string>, wrap: V -> Timescale.DataValue)
    returns (r: map<string, Timescale.DataValue>)
    ensures r == MappedData(m, cols, wrap)
  {
    r := map[];
    var rest := m.Keys;
    while rest != {}
      invariant rest <= m.Keys
      invariant r == map k | k in m && k !in rest && k in cols :: wrap(m[k])
      decreases |rest|
    {
      var key :| key in rest;
      ghost var before := r;
      var i := 0;
      while i < |cols|
        invariant 0 <= i <= |cols|
        invariant r == if key in cols[..i] then before[key := wrap(m[key])] else before
      {
        if key == cols[i] {
          r := r[key := wrap(m[key])];
        }
        assert cols[..i + 1] == cols[..i] + [cols[i]];
        i := i + 1;
      }
      assert cols[..i] == cols;
      rest := rest - {key};
    }
  }

  /** The body of the loop over a group's points. */
  method BuildLegacyRow(p: LegacyPoint, mc: MeasurementTimescale, format: string -> string) returns (row: InsertRow)
    ensures row == LegacyRow(p, mc, format)
  {
    var timestampFormatted := format(p.timestamp);
    var tags := Timescale.MergeInto(p.tags, mc.addedTags);
    var tagColumnValues := Timescale.TagColumnValues(tags, mc.tagsAsColumns);
    var tagDataValues := MappedDataValues(tags, mc.tagsAsColumns, TagAsData);
    var fieldColumnValues := Timescale.FieldColumnValues(p.fields, mc.fieldsAsColumns);
    var fieldDataValues := MappedDataValues(p.fields, mc.fieldsAsColumns, FieldAsData);
    var data := Timescale.MapsMerge([tagDataValues, fieldDataValues]);
    row := InsertRow(timestampFormatted, data, fieldColumnValues, tagColumnValues);
  }

  /** The statement text built from the columns. */
  method BuildInsertSql(table: string, allColumns: seq<string>) returns (sql: string)
    ensures sql == InsertSql(table, allColumns)
  {
    var a := Timescale.CreateBindParameterList(1, |allColumns|);
    assert a.Ok? && a.value == Placeholders(|allColumns|);
    sql := "INSERT INTO " + table + "(" + Join(allColumns, ",") + ") VALUES (" + Join(a.value, ",") + ")";
  }

  /** One configured, not ignored group. */
  method BuildLegacyGroupRows(g: LegacyGroup, cfg: OutputTimescale, mc: MeasurementTimescale, format: string -> string)
    returns (r: DBRow)
    ensures r == LegacyGroupRows(g, cfg, mc, format)
  {
    var points := LegacyFilterPoints(g.points, ConfigValue(TimescaleOutput(cfg)));
    var insertRows: seq<InsertRow> := [];
    var j := 0;
    while j < |points|
      invariant 0 <= j <= |points| && |insertRows| == j
      invariant forall l | 0 <= l < j :: insertRows[l] == LegacyRow(points[l], mc, format)
    {
      var row := BuildLegacyRow(points[j], mc, format);
      insertRows := insertRows + [row];
      j := j + 1;
    }
    var allColumns := Timescale.ArrayMerge([["time", "data"], mc.fieldsAsColumns, mc.tagsAsColumns]);
    var sql := BuildInsertSql(mc.targetTable, allColumns);
    r := DBRow(sql, insertRows, mc.targetTable);
  }

  lemma {:induction false} LegacyRowsErrorStays(groups: seq<LegacyGroup>, cfg: OutputTimescale, format: string -> string, k: nat)
    requires k <= |groups| && LegacyRowsOf(groups[..k], cfg, format).Err?
    ensures LegacyRowsOf(groups, cfg, format) == LegacyRowsOf(groups[..k], cfg, format)
    decreases |groups| - k
  {
    if k < |groups| {
      assert groups[..|groups| - 1][..k] == groups[..k];
      LegacyRowsErrorStays(groups[..|groups| - 1], cfg, format, k);
    } else {
      assert groups[..k] == groups;
    }
  }

  /** The legacy `buildDBRowsTimescale`. */
  method LegacyBuildDBRowsTimescale(groups: seq<LegacyGroup>, cfg: OutputTimescale, format: string -> string)
    returns (r: Result<seq<DBRow>>)
    ensures r == LegacyRowsOf(groups, cfg, format)
  {
    var rows: seq<DBRow> := [];
    var i := 0;
    while i < |groups|
      invariant 0 <= i <= |groups| && LegacyRowsOf(groups[..i], cfg, format) == Ok(rows)
    {
      assert groups[..i + 1][..i] == groups[..i];
      var measurement := groups[i].measurement;
      if measurement !in cfg.measurements {
        LegacyRowsErrorStays(groups, cfg, format, i + 1);
        return Err(UnknownMeasurement(measurement));
      }
      var mc := cfg.measurements[measurement];
      if !mc.ignore {
        var row := BuildLegacyGroupRows(groups[i], cfg, mc, format);
        rows := rows + [row];
      }
      i := i + 1;
    }
    assert groups[..i] == groups;
    return Ok(rows);
  }

  lemma {:induction false} LegacyInfluxErrorStays(groups: seq<LegacyGroup>, cfg: OutputInflux, k: nat)
    requires k <= |groups| && LegacyInfluxPoints(groups[..k], cfg).Err?
    ensures LegacyInfluxPoints(groups, cfg) == LegacyInfluxPoints(groups[..k], cfg)
    decreases |groups| - k
  {
    if k < |groups| {
      assert groups[..|groups| - 1][..k] == groups[..k];
      LegacyInfluxErrorStays(groups[..|groups| - 1], cfg, k);
    } else {
      assert groups[..k] == groups;
    }
  }

  /** The loop over one group's kept points. */
  method RelabelLegacy(ps: seq<LegacyPoint>, measurement: string, added: map<string, string>) returns (r: seq<LegacyPoint>)
    ensures r == seq(|ps|, j requires 0 <= j < |ps| => LegacyRelabelled(ps[j], measurement, added))
  {
    r := [];
    var j := 0;
    while j < |ps|
      invariant 0 <= j <= |ps| && |r| == j
      invariant forall l | 0 <= l < j :: r[l] == LegacyRelabelled(ps[l], measurement, added)
    {
      var tags := Timescale.MergeInto(ps[j].tags, added);
      r := r + [LegacyPoint(measurement, ps[j].fields, tags, ps[j].timestamp)];
      j := j + 1;
    }
  }

  /** The legacy `buildDBPointsInflux`. */
  method LegacyBuildDBPointsInflux(groups: seq<LegacyGroup>, cfg: OutputInflux) returns (r: Result<seq<LegacyPoint>>)
    ensures r == LegacyInfluxPoints(groups, cfg)
  {
    var writePoints: seq<LegacyPoint> := [];
    var i := 0;
    while i < |groups|
      invariant 0 <= i <= |groups| && LegacyInfluxPoints(groups[..i], cfg) == Ok(writePoints)
    {
      assert groups[..i + 1][..i] == groups[..i];
      var measurement := groups[i].measurement;
      if measurement !in cfg.measurements {
        LegacyInfluxErrorStays(groups, cfg, i + 1);
        return Err(UnknownMeasurement(measurement));
      }
      var mc := cfg.measurements[measurement];
      if !mc.ignore {
        var points := LegacyFilterPoints(groups[i].points, ConfigValue(InfluxOutput(cfg)));
        var relabelled := RelabelLegacy(points, measurement, mc.addedTags);
        writePoints := writePoints + relabelled;
      }
      i := i + 1;
    }
    assert groups[..i] == groups;
    return Ok(writePoints);
  }

  // ---------------------------------------------------------------------
  // The write handler after parsing

  /** The handler's answer. */
  datatype Response = NoContent | BadRequest(message: string) | InsertFailed(cause: Error)

  const BuildFailedMessage: string := "An error ocurred while building db rows!"

  /** Whether a TimescaleDB output ends the request, given its insert's error. */
  function TimescaleAbort(groups: seq<LegacyGroup>, out: OutputTimescale, format: string -> string, insertErr: Option<Error>): Option<Response>
  {
    match LegacyRowsOf(groups, out, format)
    case Err(_) => if out.writeStrategy == CommitStrategy then Some(BadRequest(BuildFailedMessage)) else None
    case Ok(rows) =>
      if |rows| > 0 && insertErr.Some? && out.writeStrategy == CommitStrategy then Some(InsertFailed(insertErr.value)) else None
  }

  /** Whether an InfluxDB output ends the request. */
  function InfluxAbort(groups: seq<LegacyGroup>, out: OutputInflux, insertErr: Option<Error>): Option<Response>
  {
    match LegacyInfluxPoints(groups, out)
    case Err(_) => if out.writeStrategy == CommitStrategy then Some(BadRequest(BuildFailedMessage)) else None
    case Ok(ps) =>
      if |ps| > 0 && out.writeStrategy == CommitStrategy && insertErr.Some? then Some(InsertFailed(insertErr.value)) else None
  }

  /** Every output's verdict, TimescaleDB outputs first. */
  function Aborts(groups: seq<LegacyGroup>, cfg: Configuration, format: string -> string,
                  tsInsert: nat -> Option<Error>, ixInsert: nat -> Option<Error>): seq<Option<Response>>
  {
    var ts := cfg.outputsTimescale;
    var ix := cfg.outputsInflux;
    seq(|ts|, i requires 0 <= i < |ts| => TimescaleAbort(groups, ts[i], format, tsInsert(i))) +
    seq(|ix|, j requires 0 <= j < |ix| => InfluxAbort(groups, ix[j], ixInsert(j)))
  }

  /** The first output that ends the request, if any. */
  function FirstAbort(rs: seq<Option<Response>>): Option<Response>
  {
    if |rs| == 0 then None else if rs[0].Some? then rs[0] else FirstAbort(rs[1..])
  }

  function HandlerResponse(groups: seq<LegacyGroup>, cfg: Configuration, format: string -> string,
                           tsInsert: nat -> Option<Error>, ixInsert: nat -> Option<Error>): Response
  {
    var a := FirstAbort(Aborts(groups, cfg, format, tsInsert, ixInsert));
    if a.Some? then a.value else NoContent
  }

  lemma {:induction false} FirstAbortNone(rs: seq<Option<Response>>)
    ensures FirstAbort(rs).None? <==> forall i | 0 <= i < |rs| :: rs[i].None?
    ensures FirstAbort(rs).Some? ==> exists k | 0 <= k < |rs| :: rs[k] == FirstAbort(rs) && forall i | 0 <= i < k :: rs[i].None?
    decreases |rs|
  {
    if |rs| > 0 && rs[0].None? {
      FirstAbortNone(rs[1..]);
      assert forall i | 1 <= i < |rs| :: rs[i] == rs[1..][i - 1];
      if FirstAbort(rs[1..]).Some? {
        var k :| 0 <= k < |rs[1..]| && rs[1..][k] == FirstAbort(rs[1..]) && forall i | 0 <= i < k :: rs[1..][i].None?;
        assert rs[k + 1] == FirstAbort(rs);
      }
    }
  }

  lemma {:induction false} FirstAbortAt(rs: seq<Option<Response>>, k: nat)
    requires k < |rs| && rs[k].Some? && forall i | 0 <= i < k :: rs[i].None?
    ensures FirstAbort(rs) == rs[k]
    decreases k
  {
    if k > 0 {
      FirstAbortAt(rs[1..], k - 1);
    }
  }

  /** A best-effort output never ends the request, whatever its build or
      insert does: its errors are only logged. */
  lemma BestEffortNeverAborts(groups: seq<LegacyGroup>, ts: OutputTimescale, ix: OutputInflux, format: string -> string, e: Option<Error>)
    ensures ts.writeStrategy != CommitStrategy ==> TimescaleAbort(groups, ts, format, e).None?
    ensures ix.writeStrategy != CommitStrategy ==> InfluxAbort(groups, ix, e).None?
  {
  }

  lemma TimescaleAbortAt(groups: seq<LegacyGroup>, cfg: Configuration, format: string -> string,
                         tsInsert: nat -> Option<Error>, ixInsert: nat -> Option<Error>, i: nat)
    requires i < |cfg.outputsTimescale|
    ensures Aborts(groups, cfg, format, tsInsert, ixInsert)[i] == TimescaleAbort(groups, cfg.outputsTimescale[i], format, tsInsert(i))
  {
  }

  lemma InfluxAbortAt(groups: seq<LegacyGroup>, cfg: Configuration, format: string -> string,
                      tsInsert: nat -> Option<Error>, ixInsert: nat -> Option<Error>, j: nat)
    requires j < |cfg.outputsInflux|
    ensures Aborts(groups, cfg, format, tsInsert, ixInsert)[|cfg.outputsTimescale| + j] == InfluxAbort(groups, cfg.outputsInflux[j], ixInsert(j))
  {
  }

  /** No output's verdict is a success. */
  lemma AbortIsNotSuccess(groups: seq<LegacyGroup>, cfg: Configuration, format: string -> string,
                          tsInsert: nat -> Option<Error>, ixInsert: nat -> Option<Error>, k: nat)
    requires k < |Aborts(groups, cfg, format, tsInsert, ixInsert)|
    ensures Aborts(groups, cfg, format, tsInsert, ixInsert)[k] != Some(NoContent)
  {
    var nt := |cfg.outputsTimescale|;
    if k < nt {
      TimescaleAbortAt(groups, cfg, format, tsInsert, ixInsert, k);
    } else {
      InfluxAbortAt(groups, cfg, format, tsInsert, ixInsert, k - nt);
    }
  }

  /** The request succeeds iff no `commit` output fails to build, or has rows
      and a failing insert. */
  lemma NoContentIff(groups: seq<LegacyGroup>, cfg: Configuration, format: string -> string,
                     tsInsert: nat -> Option<Error>, ixInsert: nat -> Option<Error>)
    ensures HandlerResponse(groups, cfg, format, tsInsert, ixInsert) == NoContent <==>
      (forall i | 0 <= i < |cfg.outputsTimescale| :: TimescaleAbort(groups, cfg.outputsTimescale[i], format, tsInsert(i)).None?) &&
      (forall j | 0 <= j < |cfg.outputsInflux| :: InfluxAbort(groups, cfg.outputsInflux[j], ixInsert(j)).None?)
  {
    var rs := Aborts(groups, cfg, format, tsInsert, ixInsert);
    var nt := |cfg.outputsTimescale|;
    FirstAbortNone(rs);
    forall i | 0 <= i < nt
      ensures rs[i] == TimescaleAbort(groups, cfg.outputsTimescale[i], format, tsInsert(i))
    {
      TimescaleAbortAt(groups, cfg, format, tsInsert, ixInsert, i);
    }
    forall j | 0 <= j < |cfg.outputsInflux|
      ensures rs[nt + j] == InfluxAbort(groups, cfg.outputsInflux[j], ixInsert(j))
    {
      InfluxAbortAt(groups, cfg, format, tsInsert, ixInsert, j);
    }
    if FirstAbort(rs).Some? {
      var k :| 0 <= k < |rs| && rs[k] == FirstAbort(rs) && forall i | 0 <= i < k :: rs[i].None?;
      AbortIsNotSuccess(groups, cfg, format, tsInsert, ixInsert, k);
      assert HandlerResponse(groups, cfg, format, tsInsert, ixInsert) != NoContent;
      if k < nt {
        assert !TimescaleAbort(groups, cfg.outputsTimescale[k], format, tsInsert(k)).None?;
      } else {
        assert !InfluxAbort(groups, cfg.outputsInflux[k - nt], ixInsert(k - nt)).None?;
      }
    } else {
      assert forall i | 0 <= i < |rs| :: rs[i].None?;
    }
  }

  /** The handler after a successful parse: group, then the TimescaleDB
      outputs, then the InfluxDB outputs, answering 400 at the first `commit`
      output that fails. */
  method HandleParsed(points: seq<LegacyPoint>, cfg: Configuration, format: string -> string,
                      tsInsert: nat -> Option<Error>, ixInsert: nat -> Option<Error>)
    returns (groups: seq<LegacyGroup>, resp: Response)
    ensures IsGrouping(groups, points, LegacyName)
    ensures resp == HandlerResponse(groups, cfg, format, tsInsert, ixInsert)
  {
    groups := MeasurementSplitter(points);
    ghost var rs := Aborts(groups, cfg, format, tsInsert, ixInsert);
    ghost var nt := |cfg.outputsTimescale|;
    var i := 0;
    while i < |cfg.outputsTimescale|
      invariant 0 <= i <= nt && forall l | 0 <= l < i :: rs[l].None?
    {
      var out := cfg.outputsTimescale[i];
      var a := TimescaleTurnNg(groups, out, format, tsInsert(i));
      TimescaleAbortAt(groups, cfg, format, tsInsert, ixInsert, i);
      if a.Some? {
        FirstAbortAt(rs, i);
        return groups, a.value;
      }
      i := i + 1;
    }
    var j := 0;
    while j < |cfg.outputsInflux|
      invariant 0 <= j <= |cfg.outputsInflux| && forall l | 0 <= l < nt + j :: rs[l].None?
    {
      var out := cfg.outputsInflux[j];
      var a := InfluxTurnNg(groups, out, ixInsert(j));
      InfluxAbortAt(groups, cfg, format, tsInsert, ixInsert, j);
      if a.Some? {
        FirstAbortAt(rs, nt + j);
        return groups, a.value;
      }
      j := j + 1;
    }
    FirstAbortNone(rs);
    resp := NoContent;
  }

  /** One TimescaleDB output of the handler. */
  method TimescaleTurnNg(groups: seq<LegacyGroup>, out: OutputTimescale, format: string -> string, insertErr: Option<Error>)
    returns (a: Option<Response>)
    ensures a == TimescaleAbort(groups, out, format, insertErr)
  {
    var rows := LegacyBuildDBRowsTimescale(groups, out, format);
    if rows.Err? {
      if out.writeStrategy == CommitStrategy {
        return Some(BadRequest(BuildFailedMessage));
      }
      return None;
    }
    if |rows.value| > 0 && insertErr.Some? && out.writeStrategy == CommitStrategy {
      return Some(InsertFailed(insertErr.value));
    }
    return None;
  }

  /** One InfluxDB output of the handler. */
  method InfluxTurnNg(groups: seq<LegacyGroup>, out: OutputInflux, insertErr: Option<Error>)
    returns (a: Option<Response>)
    ensures a == InfluxAbort(groups, out, insertErr)
  {
    var points := LegacyBuildDBPointsInflux(groups, out);
    if points.Err? {
      if out.writeStrategy == CommitStrategy {
        return Some(BadRequest(BuildFailedMessage));
      }
      return None;
    }
    if |points.value| > 0 && out.writeStrategy == CommitStrategy && insertErr.Some? {
      return Some(InsertFailed(insertErr.value));
    }
    return None;
  }

  const ParseFailedMessage: string := "An error ocurred while parsing the provieded file!"

  /** The write handler from the parse result on: a parse error answers 400
      before any output is touched. */
  method HandleWrite(parsed: Result<seq<LegacyPoint>>, cfg: Configuration, format: string -> string,
                     tsInsert: nat -> Option<Error>, ixInsert: nat -> Option<Error>)
    returns (groups: seq<LegacyGroup>, resp: Response)
    ensures parsed.Err? ==> groups == [] && resp == BadRequest(ParseFailedMessage)
    ensures parsed.Ok? ==> IsGrouping(groups, parsed.value, LegacyName)
    ensures parsed.Ok? ==> resp == HandlerResponse(groups, cfg, format, tsInsert, ixInsert)
  {
    if parsed.Err? {
      return [], BadRequest(ParseFailedMessage);
    }
    groups, resp := HandleParsed(parsed.value, cfg, format, tsInsert, ixInsert);
  }
}
