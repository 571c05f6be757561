/** pkg/timescale/write.go: building the rows for a TimescaleDB output and
    inserting them in one transaction.  Every row is the point's timestamp,
    its `data` object, then one cell per field column and one per tag
    column; `data` holds the tags and fields that have no column of their
    own, a field winning over a tag of the same name.

    The database is not modelled: the outcome of each driver call is an
    input, and the insert returns the calls it made (`Rollback` being the
    deferred one), so that its control flow can be stated.  `data` is the
    merged map itself; its JSON encoding is not modelled. */
module Timescale {
  import opened Errors
  import opened Text
  import opened Points
  import opened Config
  import opened Filter

  /** A value held in `data`. */
  datatype DataValue = TagValue(s: string) | FieldData(v: FieldValue)

  /** One `interface{}` cell of an insert row. */
  datatype Cell =
    | Nil
    | Time(nanos: int)
    | Data(data: map<string, DataValue>)
    | TagCell(s: string)
    | FieldCell(v: FieldValue)

  /** TimescaleRows: the column list, the rows and the target table of one group. */
  datatype TimescaleRows = TimescaleRows(insertColumns: seq<string>, insertRows: seq<seq<Cell>>, targetTable: string)

  // ---------------------------------------------------------------------
  // Reference definitions

  /** The concatenation of the arguments of `ArrayMerge`. */
  function Concat<T>(ss: seq<seq<T>>): seq<T>
  {
    if |ss| == 0 then [] else Concat(ss[..|ss| - 1]) + ss[|ss| - 1]
  }

  function TotalLength<T>(ss: seq<seq<T>>): nat
  {
    if |ss| == 0 then 0 else TotalLength(ss[..|ss| - 1]) + |ss[|ss| - 1]|
  }

  /** The map `MapsMerge` builds: every argument laid over the ones before it. */
  function Merged<V>(ms: seq<map<string, V>>): map<string, V>
  {
    if |ms| == 0 then map[] else Merged(ms[..|ms| - 1]) + ms[|ms| - 1]
  }

  /** One more map laid over the merge. */
  lemma MergedSnoc<V>(ms: seq<map<string, V>>, m: map<string, V>)
    ensures Merged(ms + [m]) == Merged(ms) + m
  {
    assert (ms + [m])[..|ms|] == ms;
  }

  /** Laying maps over each other is associative. */
  lemma MergeAssoc<V>(a: map<string, V>, b: map<string, V>, c: map<string, V>)
    ensures (a + b) + c == a + (b + c)
  {
  }

  /** One cell per tag column: the tag's value, or nil when the point has no such tag. */
  function TagColumns(tags: map<string, string>, cols: seq<string>): seq<Cell>
  {
    seq(|cols|, i requires 0 <= i < |cols| => if cols[i] in tags then TagCell(tags[cols[i]]) else Nil)
  }

  /** One cell per field column: the field's value, or nil. */
  function FieldColumns(fields: map<string, FieldValue>, cols: seq<string>): seq<Cell>
  {
    seq(|cols|, i requires 0 <= i < |cols| => if cols[i] in fields then FieldCell(fields[cols[i]]) else Nil)
  }

  /** The tags that have no column. */
  function TagData(tags: map<string, string>, cols: seq<string>): map<string, DataValue>
  {
    map k | k in tags && k !in cols :: TagValue(tags[k])
  }

  /** The fields that have no column. */
  function FieldDataOf(fields: map<string, FieldValue>, cols: seq<string>): map<string, DataValue>
  {
    map k | k in fields && k !in cols :: FieldData(fields[k])
  }

  /** The `data` object of a point. */
  function RowData(p: Point, mc: MeasurementTimescale): map<string, DataValue>
  {
    Merged([TagData(p.tags, mc.tagsAsColumns), FieldDataOf(p.fields, mc.fieldsAsColumns)])
  }

  /** The insert row of a point. */
  function RowOf(p: Point, mc: MeasurementTimescale): seq<Cell>
  {
    [Time(p.timestamp), Data(RowData(p, mc))] +
      FieldColumns(p.fields, mc.fieldsAsColumns) + TagColumns(p.tags, mc.tagsAsColumns)
  }

  /** The columns of a measurement's table. */
  function ColumnsOf(mc: MeasurementTimescale): seq<string>
  {
    Concat([["time", "data"], mc.fieldsAsColumns, mc.tagsAsColumns])
  }

  function GroupRows(g: PointGroup, mc: MeasurementTimescale): TimescaleRows
  {
    TimescaleRows(ColumnsOf(mc), seq(|g.points|, j requires 0 <= j < |g.points| => RowOf(g.points[j], mc)), mc.targetTable)
  }

  /** The whole build: one TimescaleRows per group, or the first unknown measurement. */
  function RowsOf(groups: seq<PointGroup>, cfg: OutputTimescale): Result<seq<TimescaleRows>>
  {
    if |groups| == 0 then Ok([])
    else
      match RowsOf(groups[..|groups| - 1], cfg)
      case Err(e) => Err(e)
      case Ok(acc) =>
        var m := groups[|groups| - 1].measurement;
        if m !in cfg.measurements then Err(UnknownMeasurement(m))
        else Ok(acc + [GroupRows(groups[|groups| - 1], cfg.measurements[m])])
  }

  // ---------------------------------------------------------------------
  // Properties

  lemma {:induction false} ConcatLength<T>(ss: seq<seq<T>>)
    ensures |Concat(ss)| == TotalLength(ss)
    decreases |ss|
  {
    if |ss| > 0 {
      ConcatLength(ss[..|ss| - 1]);
    }
  }

  /** A key of the merge comes from some argument, and takes the value of
      the last argument that has it. */
  lemma {:induction false} MergedLaterWins<V>(ms: seq<map<string, V>>, k: string)
    ensures k in Merged(ms) <==> exists j | 0 <= j < |ms| :: k in ms[j]
    ensures forall j | 0 <= j < |ms| && k in ms[j] && (forall l | j < l < |ms| :: k !in ms[l]) ::
      Merged(ms)[k] == ms[j][k]
    decreases |ms|
  {
    if |ms| > 0 {
      var init := ms[..|ms| - 1];
      MergedLaterWins(init, k);
      assert forall j | 0 <= j < |init| :: init[j] == ms[j];
    }
  }

  /** The columns are `time`, `data`, the field columns, then the tag columns. */
  lemma ColumnsLayout(mc: MeasurementTimescale)
    ensures ColumnsOf(mc) == ["time", "data"] + mc.fieldsAsColumns + mc.tagsAsColumns
    ensures |ColumnsOf(mc)| == 2 + |mc.fieldsAsColumns| + |mc.tagsAsColumns|
  {
    var ss := [["time", "data"], mc.fieldsAsColumns, mc.tagsAsColumns];
    assert ss[..2][..1] == [["time", "data"]];
    assert Concat(ss[..2][..1]) == ["time", "data"];
    assert Concat(ss[..2]) == ["time", "data"] + mc.fieldsAsColumns;
  }

  /** A row has a cell per column, in column order: the timestamp, `data`,
      then each column's value or nil. */
  lemma RowMatchesColumns(p: Point, mc: MeasurementTimescale)
    ensures |RowOf(p, mc)| == |ColumnsOf(mc)|
    ensures RowOf(p, mc)[0] == Time(p.timestamp)
    ensures forall i | 0 <= i < |mc.fieldsAsColumns| ::
      RowOf(p, mc)[2 + i] ==
        if mc.fieldsAsColumns[i] in p.fields then FieldCell(p.fields[mc.fieldsAsColumns[i]]) else Nil
    ensures forall i | 0 <= i < |mc.tagsAsColumns| ::
      RowOf(p, mc)[2 + |mc.fieldsAsColumns| + i] ==
        if mc.tagsAsColumns[i] in p.tags then TagCell(p.tags[mc.tagsAsColumns[i]]) else Nil
  {
    ColumnsLayout(mc);
    RowFieldCells(p, mc);
    RowTagCells(p, mc);
  }

  lemma RowFieldCells(p: Point, mc: MeasurementTimescale)
    ensures |RowOf(p, mc)| == 2 + |mc.fieldsAsColumns| + |mc.tagsAsColumns|
    ensures RowOf(p, mc)[0] == Time(p.timestamp)
    ensures forall i | 0 <= i < |mc.fieldsAsColumns| ::
      RowOf(p, mc)[2 + i] ==
        if mc.fieldsAsColumns[i] in p.fields then FieldCell(p.fields[mc.fieldsAsColumns[i]]) else Nil
  {
    ThreeParts([Time(p.timestamp), Data(RowData(p, mc))],
      FieldColumns(p.fields, mc.fieldsAsColumns), TagColumns(p.tags, mc.tagsAsColumns));
  }

  lemma RowTagCells(p: Point, mc: MeasurementTimescale)
    ensures forall i | 0 <= i < |mc.tagsAsColumns| ::
      RowOf(p, mc)[2 + |mc.fieldsAsColumns| + i] ==
        if mc.tagsAsColumns[i] in p.tags then TagCell(p.tags[mc.tagsAsColumns[i]]) else Nil
  {
    ThreeParts([Time(p.timestamp), Data(RowData(p, mc))],
      FieldColumns(p.fields, mc.fieldsAsColumns), TagColumns(p.tags, mc.tagsAsColumns));
  }

  lemma ThreeParts<T>(a: seq<T>, b: seq<T>, c: seq<T>)
    ensures |a + b + c| == |a| + |b| + |c|
    ensures forall i | 0 <= i < |a| :: (a + b + c)[i] == a[i]
    ensures forall i | 0 <= i < |b| :: (a + b + c)[|a| + i] == b[i]
    ensures forall i | 0 <= i < |c| :: (a + b + c)[|a| + |b| + i] == c[i]
  {
  }

  /** `data` holds the unmapped fields, and the unmapped tags whose name is
      not also an unmapped field: a field overrides a tag of the same name. */
  lemma RowDataContents(p: Point, mc: MeasurementTimescale, k: string)
    ensures k in RowData(p, mc) <==>
      (k in p.tags && k !in mc.tagsAsColumns) || (k in p.fields && k !in mc.fieldsAsColumns)
    ensures k in p.fields && k !in mc.fieldsAsColumns ==> RowData(p, mc)[k] == FieldData(p.fields[k])
    ensures k in p.tags && k !in mc.tagsAsColumns && !(k in p.fields && k !in mc.fieldsAsColumns) ==>
      RowData(p, mc)[k] == TagValue(p.tags[k])
  {
    var ms := [TagData(p.tags, mc.tagsAsColumns), FieldDataOf(p.fields, mc.fieldsAsColumns)];
    assert ms[..1][..0] == [];
    assert Merged(ms[..1]) == ms[0];
  }

  /** A successful build has one TimescaleRows per group, in order, each with
      the group's rows in point order, every row as wide as the column list. */
  lemma {:induction false} RowsShape(groups: seq<PointGroup>, cfg: OutputTimescale)
    requires RowsOf(groups, cfg).Ok?
    ensures var r := RowsOf(groups, cfg).value;
      |r| == |groups| &&
      forall i | 0 <= i < |groups| ::
        groups[i].measurement in cfg.measurements &&
        r[i] == GroupRows(groups[i], cfg.measurements[groups[i].measurement]) &&
        |r[i].insertRows| == |groups[i].points| &&
        forall j | 0 <= j < |r[i].insertRows| :: |r[i].insertRows[j]| == |r[i].insertColumns|
    decreases |groups|
  {
    if |groups| > 0 {
      var init := groups[..|groups| - 1];
      RowsShape(init, cfg);
      var last := groups[|groups| - 1];
      var mc := cfg.measurements[last.measurement];
      forall j | 0 <= j < |last.points|
        ensures |RowOf(last.points[j], mc)| == |ColumnsOf(mc)|
      {
        RowMatchesColumns(last.points[j], mc);
      }
      assert forall i | 0 <= i < |init| :: groups[i] == init[i];
    }
  }

  /** The build fails exactly when some group's measurement is not configured;
      there is no ignore check here. */
  lemma {:induction false} RowsFail(groups: seq<PointGroup>, cfg: OutputTimescale)
    ensures RowsOf(groups, cfg).Err? <==> exists i | 0 <= i < |groups| :: groups[i].measurement !in cfg.measurements
    decreases |groups|
  {
    if |groups| > 0 {
      var init := groups[..|groups| - 1];
      RowsFail(init, cfg);
      assert forall i | 0 <= i < |init| :: groups[i] == init[i];
    }
  }

  // ---------------------------------------------------------------------
  // The loops of the source

  /** `ArrayMerge`: the total length first, then the concatenation. */
  method ArrayMerge<T>(ss: seq<seq<T>>) returns (s: seq<T>)
    ensures s == Concat(ss) && |s| == TotalLength(ss)
  {
    var n := 0;
    var i := 0;
    while i < |ss|
      invariant 0 <= i <= |ss| && n == TotalLength(ss[..i])
    {
      assert ss[..i + 1][..i] == ss[..i];
      n := n + |ss[i]|;
      i := i + 1;
    }
    s := [];
    i := 0;
    while i < |ss|
      invariant 0 <= i <= |ss| && s == Concat(ss[..i])
    {
      assert ss[..i + 1][..i] == ss[..i];
      s := s + ss[i];
      i := i + 1;
    }
    assert ss[..i] == ss;
    ConcatLength(ss);
  }

  /** The entries of `item` outside `rest`. */
  function Written<V>(item: map<string, V>, rest: set<string>): map<string, V>
  {
    map k | k in item && k !in rest :: item[k]
  }

  /** Writing one more entry of `item` extends what has been written. */
  lemma WrittenStep<V>(s: map<string, V>, item: map<string, V>, rest: set<string>, k: string)
    requires k in rest && rest <= item.Keys
    ensures (s + Written(item, rest))[k := item[k]] == s + Written(item, rest - {k})
  {
  }

  /** The inner loop of `MapsMerge`: every entry of `item` written into `s`. */
  method MergeInto<V>(s: map<string, V>, item: map<string, V>) returns (r: map<string, V>)
    ensures r == s + item
  {
    r := s;
    var rest := item.Keys;
    assert Written(item, rest) == map[];
    while rest != {}
      invariant rest <= item.Keys
      invariant r == s + Written(item, rest)
      decreases |rest|
    {
      var k :| k in rest;
      WrittenStep(s, item, rest, k);
      r := r[k := item[k]];
      rest := rest - {k};
    }
    assert Written(item, rest) == item;
  }

  /** `MapsMerge`: the arguments in order, a later one winning. */
  method MapsMerge<V>(ms: seq<map<string, V>>) returns (s: map<string, V>)
    ensures s == Merged(ms)
  {
    s := map[];
    var i := 0;
    while i < |ms|
      invariant 0 <= i <= |ms| && s == Merged(ms[..i])
    {
      assert ms[..i + 1][..i] == ms[..i];
      s := MergeInto(s, ms[i]);
      i := i + 1;
    }
    assert ms[..i] == ms;
  }

  /** `CreateBindParameterList(min, max)`: `"$min"` to `"$max"`.  A negative
      length makes `make` panic. */
  method CreateBindParameterList(min: int, max: int) returns (r: Result<seq<string>>)
    ensures r.Err? <==> max - min + 1 < 0
    ensures r.Ok? ==> |r.value| == max - min + 1
    ensures r.Ok? ==> forall i | 0 <= i < |r.value| :: r.value[i] == "$" + IntToString(min + i)
  {
    if max - min + 1 < 0 {
      return Err(Panic("makeslice: len out of range"));
    }
    var a: seq<string> := [];
    var i := 0;
    while i < max - min + 1
      invariant 0 <= i <= max - min + 1 && |a| == i
      invariant forall j | 0 <= j < i :: a[j] == "$" + IntToString(min + j)
    {
      a := a + ["$" + IntToString(min + i)];
      i := i + 1;
    }
    return Ok(a);
  }

  /** The loop building `tagColumnValues`. */
  method TagColumnValues(tags: map<string, string>, cols: seq<string>) returns (r: seq<Cell>)
    ensures r == TagColumns(tags, cols)
  {
    r := [];
    var i := 0;
    while i < |cols|
      invariant 0 <= i <= |cols| && r == TagColumns(tags, cols[..i])
    {
      if cols[i] in tags {
        r := r + [TagCell(tags[cols[i]])];
      } else {
        r := r + [Nil];
      }
      i := i + 1;
    }
    assert cols[..i] == cols;
  }

  /** The loop building `fieldColumnValues`. */
  method FieldColumnValues(fields: map<string, FieldValue>, cols: seq<string>) returns (r: seq<Cell>)
    ensures r == FieldColumns(fields, cols)
  {
    r := [];
    var i := 0;
    while i < |cols|
      invariant 0 <= i <= |cols| && r == FieldColumns(fields, cols[..i])
    {
      if cols[i] in fields {
        r := r + [FieldCell(fields[cols[i]])];
      } else {
        r := r + [Nil];
      }
      i := i + 1;
    }
    assert cols[..i] == cols;
  }

  /** The loop building `tagDataValues`, in map order. */
  method TagDataValues(tags: map<string, string>, cols: seq<string>) returns (r: map<string, DataValue>)
    ensures r == TagData(tags, cols)
  {
    r := map[];
    var rest := tags.Keys;
    while rest != {}
      invariant rest <= tags.Keys
      invariant r == map k | k in tags && k !in rest && k !in cols :: TagValue(tags[k])
      decreases |rest|
    {
      var k :| k in rest;
      var mapped := Contains(cols, k);
      if !mapped {
        r := r[k := TagValue(tags[k])];
      }
      rest := rest - {k};
    }
  }

  /** The loop building `fieldDataValues`, in map order. */
  method FieldDataValues(fields: map<string, FieldValue>, cols: seq<string>) returns (r: map<string, DataValue>)
    ensures r == FieldDataOf(fields, cols)
  {
    r := map[];
    var rest := fields.Keys;
    while rest != {}
      invariant rest <= fields.Keys
      invariant r == map k | k in fields && k !in rest && k !in cols :: FieldData(fields[k])
      decreases |rest|
    {
      var k :| k in rest;
      var mapped := Contains(cols, k);
      if !mapped {
        r := r[k := FieldData(fields[k])];
      }
      rest := rest - {k};
    }
  }

  /** The body of the loop over a group's points. */
  method BuildRow(p: Point, mc: MeasurementTimescale) returns (row: seq<Cell>)
    ensures row == RowOf(p, mc)
  {
    var tagColumnValues := TagColumnValues(p.tags, mc.tagsAsColumns);
    var tagDataValues := TagDataValues(p.tags, mc.tagsAsColumns);
    var fieldColumnValues := FieldColumnValues(p.fields, mc.fieldsAsColumns);
    var fieldDataValues := FieldDataValues(p.fields, mc.fieldsAsColumns);
    var data := MapsMerge([tagDataValues, fieldDataValues]);
    row := [Time(p.timestamp), Data(data)];
    row := row + fieldColumnValues;
    row := row + tagColumnValues;
  }

  /** The rows of one group. */
  method BuildGroupRows(g: PointGroup, mc: MeasurementTimescale) returns (r: TimescaleRows)
    ensures r == GroupRows(g, mc)
  {
    var insertRows: seq<seq<Cell>> := [];
    var j := 0;
    while j < |g.points|
      invariant 0 <= j <= |g.points| && |insertRows| == j
      invariant forall l | 0 <= l < j :: insertRows[l] == RowOf(g.points[l], mc)
    {
      var row := BuildRow(g.points[j], mc);
      insertRows := insertRows + [row];
      j := j + 1;
    }
    var allColumns := ArrayMerge([["time", "data"], mc.fieldsAsColumns, mc.tagsAsColumns]);
    r := TimescaleRows(allColumns, insertRows, mc.targetTable);
  }

  /** `buildDBRowsTimescale`. */
  method BuildDBRowsTimescale(groups: seq<PointGroup>, cfg: OutputTimescale) returns (r: Result<seq<TimescaleRows>>)
    ensures r == RowsOf(groups, cfg)
  {
    var rows: seq<TimescaleRows> := [];
    var i := 0;
    while i < |groups|
      invariant 0 <= i <= |groups| && RowsOf(groups[..i], cfg) == Ok(rows)
    {
      assert groups[..i + 1][..i] == groups[..i];
      var m := groups[i].measurement;
      if m !in cfg.measurements {
        RowsErrorStays(groups, cfg, i + 1);
        return Err(UnknownMeasurement(m));
      }
      var g := BuildGroupRows(groups[i], cfg.measurements[m]);
      rows := rows + [g];
      i := i + 1;
    }
    assert groups[..i] == groups;
    return Ok(rows);
  }

  lemma {:induction false} RowsErrorStays(groups: seq<PointGroup>, cfg: OutputTimescale, k: nat)
    requires k <= |groups| && RowsOf(groups[..k], cfg).Err?
    ensures RowsOf(groups, cfg) == RowsOf(groups[..k], cfg)
    decreases |groups| - k
  {
    if k < |groups| {
      assert groups[..|groups| - 1][..k] == groups[..k];
      RowsErrorStays(groups[..|groups| - 1], cfg, k);
    } else {
      assert groups[..k] == groups;
    }
  }

  // ---------------------------------------------------------------------
  // The insert, against an abstract connection pool and transaction

  /** What `CopyFrom` reports for one TimescaleRows. */
  datatype CopyOutcome = Copied(count: int) | CopyFailed

  /** The outcomes the driver gives: of `Acquire`, of `Begin`, of the i-th
      `CopyFrom` and of `Commit`. */
  datatype TxOutcomes = TxOutcomes(acquireOk: bool, beginOk: bool, copy: nat -> CopyOutcome, commitOk: bool)

  /** The driver calls, in order. */
  datatype TxCall = Acquire | Begin | CopyFrom(table: string) | Commit | Release | Rollback

  /** The copy loop: the calls made and the error that ended it, if any. */
  function CopyCalls(rowsArray: seq<TimescaleRows>, copy: nat -> CopyOutcome): (seq<TxCall>, Option<Error>)
  {
    if |rowsArray| == 0 then ([], None)
    else
      var (calls, err) := CopyCalls(rowsArray[..|rowsArray| - 1], copy);
      if err.Some? then (calls, err)
      else
        var rows := rowsArray[|rowsArray| - 1];
        var c := calls + [CopyFrom(rows.targetTable)];
        match copy(|rowsArray| - 1)
        case CopyFailed => (c, Some(SinkFailure("CopyFrom")))
        case Copied(n) =>
          if n != |rows.insertRows| then (c, Some(CopyCountMismatch(|rows.insertRows|, n)))
          else (c, None)
  }

  /** `insertRowsTimescale`: the calls made and the error returned. */
  function Inserted(rowsArray: seq<TimescaleRows>, tx: TxOutcomes): (seq<TxCall>, Option<Error>)
  {
    if !tx.acquireOk then ([Acquire], Some(SinkFailure("Acquire")))
    else if !tx.beginOk then ([Acquire, Begin], Some(SinkFailure("Begin")))
    else
      var (calls, err) := CopyCalls(rowsArray, tx.copy);
      if err.Some? then ([Acquire, Begin] + calls + [Rollback], err)
      else if !tx.commitOk then ([Acquire, Begin] + calls + [Commit, Rollback], Some(SinkFailure("Commit")))
      else ([Acquire, Begin] + calls + [Commit, Release, Rollback], None)
  }

  /** Every copy reported the full row count of its group. */
  predicate AllCopied(rowsArray: seq<TimescaleRows>, copy: nat -> CopyOutcome)
  {
    forall i | 0 <= i < |rowsArray| :: copy(i) == Copied(|rowsArray[i].insertRows|)
  }

  /** The copy loop stops at the first failed or short copy; before that,
      every group was copied. */
  lemma {:induction false} CopyCallsStop(rowsArray: seq<TimescaleRows>, copy: nat -> CopyOutcome)
    ensures var (calls, err) := CopyCalls(rowsArray, copy);
      (err.None? <==> AllCopied(rowsArray, copy)) &&
      (err.None? ==> calls == seq(|rowsArray|, i requires 0 <= i < |rowsArray| => CopyFrom(rowsArray[i].targetTable))) &&
      Commit !in calls && Release !in calls && Rollback !in calls
    decreases |rowsArray|
  {
    if |rowsArray| > 0 {
      var n := |rowsArray| - 1;
      CopyCallsStop(rowsArray[..n], copy);
      assert forall i | 0 <= i < n :: rowsArray[..n][i] == rowsArray[i];
    }
  }

  /** All groups are committed together, or none: the commit happens only
      when every copy reported its full row count, and every failure after
      `Begin` is followed by the deferred rollback.  The connection is
      released only on success. */
  lemma InsertedAllOrNothing(rowsArray: seq<TimescaleRows>, tx: TxOutcomes)
    ensures var (calls, err) := Inserted(rowsArray, tx);
      (err.None? <==> (tx.acquireOk && tx.beginOk && tx.commitOk && AllCopied(rowsArray, tx.copy))) &&
      (Commit in calls <==> (tx.acquireOk && tx.beginOk && AllCopied(rowsArray, tx.copy))) &&
      (Release in calls <==> err.None?) &&
      (tx.acquireOk && tx.beginOk ==> calls[|calls| - 1] == Rollback)
  {
    CopyCallsStop(rowsArray, tx.copy);
    var (calls, err) := CopyCalls(rowsArray, tx.copy);
    if tx.acquireOk && tx.beginOk {
      if err.Some? {
        assert Inserted(rowsArray, tx).0 == [Acquire, Begin] + calls + [Rollback];
        assert Commit !in [Acquire, Begin] + calls + [Rollback];
        assert Release !in [Acquire, Begin] + calls + [Rollback];
      } else if !tx.commitOk {
        assert Inserted(rowsArray, tx).0 == [Acquire, Begin] + calls + [Commit, Rollback];
        assert Release !in [Acquire, Begin] + calls + [Commit, Rollback];
      } else {
        assert Inserted(rowsArray, tx).0 == [Acquire, Begin] + calls + [Commit, Release, Rollback];
      }
    }
  }

  lemma {:induction false} CopyErrorStays(rowsArray: seq<TimescaleRows>, copy: nat -> CopyOutcome, k: nat)
    requires k <= |rowsArray| && CopyCalls(rowsArray[..k], copy).1.Some?
    ensures CopyCalls(rowsArray, copy) == CopyCalls(rowsArray[..k], copy)
    decreases |rowsArray| - k
  {
    if k < |rowsArray| {
      var n := |rowsArray| - 1;
      assert rowsArray[..n][..k] == rowsArray[..k];
      CopyErrorStays(rowsArray[..n], copy, k);
    } else {
      assert rowsArray[..k] == rowsArray;
    }
  }

  /** `insertRowsTimescale`. */
  method InsertRowsTimescale(rowsArray: seq<TimescaleRows>, tx: TxOutcomes) returns (calls: seq<TxCall>, err: Option<Error>)
    ensures (calls, err) == Inserted(rowsArray, tx)
  {
    calls := [Acquire];
    if !tx.acquireOk {
      return calls, Some(SinkFailure("Acquire"));
    }
    calls := calls + [Begin];
    if !tx.beginOk {
      assert calls == [Acquire, Begin];
      return calls, Some(SinkFailure("Begin"));
    }
    var i := 0;
    while i < |rowsArray|
      invariant 0 <= i <= |rowsArray|
      invariant CopyCalls(rowsArray[..i], tx.copy).1 == None
      invariant calls == [Acquire, Begin] + CopyCalls(rowsArray[..i], tx.copy).0
    {
      assert rowsArray[..i + 1][..i] == rowsArray[..i];
      var rows := rowsArray[i];
      ghost var prev := CopyCalls(rowsArray[..i], tx.copy).0;
      assert rowsArray[..i + 1][i] == rows;
      calls := calls + [CopyFrom(rows.targetTable)];
      match tx.copy(i) {
        case CopyFailed =>
          assert CopyCalls(rowsArray[..i + 1], tx.copy) == (prev + [CopyFrom(rows.targetTable)], Some(SinkFailure("CopyFrom")));
          CopyErrorStays(rowsArray, tx.copy, i + 1);
          assert calls + [Rollback] == [Acquire, Begin] + (prev + [CopyFrom(rows.targetTable)]) + [Rollback];
          return calls + [Rollback], Some(SinkFailure("CopyFrom"));
        case Copied(n) =>
          if n != |rows.insertRows| {
            assert CopyCalls(rowsArray[..i + 1], tx.copy) == (prev + [CopyFrom(rows.targetTable)], Some(CopyCountMismatch(|rows.insertRows|, n)));
            CopyErrorStays(rowsArray, tx.copy, i + 1);
            assert calls + [Rollback] == [Acquire, Begin] + (prev + [CopyFrom(rows.targetTable)]) + [Rollback];
            return calls + [Rollback], Some(CopyCountMismatch(|rows.insertRows|, n));
          }
      }
      i := i + 1;
    }
    assert rowsArray[..i] == rowsArray;
    ghost var copied := CopyCalls(rowsArray, tx.copy);
    assert copied.1 == None && calls == [Acquire, Begin] + copied.0;
    calls := calls + [Commit];
    if !tx.commitOk {
      assert Inserted(rowsArray, tx) == ([Acquire, Begin] + copied.0 + [Commit, Rollback], Some(SinkFailure("Commit")));
      assert calls + [Rollback] == [Acquire, Begin] + copied.0 + [Commit, Rollback];
      return calls + [Rollback], Some(SinkFailure("Commit"));
    }
    calls := calls + [Release];
    assert Inserted(rowsArray, tx) == ([Acquire, Begin] + copied.0 + [Commit, Release, Rollback], None);
    assert calls + [Rollback] == [Acquire, Begin] + copied.0 + [Commit, Release, Rollback];
    return calls + [Rollback], None;
  }

  /** The error `Write` returns. */
  function WriteError(groups: seq<PointGroup>, cfg: OutputTimescale, tx: TxOutcomes): Option<Error>
  {
    match RowsOf(groups, cfg)
    case Err(e) => Some(Wrapped("An error ocurred while building db rows", e))
    case Ok(rows) =>
      var e := Inserted(rows, tx).1;
      if |rows| > 0 && e.Some? then Some(Wrapped("An error ocurred while inserting rows into timescaleDB", e.value)) else None
  }

  /** `Write` fails exactly when the build fails (some measurement is
      unknown), or when there are groups and the transaction does not go
      through. */
  lemma WriteErrorCases(groups: seq<PointGroup>, cfg: OutputTimescale, tx: TxOutcomes)
    ensures WriteError(groups, cfg, tx).None? <==>
      RowsOf(groups, cfg).Ok? &&
      (|groups| > 0 ==> tx.acquireOk && tx.beginOk && tx.commitOk && AllCopied(RowsOf(groups, cfg).value, tx.copy))
  {
    RowsFail(groups, cfg);
    if RowsOf(groups, cfg).Ok? {
      RowsShape(groups, cfg);
      InsertedAllOrNothing(RowsOf(groups, cfg).value, tx);
    }
  }

  /** `Write` (the enrichment sets it is handed are not used): build, then
      insert when there is at least one group of rows. */
  method Write(groups: seq<PointGroup>, cfg: OutputTimescale, sets: seq<EnrichmentSet>, tx: TxOutcomes) returns (calls: seq<TxCall>, err: Option<Error>)
    ensures err == WriteError(groups, cfg, tx)
    ensures RowsOf(groups, cfg).Err? || |groups| == 0 ==> calls == []
    ensures RowsOf(groups, cfg).Ok? && |groups| > 0 ==> calls == Inserted(RowsOf(groups, cfg).value, tx).0
  {
    var rows := BuildDBRowsTimescale(groups, cfg);
    if rows.Err? {
      return [], Some(Wrapped("An error ocurred while building db rows", rows.error));
    }
    RowsShape(groups, cfg);
    if |rows.value| > 0 {
      var e;
      calls, e := InsertRowsTimescale(rows.value, tx);
      if e.Some? {
        return calls, Some(Wrapped("An error ocurred while inserting rows into timescaleDB", e.value));
      }
      return calls, None;
    }
    return [], None;
  }
}
