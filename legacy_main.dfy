/** main.go: the first receiver.  Its configuration is untyped JSON (the
    measurement settings are lists of arbitrary values, read with type
    assertions), and `buildWriteFlow` turns only the FIRST group into one
    INSERT statement and its rows.

    A failed type assertion or an index out of range is a Go panic, modelled
    as `Err(Panic(..))`.  `time.Now` is the parameter `now` and
    `time.Format` the parameter `format`.  JSON encoding of `data` is left
    out: the row holds the merged map. */
module LegacyMain {
  import opened Errors
  import opened Text
  import opened Points
  import Timescale
  import ReceiverNg

  /** The JSON values the settings can hold, as far as the code tells them
      apart: strings, objects, and anything else. */
  datatype Json = JString(s: string) | JObject(entries: map<string, Json>) | JOther

  /** One measurement's settings: `ignore`, `tagsAsColumns`, ... */
  type Settings = map<string, seq<Json>>

  datatype LegacyConfiguration = LegacyConfiguration(
    timescaleConnectionString: string,
    measurements: map<string, Settings>)

  /** The statement and its rows; `("", nil)` is `NoFlow`. */
  datatype WriteFlow = WriteFlow(sql: string, insertRows: seq<ReceiverNg.InsertRow>)

  const NoFlow: WriteFlow := WriteFlow("", [])

  const AssertionPanic: Error := Panic("interface conversion")
  const IndexPanic: Error := Panic("index out of range")

  /** The error text is not interpolated: it names the measurement literally
      as `{$measurement}`. */
  const UnknownFirst: Error := UnknownMeasurement("{$measurement}")

  /** A setting, or the nil list when the key is absent. */
  function Setting(mc: Settings, key: string): seq<Json>
  {
    if key in mc then mc[key] else []
  }

  predicate AllStrings(js: seq<Json>)
  {
    forall i | 0 <= i < |js| :: js[i].JString?
  }

  function Names(js: seq<Json>): seq<string>
    requires AllStrings(js)
  {
    seq(|js|, i requires 0 <= i < |js| => js[i].s)
  }

  /** The string entries in order; the type switch skips anything else. */
  function StringEntries(js: seq<Json>): seq<string>
  {
    if |js| == 0 then []
    else StringEntries(js[..|js| - 1]) + (if js[|js| - 1].JString? then [js[|js| - 1].s] else [])
  }

  predicate StringValued(o: map<string, Json>)
  {
    forall k | k in o :: o[k].JString?
  }

  function StringMap(o: map<string, Json>): map<string, string>
    requires StringValued(o)
  {
    map k | k in o :: o[k].s
  }

  /** The `addedTags` loop: every object entry is laid over the tags in
      turn (its values must be strings); other entries are skipped. */
  function Overlaid(tags: map<string, string>, added: seq<Json>): Result<map<string, string>>
  {
    if |added| == 0 then Ok(tags)
    else
      match Overlaid(tags, added[..|added| - 1])
      case Err(e) => Err(e)
      case Ok(t) =>
        var v := added[|added| - 1];
        if !v.JObject? then Ok(t)
        else if StringValued(v.entries) then Ok(t + StringMap(v.entries))
        else Err(AssertionPanic)
  }

  predicate ObjectsStringValued(added: seq<Json>)
  {
    forall i | 0 <= i < |added| && added[i].JObject? :: StringValued(added[i].entries)
  }

  /** The tag maps the object entries stand for, in order. */
  function ObjectMaps(added: seq<Json>): seq<map<string, string>>
    requires ObjectsStringValued(added)
  {
    if |added| == 0 then []
    else
      var v := added[|added| - 1];
      ObjectMaps(added[..|added| - 1]) + (if v.JObject? then [StringMap(v.entries)] else [])
  }

  function TagAsCell(s: string): Timescale.Cell { Timescale.TagCell(s) }

  function FieldAsCell(v: FieldValue): Timescale.Cell { Timescale.FieldCell(v) }

  /** One value per column the map has; absent columns are left out. */
  function PresentCells<V>(m: map<string, V>, cols: seq<string>, wrap: V -> Timescale.Cell): seq<Timescale.Cell>
  {
    if |cols| == 0 then []
    else
      var c := cols[|cols| - 1];
      PresentCells(m, cols[..|cols| - 1], wrap) + (if c in m then [wrap(m[c])] else [])
  }

  /** The instant of a point: the parsed text, ignoring a parse error, or now. */
  function Instant(p: LegacyPoint, now: int): int
  {
    if p.timestamp != "" then AtoiIgnoringError(p.timestamp) else now
  }

  function RowOf(p: LegacyPoint, mc: Settings, now: int, format: int -> string): Result<ReceiverNg.InsertRow>
  {
    match Overlaid(p.tags, Setting(mc, "addedTags"))
    case Err(e) => Err(e)
    case Ok(tags) =>
      var tcols := Setting(mc, "tagsAsColumns");
      var fcols := Setting(mc, "fieldsAsColumns");
      if !AllStrings(tcols) || !AllStrings(fcols) then Err(AssertionPanic)
      else
        Ok(ReceiverNg.InsertRow(
          format(Instant(p, now)),
          Timescale.Merged([ReceiverNg.MappedData(tags, Names(tcols), ReceiverNg.TagAsData),
                            ReceiverNg.MappedData(p.fields, Names(fcols), ReceiverNg.FieldAsData)]),
          PresentCells(p.fields, Names(fcols), FieldAsCell),
          PresentCells(tags, Names(tcols), TagAsCell)))
  }

  function RowsOf(ps: seq<LegacyPoint>, mc: Settings, now: int, format: int -> string): Result<seq<ReceiverNg.InsertRow>>
  {
    if |ps| == 0 then Ok([])
    else
      match RowsOf(ps[..|ps| - 1], mc, now, format)
      case Err(e) => Err(e)
      case Ok(acc) =>
        match RowOf(ps[|ps| - 1], mc, now, format)
        case Err(e) => Err(e)
        case Ok(row) => Ok(acc + [row])
  }

  /** `time`, `data`, the field columns, the tag columns. */
  function AllColumns(mc: Settings): seq<Json>
  {
    Timescale.Concat([[JString("time"), JString("data")], Setting(mc, "fieldsAsColumns"), Setting(mc, "tagsAsColumns")])
  }

  /** The statement: the string column names, and one placeholder per column
      entry, string or not. */
  function FlowSql(table: string, all: seq<Json>): string
  {
    "INSERT INTO " + table + "(" + Join(StringEntries(all), ",") + ") VALUES (" + Join(ReceiverNg.Placeholders(|all|), ",") + ")"
  }

  function GroupFlow(g: ReceiverNg.LegacyGroup, mc: Settings, now: int, format: int -> string): Result<WriteFlow>
  {
    if "ignore" in mc then Ok(NoFlow)
    else
      match RowsOf(g.points, mc, now, format)
      case Err(e) => Err(e)
      case Ok(rows) =>
        var table := Setting(mc, "targetTable");
        if |table| == 0 then Err(IndexPanic)
        else if !table[0].JString? then Err(AssertionPanic)
        else Ok(WriteFlow(FlowSql(table[0].s, AllColumns(mc)), rows))
  }

  /** `buildWriteFlow`: the loop returns in its first iteration. */
  function Flow(groups: seq<ReceiverNg.LegacyGroup>, cfg: LegacyConfiguration, now: int, format: int -> string): Result<WriteFlow>
  {
    if |groups| == 0 then Ok(NoFlow)
    else if groups[0].measurement !in cfg.measurements then Err(UnknownFirst)
    else GroupFlow(groups[0], cfg.measurements[groups[0].measurement], now, format)
  }

  // ---------------------------------------------------------------------
  // Properties

  /** Only the first group is looked at: what follows it never changes the
      outcome, even an unknown measurement there. */
  lemma OnlyFirstGroup(groups: seq<ReceiverNg.LegacyGroup>, rest: seq<ReceiverNg.LegacyGroup>, cfg: LegacyConfiguration, now: int, format: int -> string)
    requires |groups| > 0
    ensures Flow(groups + rest, cfg, now, format) == Flow(groups[..1], cfg, now, format)
  {
    assert (groups + rest)[0] == groups[0] == groups[..1][0];
  }

  /** An `ignore` key, whatever its value, gives the empty flow and no error;
      an unknown first measurement is the one error that needs no settings. */
  lemma FirstGroupOutcomes(groups: seq<ReceiverNg.LegacyGroup>, cfg: LegacyConfiguration, now: int, format: int -> string)
    requires |groups| > 0
    ensures groups[0].measurement !in cfg.measurements ==> Flow(groups, cfg, now, format) == Err(UnknownFirst)
    ensures groups[0].measurement in cfg.measurements && "ignore" in cfg.measurements[groups[0].measurement] ==>
      Flow(groups, cfg, now, format) == Ok(NoFlow)
  {
  }

  /** The overlay is the tags updated by every object entry in turn, later
      ones winning; it fails iff some object has a non-string value. */
  lemma {:induction false} OverlaidOk(tags: map<string, string>, added: seq<Json>)
    ensures Overlaid(tags, added).Ok? <==> ObjectsStringValued(added)
    decreases |added|
  {
    if |added| > 0 {
      var n := |added| - 1;
      var init := added[..n];
      OverlaidOk(tags, init);
      assert forall i | 0 <= i < n :: init[i] == added[i];
      if !ObjectsStringValued(added) && ObjectsStringValued(init) {
        assert !StringValued(added[n].entries);
      }
    }
  }

  lemma {:induction false} OverlaidClosedForm(tags: map<string, string>, added: seq<Json>)
    requires ObjectsStringValued(added)
    ensures Overlaid(tags, added) == Ok(tags + Timescale.Merged(ObjectMaps(added)))
    decreases |added|
  {
    if |added| > 0 {
      var n := |added| - 1;
      assert ObjectsStringValued(added[..n]) by {
        assert forall i | 0 <= i < n :: added[..n][i] == added[i];
      }
      OverlaidClosedForm(tags, added[..n]);
      var pre := Timescale.Merged(ObjectMaps(added[..n]));
      OverlaidStep(tags, added, pre);
      if added[n].JObject? {
        ObjectMapsSnoc(added);
      } else {
        ObjectMapsSkip(added);
        assert pre + map[] == pre;
      }
    } else {
      assert tags + map[] == tags;
    }
  }

  lemma OverlaidStep(tags: map<string, string>, added: seq<Json>, pre: map<string, string>)
    requires |added| > 0 && ObjectsStringValued(added)
    requires Overlaid(tags, added[..|added| - 1]) == Ok(tags + pre)
    ensures var v := added[|added| - 1];
      Overlaid(tags, added) == Ok(tags + (pre + (if v.JObject? then StringMap(v.entries) else map[])))
  {
    var v := added[|added| - 1];
    if v.JObject? {
      var m := StringMap(v.entries);
      Timescale.MergeAssoc(tags, pre, m);
    } else {
      assert pre + map[] == pre;
    }
  }

  lemma ObjectMapsSnoc(added: seq<Json>)
    requires |added| > 0 && ObjectsStringValued(added) && added[|added| - 1].JObject?
    ensures Timescale.Merged(ObjectMaps(added)) ==
      Timescale.Merged(ObjectMaps(added[..|added| - 1])) + StringMap(added[|added| - 1].entries)
  {
    var n := |added| - 1;
    var ms := ObjectMaps(added[..n]);
    var m := StringMap(added[n].entries);
    assert ObjectMaps(added) == ms + [m];
    Timescale.MergedSnoc(ms, m);
  }

  lemma ObjectMapsSkip(added: seq<Json>)
    requires |added| > 0 && ObjectsStringValued(added) && !added[|added| - 1].JObject?
    ensures ObjectMaps(added) == ObjectMaps(added[..|added| - 1])
  {
  }

  /** Absent columns are left out, so a row can be narrower than its
      statement; it is as wide exactly when every column is present, and
      then its values are those of the current builder. */
  lemma {:induction false} PresentCellsShape<V>(m: map<string, V>, cols: seq<string>, wrap: V -> Timescale.Cell)
    ensures |PresentCells(m, cols, wrap)| <= |cols|
    ensures |PresentCells(m, cols, wrap)| == |cols| <==> forall i | 0 <= i < |cols| :: cols[i] in m
    ensures (forall i | 0 <= i < |cols| :: cols[i] in m) ==>
      PresentCells(m, cols, wrap) == seq(|cols|, i requires 0 <= i < |cols| => wrap(m[cols[i]]))
    ensures forall x | x in PresentCells(m, cols, wrap) :: exists c | c in cols && c in m :: x == wrap(m[c])
    decreases |cols|
  {
    if |cols| > 0 {
      var n := |cols| - 1;
      PresentCellsShape(m, cols[..n], wrap);
      assert forall i | 0 <= i < n :: cols[..n][i] == cols[i];
      if cols[n] !in m {
        assert |PresentCells(m, cols, wrap)| < |cols|;
      }
    }
  }

  lemma PresentTagsAreColumns(tags: map<string, string>, cols: seq<string>)
    requires forall i | 0 <= i < |cols| :: cols[i] in tags
    ensures PresentCells(tags, cols, TagAsCell) == Timescale.TagColumns(tags, cols)
  {
    PresentCellsShape(tags, cols, TagAsCell);
  }

  lemma PresentFieldsAreColumns(fields: map<string, FieldValue>, cols: seq<string>)
    requires forall i | 0 <= i < |cols| :: cols[i] in fields
    ensures PresentCells(fields, cols, FieldAsCell) == Timescale.FieldColumns(fields, cols)
  {
    PresentCellsShape(fields, cols, FieldAsCell);
  }

  /** A row's time is the parsed timestamp text (0 for text that is not a
      number), or now when the text is empty. */
  lemma RowTimestamp(p: LegacyPoint, mc: Settings, now: int, format: int -> string)
    requires RowOf(p, mc, now, format).Ok?
    ensures p.timestamp == "" ==> RowOf(p, mc, now, format).value.timestampFormatted == format(now)
    ensures forall n: int | MinInt64 <= n <= MaxInt64 && p.timestamp == IntToString(n) ::
      RowOf(p, mc, now, format).value.timestampFormatted == format(n)
    ensures |p.timestamp| > 0 && !IsDigit(p.timestamp[0]) && p.timestamp[0] != '-' && p.timestamp[0] != '+' ==>
      RowOf(p, mc, now, format).value.timestampFormatted == format(0)
  {
    forall n: int | MinInt64 <= n <= MaxInt64 && p.timestamp == IntToString(n)
      ensures RowOf(p, mc, now, format).value.timestampFormatted == format(n)
    {
      AtoiOfIntToString(n);
      NatOrNegNonEmpty(n);
    }
    if |p.timestamp| > 0 && !IsDigit(p.timestamp[0]) && p.timestamp[0] != '-' && p.timestamp[0] != '+' {
      AtoiIgnoringErrorOfNonNumeric(p.timestamp);
    }
  }

  lemma NatOrNegNonEmpty(n: int)
    ensures IntToString(n) != ""
  {
    var m: nat := if n < 0 then -n else n;
    NatToStringDigits(m);
  }

  /** A row, when it exists, fills at most its statement's placeholders, and
      all of them exactly when every mapped field and tag is present. */
  lemma RowWidth(p: LegacyPoint, mc: Settings, now: int, format: int -> string)
    requires RowOf(p, mc, now, format).Ok?
    ensures var row := RowOf(p, mc, now, format).value;
      var tags := Overlaid(p.tags, Setting(mc, "addedTags")).value;
      var fcols := Names(Setting(mc, "fieldsAsColumns"));
      var tcols := Names(Setting(mc, "tagsAsColumns"));
      && 2 + |row.fieldColumnValues| + |row.tagColumnValues| <= |AllColumns(mc)|
      && (2 + |row.fieldColumnValues| + |row.tagColumnValues| == |AllColumns(mc)| <==>
           (forall i | 0 <= i < |fcols| :: fcols[i] in p.fields) && (forall i | 0 <= i < |tcols| :: tcols[i] in tags))
  {
    var tags := Overlaid(p.tags, Setting(mc, "addedTags")).value;
    PresentCellsShape(p.fields, Names(Setting(mc, "fieldsAsColumns")), FieldAsCell);
    PresentCellsShape(tags, Names(Setting(mc, "tagsAsColumns")), TagAsCell);
    ColumnsCount(mc);
  }

  lemma ColumnsCount(mc: Settings)
    ensures |AllColumns(mc)| == 2 + |Setting(mc, "fieldsAsColumns")| + |Setting(mc, "tagsAsColumns")|
  {
    var ss := [[JString("time"), JString("data")], Setting(mc, "fieldsAsColumns"), Setting(mc, "tagsAsColumns")];
    assert Timescale.Concat(ss) == Timescale.Concat(ss[..2]) + ss[2];
    assert ss[..2][..1] == ss[..1] && ss[..1][..0] == [];
    assert Timescale.Concat(ss[..2]) == Timescale.Concat(ss[..1]) + ss[1];
    assert Timescale.Concat(ss[..1]) == ss[0];
  }

  /** Non-string column entries drop out of the column list but not out of
      the placeholders, so the two have the same length iff every entry is a
      string; then the statement is the one the later builder writes. */
  lemma {:induction false} StringEntriesCount(js: seq<Json>)
    ensures |StringEntries(js)| <= |js|
    ensures |StringEntries(js)| == |js| <==> AllStrings(js)
    ensures AllStrings(js) ==> StringEntries(js) == Names(js)
    decreases |js|
  {
    if |js| > 0 {
      var n := |js| - 1;
      StringEntriesCount(js[..n]);
      assert forall i | 0 <= i < n :: js[..n][i] == js[i];
      if !js[n].JString? {
        assert |StringEntries(js)| < |js|;
      }
    }
  }

  lemma FlowSqlAsNg(table: string, all: seq<Json>)
    requires AllStrings(all)
    ensures FlowSql(table, all) == ReceiverNg.InsertSql(table, Names(all))
  {
    StringEntriesCount(all);
  }

  lemma {:induction false} RowsOfIsAllOk(ps: seq<LegacyPoint>, mc: Settings, now: int, format: int -> string)
    ensures RowsOf(ps, mc, now, format) == AllOk(ps, p => RowOf(p, mc, now, format))
    decreases |ps|
  {
    if |ps| > 0 {
      RowsOfIsAllOk(ps[..|ps| - 1], mc, now, format);
    }
  }

  lemma RowsAllOk(ps: seq<LegacyPoint>, mc: Settings, now: int, format: int -> string)
    ensures RowsOf(ps, mc, now, format).Ok? <==> forall j | 0 <= j < |ps| :: RowOf(ps[j], mc, now, format).Ok?
    ensures RowsOf(ps, mc, now, format).Ok? ==>
      |RowsOf(ps, mc, now, format).value| == |ps| &&
      forall j | 0 <= j < |ps| :: RowsOf(ps, mc, now, format).value[j] == RowOf(ps[j], mc, now, format).value
  {
    var f := p => RowOf(p, mc, now, format);
    RowsOfIsAllOk(ps, mc, now, format);
    AllOkPointwise(ps, f);
    assert forall p :: f(p) == RowOf(p, mc, now, format);
  }

  /** A first group that is not ignored and has points needs string column
      names: otherwise every row panics before the statement is built. */
  lemma ColumnsMustBeStrings(g: ReceiverNg.LegacyGroup, mc: Settings, now: int, format: int -> string)
    requires |g.points| > 0 && "ignore" !in mc && GroupFlow(g, mc, now, format).Ok?
    ensures AllStrings(AllColumns(mc))
    ensures GroupFlow(g, mc, now, format).value.sql ==
      ReceiverNg.InsertSql(Setting(mc, "targetTable")[0].s, Names(AllColumns(mc)))
    ensures |GroupFlow(g, mc, now, format).value.insertRows| == |g.points|
  {
    RowsAllOk(g.points, mc, now, format);
    assert RowOf(g.points[0], mc, now, format).Ok?;
    var ss := [[JString("time"), JString("data")], Setting(mc, "fieldsAsColumns"), Setting(mc, "tagsAsColumns")];
    ConcatAllStrings(ss);
    FlowSqlAsNg(Setting(mc, "targetTable")[0].s, AllColumns(mc));
  }

  lemma {:induction false} ConcatAllStrings(ss: seq<seq<Json>>)
    requires forall i | 0 <= i < |ss| :: AllStrings(ss[i])
    ensures AllStrings(Timescale.Concat(ss))
    decreases |ss|
  {
    if |ss| > 0 {
      ConcatAllStrings(ss[..|ss| - 1]);
      var a := Timescale.Concat(ss[..|ss| - 1]);
      var b := ss[|ss| - 1];
      assert forall i | 0 <= i < |a + b| :: (a + b)[i] == if i < |a| then a[i] else b[i - |a|];
    }
  }

  // ---------------------------------------------------------------------
  // The loops of the source

  lemma {:induction false} OverlaidErrStays(tags: map<string, string>, added: seq<Json>, k: nat)
    requires k <= |added| && Overlaid(tags, added[..k]).Err?
    ensures Overlaid(tags, added) == Overlaid(tags, added[..k])
    decreases |added| - k
  {
    if k < |added| {
      assert added[..|added| - 1][..k] == added[..k];
      OverlaidErrStays(tags, added[..|added| - 1], k);
    } else {
      assert added[..k] == added;
    }
  }

  /** The string entries of `o` outside `rest`. */
  function WrittenStrings(o: map<string, Json>, rest: set<string>): map<string, string>
  {
    map k | k in o && k !in rest && o[k].JString? :: o[k].s
  }

  /** Writing one more string entry of `o` extends what has been written. */
  lemma WrittenStringsStep(t: map<string, string>, o: map<string, Json>, rest: set<string>, key: string)
    requires key in rest && rest <= o.Keys && o[key].JString?
    ensures (t + WrittenStrings(o, rest))[key := o[key].s] == t + WrittenStrings(o, rest - {key})
  {
  }

  /** Once every entry has been written, all of them were strings. */
  lemma WrittenAllStrings(o: map<string, Json>, rest: set<string>)
    requires rest == {} && forall k | k in o && k !in rest :: o[k].JString?
    ensures StringValued(o) && StringMap(o) == WrittenStrings(o, rest)
  {
  }

  /** The inner loop over one object's entries. */
  method OverlayObject(t: map<string, string>, o: map<string, Json>) returns (r: Result<map<string, string>>)
    ensures StringValued(o) ==> r == Ok(t + StringMap(o))
    ensures !StringValued(o) ==> r == Err(AssertionPanic)
  {
    var tags := t;
    var rest := o.Keys;
    assert WrittenStrings(o, rest) == map[];
    while rest != {}
      invariant rest <= o.Keys
      invariant forall k | k in o && k !in rest :: o[k].JString?
      invariant tags == t + WrittenStrings(o, rest)
      decreases |rest|
    {
      var key :| key in rest;
      var value := o[key];
      if !value.JString? {
        return Err(AssertionPanic);
      }
      WrittenStringsStep(t, o, rest, key);
      tags := tags[key := value.s];
      rest := rest - {key};
    }
    WrittenAllStrings(o, rest);
    return Ok(tags);
  }

  /** The `addedTags` loop. */
  method OverlayAddedTags(t: map<string, string>, added: seq<Json>) returns (r: Result<map<string, string>>)
    ensures r == Overlaid(t, added)
  {
    var tags := t;
    var i := 0;
    while i < |added|
      invariant 0 <= i <= |added| && Overlaid(t, added[..i]) == Ok(tags)
    {
      assert added[..i + 1][..i] == added[..i];
      var v := added[i];
      if v.JObject? {
        var o := OverlayObject(tags, v.entries);
        if o.Err? {
          OverlaidErrStays(t, added, i + 1);
          return o;
        }
        tags := o.value;
      }
      i := i + 1;
    }
    assert added[..i] == added;
    return Ok(tags);
  }

  /** The column-value loops: one value per column the map has. */
  method PresentValues<V>(m: map<string, V>, cols: seq<string>, wrap: V -> Timescale.Cell) returns (r: seq<Timescale.Cell>)
    ensures r == PresentCells(m, cols, wrap)
  {
    r := [];
    var i := 0;
    while i < |cols|
      invariant 0 <= i <= |cols| && r == PresentCells(m, cols[..i], wrap)
    {
      assert cols[..i + 1][..i] == cols[..i];
      if cols[i] in m {
        r := r + [wrap(m[cols[i]])];
      }
      i := i + 1;
    }
    assert cols[..i] == cols;
  }

  /** `v.(string)` over a column list: the names, or a panic at the first
      entry that is not a string. */
  method ColumnNames(js: seq<Json>) returns (r: Result<seq<string>>)
    ensures AllStrings(js) ==> r == Ok(Names(js))
    ensures !AllStrings(js) ==> r == Err(AssertionPanic)
  {
    var names: seq<string> := [];
    var i := 0;
    while i < |js|
      invariant 0 <= i <= |js| && |names| == i
      invariant forall l | 0 <= l < i :: js[l].JString? && names[l] == js[l].s
    {
      if !js[i].JString? {
        return Err(AssertionPanic);
      }
      names := names + [js[i].s];
      i := i + 1;
    }
    assert names == Names(js);
    return Ok(names);
  }

  /** The loop body over a group's points. */
  method BuildRow(p: LegacyPoint, mc: Settings, now: int, format: int -> string) returns (r: Result<ReceiverNg.InsertRow>)
    ensures r == RowOf(p, mc, now, format)
  {
    var timestamp := if p.timestamp != "" then AtoiIgnoringError(p.timestamp) else now;
    var timestampFormatted := format(timestamp);
    var tags := OverlayAddedTags(p.tags, Setting(mc, "addedTags"));
    if tags.Err? {
      return Err(tags.error);
    }
    var tagsAsColumns := ColumnNames(Setting(mc, "tagsAsColumns"));
    if tagsAsColumns.Err? {
      return Err(tagsAsColumns.error);
    }
    var tagColumnValues := PresentValues(tags.value, tagsAsColumns.value, TagAsCell);
    var tagDataValues := ReceiverNg.MappedDataValues(tags.value, tagsAsColumns.value, ReceiverNg.TagAsData);
    var fieldsAsColumns := ColumnNames(Setting(mc, "fieldsAsColumns"));
    if fieldsAsColumns.Err? {
      return Err(fieldsAsColumns.error);
    }
    var fieldColumnValues := PresentValues(p.fields, fieldsAsColumns.value, FieldAsCell);
    var fieldDataValues := ReceiverNg.MappedDataValues(p.fields, fieldsAsColumns.value, ReceiverNg.FieldAsData);
    var data := Timescale.MapsMerge([tagDataValues, fieldDataValues]);
    return Ok(ReceiverNg.InsertRow(timestampFormatted, data, fieldColumnValues, tagColumnValues));
  }

  lemma {:induction false} RowsErrStays(ps: seq<LegacyPoint>, mc: Settings, now: int, format: int -> string, k: nat)
    requires k <= |ps| && RowsOf(ps[..k], mc, now, format).Err?
    ensures RowsOf(ps, mc, now, format) == RowsOf(ps[..k], mc, now, format)
    decreases |ps| - k
  {
    if k < |ps| {
      assert ps[..|ps| - 1][..k] == ps[..k];
      RowsErrStays(ps[..|ps| - 1], mc, now, format, k);
    } else {
      assert ps[..k] == ps;
    }
  }

  method BuildRows(ps: seq<LegacyPoint>, mc: Settings, now: int, format: int -> string) returns (r: Result<seq<ReceiverNg.InsertRow>>)
    ensures r == RowsOf(ps, mc, now, format)
  {
    var insertRows: seq<ReceiverNg.InsertRow> := [];
    var i := 0;
    while i < |ps|
      invariant 0 <= i <= |ps| && RowsOf(ps[..i], mc, now, format) == Ok(insertRows)
    {
      assert ps[..i + 1][..i] == ps[..i];
      var row := BuildRow(ps[i], mc, now, format);
      if row.Err? {
        RowsErrStays(ps, mc, now, format, i + 1);
        return Err(row.error);
      }
      insertRows := insertRows + [row.value];
      i := i + 1;
    }
    assert ps[..i] == ps;
    return Ok(insertRows);
  }

  /** The type switch that keeps the string column names. */
  method StringColumns(js: seq<Json>) returns (c: seq<string>)
    ensures c == StringEntries(js)
  {
    c := [];
    var i := 0;
    while i < |js|
      invariant 0 <= i <= |js| && c == StringEntries(js[..i])
    {
      assert js[..i + 1][..i] == js[..i];
      if js[i].JString? {
        c := c + [js[i].s];
      }
      i := i + 1;
    }
    assert js[..i] == js;
  }

  /** `buildWriteFlow`. */
  method BuildWriteFlow(groups: seq<ReceiverNg.LegacyGroup>, cfg: LegacyConfiguration, now: int, format: int -> string)
    returns (r: Result<WriteFlow>)
    ensures r == Flow(groups, cfg, now, format)
  {
    if |groups| == 0 {
      return Ok(NoFlow);
    }
    var input := groups[0];
    if input.measurement !in cfg.measurements {
      return Err(UnknownFirst);
    }
    var mc := cfg.measurements[input.measurement];
    if "ignore" in mc {
      return Ok(NoFlow);
    }
    var insertRows := BuildRows(input.points, mc, now, format);
    if insertRows.Err? {
      return Err(insertRows.error);
    }
    var targetTable := Setting(mc, "targetTable");
    var allColumns := Timescale.ArrayMerge([[JString("time"), JString("data")], Setting(mc, "fieldsAsColumns"), Setting(mc, "tagsAsColumns")]);
    var c := StringColumns(allColumns);
    var a := Timescale.CreateBindParameterList(1, |allColumns|);
    assert a.Ok? && a.value == ReceiverNg.Placeholders(|allColumns|);
    if |targetTable| == 0 {
      return Err(IndexPanic);
    }
    if !targetTable[0].JString? {
      return Err(AssertionPanic);
    }
    var sql := "INSERT INTO " + targetTable[0].s + "(" + Join(c, ",") + ") VALUES (" + Join(a.value, ",") + ")";
    return Ok(WriteFlow(sql, insertRows.value));
  }

  // ---------------------------------------------------------------------
  // In_array

  /** The needle kinds `In_array` tells apart. */
  datatype Needle = StringNeedle(s: string) | IntNeedle(i: int) | Int64Needle(j: int) | OtherNeedle

  /** The haystack, as the dynamic slice type it holds. */
  datatype Haystack = Strings(ss: seq<string>) | Ints(ns: seq<int>) | Int64s(js: seq<int>) | OtherHaystack

  /** Membership for string, int and int64 needles; false for any other
      needle; a haystack of the wrong slice type fails the type assertion. */
  method InArray(needle: Needle, haystack: Haystack) returns (r: Result<bool>)
    ensures needle.StringNeedle? ==> r == if haystack.Strings? then Ok(needle.s in haystack.ss) else Err(AssertionPanic)
    ensures needle.IntNeedle? ==> r == if haystack.Ints? then Ok(needle.i in haystack.ns) else Err(AssertionPanic)
    ensures needle.Int64Needle? ==> r == if haystack.Int64s? then Ok(needle.j in haystack.js) else Err(AssertionPanic)
    ensures needle.OtherNeedle? ==> r == Ok(false)
  {
    match needle
    case StringNeedle(key) =>
      if !haystack.Strings? { return Err(AssertionPanic); }
      var found := IndexIn(haystack.ss, key);
      return Ok(found);
    case IntNeedle(key) =>
      if !haystack.Ints? { return Err(AssertionPanic); }
      var found := IndexIn(haystack.ns, key);
      return Ok(found);
    case Int64Needle(key) =>
      if !haystack.Int64s? { return Err(AssertionPanic); }
      var found := IndexIn(haystack.js, key);
      return Ok(found);
    case OtherNeedle =>
      return Ok(false);
  }

  /** The scan each case of `In_array` runs. */
  method IndexIn<T(==)>(items: seq<T>, key: T) returns (found: bool)
    ensures found <==> key in items
  {
    var i := 0;
    while i < |items|
      invariant 0 <= i <= |items| && key !in items[..i]
    {
      if items[i] == key {
        return true;
      }
      assert items[..i + 1] == items[..i] + [items[i]];
      i := i + 1;
    }
    assert items[..i] == items;
    return false;
  }
}
