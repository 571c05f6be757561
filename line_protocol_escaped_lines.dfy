/** Whole lines written with backslash escapes, as pkg/influx/InfluxLineProtocolParser.go
    reads them: a measurement, one tag and one field whose parts are
    written with every special character escaped, and either an unquoted
    value or a quoted string.  The line reads back as the texts it was
    written from, except that a backslash in the measurement stays as its
    sentinel, and a quoted string is typed like any other value. */
module LineProtocolEscapedLines {
  import opened Errors
  import opened Text
  import opened Points
  import opened LineProtocol
  import opened LineProtocolProps
  import opened LineProtocolEscapes

  /** Every special character: measurement, tag and field key are written
      with all of them escaped. */
  const AllSpecials: set<char> := {' ', ',', '=', '"', '\\'}

  /** Text that can go into a line with every special character escaped:
      no capital E (the text would then hold the start of a sentinel), no
      line break, and no backslash at its end (whose escape would take the
      separator after it for the character it escapes). */
  predicate Writable(s: string)
  {
    'E' !in s && '\n' !in s && EndsFree(s)
  }

  /** The written text of `s`, every special character escaped. */
  function W(s: string): string
  {
    Escaped(s, AllSpecials)
  }

  /** The same text after the escape substitutions. */
  function R(s: string): string
  {
    Rendered(s, AllSpecials, {})
  }

  /** A measurement, one tag `k=v`, one field `f=value` with the value
      written as it is, and a timestamp. */
  function EscapedLine(m: string, k: string, v: string, f: string, value: string, ts: string): string
  {
    W(m) + "," + W(k) + "=" + W(v) + " " + W(f) + "=" + value + " " + ts
  }

  /** The same with the field a quoted string, whose characters of `esq`
      are escaped. */
  function EscapedStringLine(m: string, k: string, v: string, f: string,
                             c: string, esq: set<char>, ts: string): string
  {
    W(m) + "," + W(k) + "=" + W(v) + " " + W(f) + "=" + "\"" + Escaped(c, esq) + "\"" + " " + ts
  }

  /** The same with an unquoted field before the quoted-string field. */
  function EscapedTwoFieldLine(m: string, k: string, v: string, f1: string, value: string,
                               f2: string, c: string, esq: set<char>, ts: string): string
  {
    W(m) + "," + W(k) + "=" + W(v) + " " + W(f1) + "=" + value + "," +
    W(f2) + "=" + "\"" + Escaped(c, esq) + "\"" + " " + ts
  }

  /** The field map of a line with one field piece. */
  function FieldMap(f: string, r: Result<FieldValue>): Result<map<string, FieldValue>>
  {
    if r.Ok? then Ok(map[f := r.value]) else Err(r.error)
  }

  /** The field map of a line with two field pieces, the first error first. */
  function TwoFieldMap(f1: string, r1: Result<FieldValue>, f2: string, r2: Result<FieldValue>):
    Result<map<string, FieldValue>>
  {
    if r1.Err? then Err(r1.error)
    else if r2.Err? then Err(r2.error)
    else Ok(map[f1 := r1.value, f2 := r2.value])
  }

  // ---------------------------------------------------------------------
  // The escape substitutions on a whole line

  /** Text that does not end in a backslash. */
  predicate EndsFree(s: string)
  {
    s == [] || s[|s| - 1] != '\\'
  }

  /** A separator that is not a backslash passes through the substitutions. */
  lemma EscapeSepHead(sep: char, y: string)
    requires sep != '\\'
    ensures Escape([sep] + y) == [sep] + Escape(y)
  {
    EscapeConcat([sep], y);
    EscapeIdentity([sep]);
  }

  /** A separator after text that does not end in a backslash: the
      substitutions act on each side alone. */
  lemma EscapeJoin(x: string, sep: char, y: string)
    requires EndsFree(x) && sep != '\\'
    ensures Escape(x + [sep] + y) == Escape(x) + [sep] + Escape(y)
  {
    assert x + [sep] + y == x + ([sep] + y);
    EscapeConcat(x, [sep] + y);
    EscapeSepHead(sep, y);
  }

  /** One more separator and piece on a line read so far. */
  lemma EscapeStep(q: string, sep: char, y: string, eq: string, ey: string)
    requires EndsFree(q) && EndsFree(y) && sep != '\\'
    requires Escape(q) == eq && Escape(y) == ey
    ensures Escape(q + [sep] + y) == eq + [sep] + ey && EndsFree(q + [sep] + y)
  {
    EscapeJoin(q, sep, y);
  }

  /** One more separator alone. */
  lemma EscapeSepStep(q: string, sep: char, eq: string)
    requires EndsFree(q) && sep != '\\' && Escape(q) == eq
    ensures Escape(q + [sep]) == eq + [sep] && EndsFree(q + [sep])
  {
    EscapeJoin(q, sep, []);
    EscapeIdentity([]);
    assert q + [sep] + [] == q + [sep];
  }

  /** A written text ends in no backslash and becomes its rendered form. */
  lemma WrittenText(s: string)
    requires Writable(s)
    ensures EndsFree(W(s)) && Escape(W(s)) == R(s)
  {
    EscapedLast(s, AllSpecials);
    EscapeEscaped(s, AllSpecials);
  }

  /** Text without a capital E, a line break or a backslash can be written. */
  lemma UnwrittenText(s: string)
    requires 'E' !in s && '\n' !in s && '\\' !in s
    ensures Writable(s)
  {
    if s != [] {
      assert s[|s| - 1] in s;
    }
  }

  /** Text without backslashes can be written in a quoted string. */
  lemma UnwrittenEscapable(s: string, esq: set<char>)
    requires esq <= {'=', '"', '\\'} && '\\' !in s
    ensures Escapable(s, esq)
  {
    forall i | 0 <= i < |s| - 1
      ensures s[i] != '\\'
    {
      assert s[i] in s;
    }
  }

  /** Text without backslashes ends in none and is left alone. */
  lemma NoBackslashText(s: string)
    requires '\\' !in s
    ensures EndsFree(s) && Escape(s) == s
  {
    if s != [] {
      assert s[|s| - 1] in s;
    }
    EscapeIdentity(s);
  }

  /** Six pieces joined by the separators of an unquoted line. */
  lemma EscapeSix(a: string, b: string, c: string, d: string, e: string, g: string,
                  ra: string, rb: string, rc: string, rd: string, re: string, rg: string)
    requires EndsFree(a) && EndsFree(b) && EndsFree(c) && EndsFree(d) && EndsFree(e) && EndsFree(g)
    requires Escape(a) == ra && Escape(b) == rb && Escape(c) == rc
    requires Escape(d) == rd && Escape(e) == re && Escape(g) == rg
    ensures Escape(a + "," + b + "=" + c + " " + d + "=" + e + " " + g) ==
      ra + "," + rb + "=" + rc + " " + rd + "=" + re + " " + rg
  {
    EscapeStep(a, ',', b, ra, rb);
    var q1 := a + [','] + b;
    EscapeStep(q1, '=', c, ra + [','] + rb, rc);
    var q2 := q1 + ['='] + c;
    EscapeStep(q2, ' ', d, ra + [','] + rb + ['='] + rc, rd);
    var q3 := q2 + [' '] + d;
    EscapeStep(q3, '=', e, ra + [','] + rb + ['='] + rc + [' '] + rd, re);
    var q4 := q3 + ['='] + e;
    EscapeStep(q4, ' ', g, ra + [','] + rb + ['='] + rc + [' '] + rd + ['='] + re, rg);
  }

  /** The pieces of a quoted-string line and their separators. */
  lemma EscapeQuotedSix(a: string, b: string, c: string, d: string, e: string, g: string,
                        ra: string, rb: string, rc: string, rd: string, re: string, rg: string)
    requires EndsFree(a) && EndsFree(b) && EndsFree(c) && EndsFree(d) && EndsFree(e) && EndsFree(g)
    requires Escape(a) == ra && Escape(b) == rb && Escape(c) == rc
    requires Escape(d) == rd && Escape(e) == re && Escape(g) == rg
    ensures Escape(a + "," + b + "=" + c + " " + d + "=" + "\"" + e + "\"" + " " + g) ==
      ra + "," + rb + "=" + rc + " " + rd + "=" + "\"" + re + "\"" + " " + rg
  {
    EscapeStep(a, ',', b, ra, rb);
    var q1 := a + [','] + b;
    EscapeStep(q1, '=', c, ra + [','] + rb, rc);
    var q2 := q1 + ['='] + c;
    EscapeStep(q2, ' ', d, ra + [','] + rb + ['='] + rc, rd);
    var q3 := q2 + [' '] + d;
    var eq3 := ra + [','] + rb + ['='] + rc + [' '] + rd;
    EscapeSepStep(q3, '=', eq3);
    EscapeStep(q3 + ['='], '"', e, eq3 + ['='], re);
    var q4 := q3 + ['='] + ['"'] + e;
    EscapeSepStep(q4, '"', eq3 + ['='] + ['"'] + re);
    EscapeStep(q4 + ['"'], ' ', g, eq3 + ['='] + ['"'] + re + ['"'], rg);
  }

  /** The pieces of a line with an unquoted and a quoted-string field. */
  lemma EscapeTwoFields(a: string, b: string, c: string, d: string, e: string, g: string, h: string, t: string,
                        ra: string, rb: string, rc: string, rd: string, re: string, rg: string, rh: string, rt: string)
    requires EndsFree(a) && EndsFree(b) && EndsFree(c) && EndsFree(d)
    requires EndsFree(e) && EndsFree(g) && EndsFree(h) && EndsFree(t)
    requires Escape(a) == ra && Escape(b) == rb && Escape(c) == rc && Escape(d) == rd
    requires Escape(e) == re && Escape(g) == rg && Escape(h) == rh && Escape(t) == rt
    ensures Escape(a + "," + b + "=" + c + " " + d + "=" + e + "," + g + "=" + "\"" + h + "\"" + " " + t) ==
      ra + "," + rb + "=" + rc + " " + rd + "=" + re + "," + rg + "=" + "\"" + rh + "\"" + " " + rt
  {
    EscapeStep(a, ',', b, ra, rb);
    var q1, e1 := a + [','] + b, ra + [','] + rb;
    EscapeStep(q1, '=', c, e1, rc);
    var q2, e2 := q1 + ['='] + c, e1 + ['='] + rc;
    EscapeStep(q2, ' ', d, e2, rd);
    var q3, e3 := q2 + [' '] + d, e2 + [' '] + rd;
    EscapeStep(q3, '=', e, e3, re);
    var q4, e4 := q3 + ['='] + e, e3 + ['='] + re;
    EscapeStep(q4, ',', g, e4, rg);
    var q5, e5 := q4 + [','] + g, e4 + [','] + rg;
    EscapeSepStep(q5, '=', e5);
    EscapeStep(q5 + ['='], '"', h, e5 + ['='], rh);
    var q7, e7 := q5 + ['='] + ['"'] + h, e5 + ['='] + ['"'] + rh;
    EscapeSepStep(q7, '"', e7);
    EscapeStep(q7 + ['"'], ' ', t, e7 + ['"'], rt);
  }

  /** An unquoted line after the escape substitutions. */
  lemma EscapedLineText(m: string, k: string, v: string, f: string, value: string, ts: string)
    requires Writable(m) && Writable(k) && Writable(v) && Writable(f)
    requires '\\' !in value && '\\' !in ts
    ensures Escape(EscapedLine(m, k, v, f, value, ts)) ==
      R(m) + "," + R(k) + "=" + R(v) + " " + R(f) + "=" + value + " " + ts
  {
    WrittenText(m);
    WrittenText(k);
    WrittenText(v);
    WrittenText(f);
    NoBackslashText(value);
    NoBackslashText(ts);
    EscapeSix(W(m), W(k), W(v), W(f), value, ts, R(m), R(k), R(v), R(f), value, ts);
  }

  /** A quoted-string line after the escape substitutions. */
  lemma EscapedStringLineText(m: string, k: string, v: string, f: string,
                              c: string, esq: set<char>, ts: string)
    requires Writable(m) && Writable(k) && Writable(v) && Writable(f)
    requires Escapable(c, esq) && EndsFree(c) && '\\' !in ts
    ensures Escape(EscapedStringLine(m, k, v, f, c, esq, ts)) ==
      R(m) + "," + R(k) + "=" + R(v) + " " + R(f) + "=" + "\"" + Rendered(c, esq, {}) + "\"" + " " + ts
  {
    WrittenText(m);
    WrittenText(k);
    WrittenText(v);
    WrittenText(f);
    EscapedLast(c, esq);
    EscapeEscaped(c, esq);
    NoBackslashText(ts);
    EscapeQuotedSix(W(m), W(k), W(v), W(f), Escaped(c, esq), ts,
                    R(m), R(k), R(v), R(f), Rendered(c, esq, {}), ts);
  }

  /** A line with an unquoted and a quoted-string field after the escape
      substitutions. */
  lemma EscapedTwoFieldLineText(m: string, k: string, v: string, f1: string, value: string,
                                f2: string, c: string, esq: set<char>, ts: string)
    requires Writable(m) && Writable(k) && Writable(v) && Writable(f1) && Writable(f2)
    requires '\\' !in value && Escapable(c, esq) && EndsFree(c) && '\\' !in ts
    ensures Escape(EscapedTwoFieldLine(m, k, v, f1, value, f2, c, esq, ts)) ==
      R(m) + "," + R(k) + "=" + R(v) + " " + R(f1) + "=" + value + "," +
      R(f2) + "=" + "\"" + Rendered(c, esq, {}) + "\"" + " " + ts
  {
    WrittenText(m);
    WrittenText(k);
    WrittenText(v);
    WrittenText(f1);
    WrittenText(f2);
    NoBackslashText(value);
    EscapedLast(c, esq);
    EscapeEscaped(c, esq);
    NoBackslashText(ts);
    EscapeTwoFields(W(m), W(k), W(v), W(f1), value, W(f2), Escaped(c, esq), ts,
                    R(m), R(k), R(v), R(f1), value, R(f2), Rendered(c, esq, {}), ts);
  }

  // ---------------------------------------------------------------------
  // Tokens, head and fields

  /** A rendered text holds no space, comma, double quote or line break. */
  lemma RenderedFree(s: string)
    requires '\n' !in s
    ensures ' ' !in R(s) && ',' !in R(s) && '"' !in R(s) && '\n' !in R(s)
  {
    RenderedAvoids(s, AllSpecials, {}, ' ');
    RenderedAvoids(s, AllSpecials, {}, ',');
    RenderedAvoids(s, AllSpecials, {}, '"');
    RenderedAvoids(s, AllSpecials, {}, '\n');
  }

  /** A head of space-free pieces and a space-free timestamp around the
      fields are the line's three tokens. */
  lemma TokensAround(rm: string, rk: string, rv: string, fields: string, ts: string)
    requires ' ' !in rm && ' ' !in rk && ' ' !in rv && ' ' !in ts
    requires '\n' !in rm && '\n' !in rk && '\n' !in rv && '\n' !in fields && '\n' !in ts
    ensures Tokenize(rm + "," + rk + "=" + rv + " " + fields + " " + ts) ==
      Some(Tokens(rm + "," + rk + "=" + rv, fields, ts))
  {
    var head := rm + "," + rk + "=" + rv;
    assert ' ' !in head;
    assert '\n' !in head + " " + fields + " " + ts;
    TokensOfThree(head, fields, ts);
  }

  /** A comma-free measurement and one comma-free tag piece. */
  lemma HeadOf(rm: string, rk: string, rv: string, mm: string, k: string, v: string)
    requires ',' !in rm && ',' !in rk && ',' !in rv
    requires RestoreMeasurement(rm) == mm && TagOf(rk + "=" + rv) == Some((k, v))
    ensures var mt := Split(rm + "," + rk + "=" + rv, ',');
      |mt| == 2 && RestoreMeasurement(mt[0]) == mm && TagsOf(mt[1..]) == map[k := v]
  {
    var kv := rk + "=" + rv;
    assert ',' !in kv;
    assert rm + "," + rk + "=" + rv == rm + [','] + kv;
    SplitPair(rm, kv, ',');
    var mt := Split(rm + "," + rk + "=" + rv, ',');
    assert mt[1..] == [kv];
    assert [kv][..0] == [];
  }

  /** The measurement keeps every escaped backslash as its sentinel. */
  lemma EscapedMeasurement(m: string)
    requires 'E' !in m
    ensures RestoreMeasurement(R(m)) == ReplaceAll(m, "\\", EscapedBackslash)
  {
    MeasurementStage(m, AllSpecials);
    RenderedBackslash(m, AllSpecials, {' ', ',', '=', '"'});
  }

  /** The head splits into the measurement and one tag, which reads back. */
  lemma EscapedHead(m: string, k: string, v: string)
    requires Writable(m) && Writable(k) && Writable(v)
    ensures var mt := Split(R(m) + "," + R(k) + "=" + R(v), ',');
      |mt| == 2 && RestoreMeasurement(mt[0]) == ReplaceAll(m, "\\", EscapedBackslash) &&
      TagsOf(mt[1..]) == map[k := v]
  {
    RenderedFree(m);
    RenderedFree(k);
    RenderedFree(v);
    EscapedMeasurement(m);
    TagStage(k, v, AllSpecials);
    HeadOf(R(m), R(k), R(v), ReplaceAll(m, "\\", EscapedBackslash), k, v);
  }

  /** A field section of one piece. */
  lemma OneFieldPiece(piece: string, strs: seq<string>, f: string, r: Result<FieldValue>)
    requires FieldOf(piece, strs) == Keyed(f, r)
    ensures FieldsOf([piece], strs) == FieldMap(f, r)
  {
    assert [piece][..0] == [];
  }

  /** An unquoted field: its key reads back and its value is typed. */
  lemma EscapedFields(f: string, value: string)
    requires Writable(f)
    requires '_' !in value && '=' !in value && ',' !in value && '"' !in value
    ensures var (seg, strs) := Quoted(R(f) + "=" + value);
      FieldsOf(Split(seg, ','), strs) == FieldMap(f, TypeValue(value))
  {
    RenderedFree(f);
    var seg := R(f) + "=" + value;
    assert '"' !in seg && ',' !in seg;
    NoQuoteNoCut(seg);
    SplitAbsent(seg, ',');
    FieldStage(f, AllSpecials, value, []);
    OneFieldPiece(seg, [], f, TypeValue(value));
  }

  /** A key and one quoted string: the string is cut out and recorded. */
  lemma QuotedFieldsOf(rf: string, cc: string, f: string, r: Result<FieldValue>)
    requires '"' !in rf && ',' !in rf && '"' !in cc
    requires FieldOf(rf + "=" + Placeholder(0), [cc]) == Keyed(f, r)
    ensures var (seg, strs) := Quoted(rf + "=" + "\"" + cc + "\"");
      FieldsOf(Split(seg, ','), strs) == FieldMap(f, r)
  {
    var a := rf + "=";
    QuotedStage(a, cc);
    PlaceholderText();
    var seg := a + Placeholder(0);
    assert ',' !in seg;
    SplitAbsent(seg, ',');
    OneFieldPiece(seg, [cc], f, r);
  }

  /** A quoted-string field: the string is cut out, put back and typed. */
  lemma EscapedStringFields(f: string, c: string, esq: set<char>)
    requires Writable(f)
    requires EscapeSet(esq) && esq <= {'=', '"', '\\'} && '"' in esq && 'E' !in c
    ensures var (seg, strs) := Quoted(R(f) + "=" + "\"" + Rendered(c, esq, {}) + "\"");
      FieldsOf(Split(seg, ','), strs) == FieldMap(f, TypeValue(c))
  {
    RenderedFree(f);
    RenderedAvoids(c, esq, {}, '"');
    QuotedFieldStage(f, AllSpecials, c, esq);
    QuotedFieldsOf(R(f), Rendered(c, esq, {}), f, TypeValue(c));
  }

  /** A field section of two pieces. */
  lemma TwoFieldPieces(p1: string, p2: string, strs: seq<string>,
                       f1: string, r1: Result<FieldValue>, f2: string, r2: Result<FieldValue>)
    requires FieldOf(p1, strs) == Keyed(f1, r1) && FieldOf(p2, strs) == Keyed(f2, r2)
    ensures FieldsOf([p1, p2], strs) == TwoFieldMap(f1, r1, f2, r2)
  {
    assert [p1, p2][..1] == [p1];
    OneFieldPiece(p1, strs, f1, r1);
  }

  /** Two comma-free field pieces joined by a comma. */
  lemma TwoPieceSplit(rf1: string, value: string, rf2: string, x: string)
    requires ',' !in rf1 && ',' !in value && ',' !in rf2 && ',' !in x
    ensures Split(rf1 + "=" + value + "," + rf2 + "=" + x, ',') == [rf1 + "=" + value, rf2 + "=" + x]
  {
    var p1, p2 := rf1 + "=" + value, rf2 + "=" + x;
    assert rf1 + "=" + value + "," + rf2 + "=" + x == p1 + [','] + p2;
    SplitPair(p1, p2, ',');
  }

  /** An unquoted field and a quoted string: the string is cut out of the
      second piece and recorded. */
  lemma TwoQuotedFieldsOf(rf1: string, value: string, rf2: string, cc: string,
                          f1: string, r1: Result<FieldValue>, f2: string, r2: Result<FieldValue>)
    requires '"' !in rf1 && '"' !in value && '"' !in rf2 && '"' !in cc
    requires ',' !in rf1 && ',' !in value && ',' !in rf2
    requires FieldOf(rf1 + "=" + value, [cc]) == Keyed(f1, r1)
    requires FieldOf(rf2 + "=" + Placeholder(0), [cc]) == Keyed(f2, r2)
    ensures var (seg, strs) := Quoted(rf1 + "=" + value + "," + rf2 + "=" + "\"" + cc + "\"");
      FieldsOf(Split(seg, ','), strs) == TwoFieldMap(f1, r1, f2, r2)
  {
    var a := rf1 + "=" + value + "," + rf2 + "=";
    QuotedStage(a, cc);
    PlaceholderText();
    TwoPieceSplit(rf1, value, rf2, Placeholder(0));
    TwoFieldPieces(rf1 + "=" + value, rf2 + "=" + Placeholder(0), [cc], f1, r1, f2, r2);
  }

  /** The fields of a line with an unquoted and a quoted-string field. */
  lemma EscapedTwoFields(f1: string, value: string, f2: string, c: string, esq: set<char>)
    requires Writable(f1) && Writable(f2)
    requires '_' !in value && '=' !in value && ',' !in value && '"' !in value
    requires EscapeSet(esq) && esq <= {'=', '"', '\\'} && '"' in esq && 'E' !in c
    ensures var (seg, strs) := Quoted(R(f1) + "=" + value + "," + R(f2) + "=" + "\"" + Rendered(c, esq, {}) + "\"");
      FieldsOf(Split(seg, ','), strs) == TwoFieldMap(f1, TypeValue(value), f2, TypeValue(c))
  {
    RenderedFree(f1);
    RenderedFree(f2);
    RenderedAvoids(c, esq, {}, '"');
    var cc := Rendered(c, esq, {});
    FieldStage(f1, AllSpecials, value, [cc]);
    QuotedFieldStage(f2, AllSpecials, c, esq);
    TwoQuotedFieldsOf(R(f1), value, R(f2), cc, f1, TypeValue(value), f2, TypeValue(c));
  }

  /** The head, fields and timestamp of a line without escapes. */
  lemma QuotedNamesParts(m: string, k: string, v: string, f: string, value: string)
    requires 'E' !in m && 'E' !in k && 'E' !in v && 'E' !in f
    requires ',' !in m && ',' !in k && ',' !in v && ',' !in f && ',' !in value
    requires '=' !in k && '=' !in v && '=' !in f && '=' !in value && '_' !in value
    requires '"' !in value && ((|f| > 0 && f[0] == '"') || '"' !in f)
    ensures var mt := Split(m + "," + k + "=" + v, ',');
      |mt| == 2 && RestoreMeasurement(mt[0]) == m && TagsOf(mt[1..]) == map[k := v]
    ensures var (seg, strs) := Quoted(f + "=" + value);
      FieldsOf(Split(seg, ','), strs) == FieldMap(f, TypeValue(value))
  {
    MeasurementStage(m, {});
    RenderedRestored(m, {}, {});
    RenderedRestored(m, {}, {' ', ',', '=', '"'});
    RenderedRestored(k, {}, {});
    RenderedRestored(v, {}, {});
    RenderedRestored(f, {}, {});
    TagStage(k, v, {});
    HeadOf(m, k, v, m, k, v);
    var seg := f + "=" + value;
    if '"' in f {
      assert seg[0] == '"';
    } else {
      NoQuoteNoCut(seg);
    }
    SplitAbsent(seg, ',');
    FieldStage(f, {}, value, []);
    OneFieldPiece(seg, [], f, TypeValue(value));
  }

  // ---------------------------------------------------------------------
  // Round trips

  /** The tokens of an unquoted line after the substitutions. */
  lemma UnquotedTokens(esc: string, rm: string, rk: string, rv: string, rf: string, value: string, ts: string)
    requires esc == rm + "," + rk + "=" + rv + " " + rf + "=" + value + " " + ts
    requires ' ' !in rm && ' ' !in rk && ' ' !in rv && ' ' !in ts
    requires '\n' !in rm && '\n' !in rk && '\n' !in rv && '\n' !in rf && '\n' !in value && '\n' !in ts
    ensures Tokenize(esc) == Some(Tokens(rm + "," + rk + "=" + rv, rf + "=" + value, ts))
  {
    var fields := rf + "=" + value;
    assert esc == rm + "," + rk + "=" + rv + " " + fields + " " + ts;
    TokensAround(rm, rk, rv, fields, ts);
  }

  /** The tokens of a quoted-string line after the substitutions. */
  lemma QuotedTokens(esc: string, rm: string, rk: string, rv: string, rf: string, cc: string, ts: string)
    requires esc == rm + "," + rk + "=" + rv + " " + rf + "=" + "\"" + cc + "\"" + " " + ts
    requires ' ' !in rm && ' ' !in rk && ' ' !in rv && ' ' !in ts
    requires '\n' !in rm && '\n' !in rk && '\n' !in rv && '\n' !in rf && '\n' !in cc && '\n' !in ts
    ensures Tokenize(esc) == Some(Tokens(rm + "," + rk + "=" + rv, rf + "=" + "\"" + cc + "\"", ts))
  {
    var fields := rf + "=" + "\"" + cc + "\"";
    assert esc == rm + "," + rk + "=" + rv + " " + fields + " " + ts;
    TokensAround(rm, rk, rv, fields, ts);
  }

  /** The tokens of an unquoted line. */
  lemma EscapedLineTokens(m: string, k: string, v: string, f: string, value: string, ts: string)
    requires Writable(m) && Writable(k) && Writable(v) && Writable(f)
    requires '\\' !in value && '\n' !in value
    requires ' ' !in ts && '\n' !in ts && '\\' !in ts
    ensures Tokenize(Escape(EscapedLine(m, k, v, f, value, ts))) ==
      Some(Tokens(R(m) + "," + R(k) + "=" + R(v), R(f) + "=" + value, ts))
  {
    EscapedLineText(m, k, v, f, value, ts);
    RenderedFree(m);
    RenderedFree(k);
    RenderedFree(v);
    RenderedFree(f);
    UnquotedTokens(Escape(EscapedLine(m, k, v, f, value, ts)), R(m), R(k), R(v), R(f), value, ts);
  }

  /** The tokens of a quoted-string line. */
  lemma EscapedStringLineTokens(m: string, k: string, v: string, f: string,
                                c: string, esq: set<char>, ts: string)
    requires Writable(m) && Writable(k) && Writable(v) && Writable(f) && Writable(c)
    requires Escapable(c, esq)
    requires ' ' !in ts && '\n' !in ts && '\\' !in ts
    ensures Tokenize(Escape(EscapedStringLine(m, k, v, f, c, esq, ts))) ==
      Some(Tokens(R(m) + "," + R(k) + "=" + R(v), R(f) + "=" + "\"" + Rendered(c, esq, {}) + "\"", ts))
  {
    EscapedStringLineText(m, k, v, f, c, esq, ts);
    RenderedFree(m);
    RenderedFree(k);
    RenderedFree(v);
    RenderedFree(f);
    RenderedAvoids(c, esq, {}, '\n');
    QuotedTokens(Escape(EscapedStringLine(m, k, v, f, c, esq, ts)), R(m), R(k), R(v), R(f),
                 Rendered(c, esq, {}), ts);
  }

  /** ParsePoint on a line whose tokens, head and fields are known. */
  lemma ParsedOfParts(line: string, now: int, head: string, fields: string, ts: string,
                      mm: string, tags: map<string, string>, fm: Result<map<string, FieldValue>>)
    requires Tokenize(Escape(line)) == Some(Tokens(head, fields, ts))
    requires var mt := Split(head, ',');
      RestoreMeasurement(mt[0]) == mm && TagsOf(mt[1..]) == tags
    requires var (seg, strs) := Quoted(fields); FieldsOf(Split(seg, ','), strs) == fm
    ensures ParsedPoint(line, now) ==
      if fm.Ok? then Ok(Point(mm, fm.value, tags, ParseTimestamp(ts, now))) else Err(fm.error)
  {
  }

  /** A line written with escapes parses to the texts it was written from:
      the tag and the field key read back, the value is typed, the
      timestamp is read as written, and the measurement keeps each escaped
      backslash as the backslash sentinel, since its restoration leaves
      that one out. */
  lemma EscapedLineRoundTrip(m: string, k: string, v: string, f: string, value: string, ts: string, now: int)
    requires Writable(m) && Writable(k) && Writable(v) && Writable(f)
    requires '\\' !in value && '\n' !in value && '"' !in value
    requires '_' !in value && '=' !in value && ',' !in value
    requires ' ' !in ts && '\n' !in ts && '\\' !in ts
    ensures ParsedPoint(EscapedLine(m, k, v, f, value, ts), now) ==
      if TypeValue(value).Ok? then
        Ok(Point(ReplaceAll(m, "\\", EscapedBackslash), map[f := TypeValue(value).value],
                 map[k := v], ParseTimestamp(ts, now)))
      else Err(TypeValue(value).error)
  {
    EscapedLineTokens(m, k, v, f, value, ts);
    EscapedHead(m, k, v);
    EscapedFields(f, value);
    ParsedOfParts(EscapedLine(m, k, v, f, value, ts), now, R(m) + "," + R(k) + "=" + R(v),
                  R(f) + "=" + value, ts,
                  ReplaceAll(m, "\\", EscapedBackslash), map[k := v], FieldMap(f, TypeValue(value)));
  }

  /** The same for an integer value and timestamp: the point holds them. */
  lemma EscapedIntegerLine(m: string, k: string, v: string, f: string, n: int, t: int, now: int)
    requires Writable(m) && Writable(k) && Writable(v) && Writable(f)
    requires MinInt64 <= n <= MaxInt64 && MinInt64 <= t <= MaxInt64
    ensures ParsedPoint(EscapedLine(m, k, v, f, IntToString(n), IntToString(t)), now) ==
      Ok(Point(ReplaceAll(m, "\\", EscapedBackslash), map[f := Int(n)], map[k := v], t))
  {
    IntToStringPlain(n);
    IntToStringPlain(t);
    PlainAvoids(IntToString(n));
    PlainAvoids(IntToString(t));
    TypeValueOfInteger(n);
    TimestampCases("", t, now);
    EscapedLineRoundTrip(m, k, v, f, IntToString(n), IntToString(t), now);
  }

  /** A line whose field is a quoted string with escapes parses to the
      texts it was written from; the string is typed like any value. */
  lemma EscapedStringLineRoundTrip(m: string, k: string, v: string, f: string,
                                   c: string, esq: set<char>, ts: string, now: int)
    requires Writable(m) && Writable(k) && Writable(v) && Writable(f) && Writable(c)
    requires Escapable(c, esq) && esq <= {'=', '"', '\\'} && '"' in esq
    requires ' ' !in ts && '\n' !in ts && '\\' !in ts
    ensures ParsedPoint(EscapedStringLine(m, k, v, f, c, esq, ts), now) ==
      if TypeValue(c).Ok? then
        Ok(Point(ReplaceAll(m, "\\", EscapedBackslash), map[f := TypeValue(c).value],
                 map[k := v], ParseTimestamp(ts, now)))
      else Err(TypeValue(c).error)
  {
    EscapedStringLineTokens(m, k, v, f, c, esq, ts);
    EscapedHead(m, k, v);
    EscapedStringFields(f, c, esq);
    ParsedOfParts(EscapedStringLine(m, k, v, f, c, esq, ts), now, R(m) + "," + R(k) + "=" + R(v),
                  R(f) + "=" + "\"" + Rendered(c, esq, {}) + "\"", ts,
                  ReplaceAll(m, "\\", EscapedBackslash), map[k := v], FieldMap(f, TypeValue(c)));
  }

  /** The tokens of a line with an unquoted and a quoted-string field. */
  lemma EscapedTwoFieldLineTokens(m: string, k: string, v: string, f1: string, value: string,
                                  f2: string, c: string, esq: set<char>, ts: string)
    requires Writable(m) && Writable(k) && Writable(v) && Writable(f1) && Writable(f2) && Writable(c)
    requires Escapable(c, esq) && '\\' !in value && '\n' !in value
    requires ' ' !in ts && '\n' !in ts && '\\' !in ts
    ensures Tokenize(Escape(EscapedTwoFieldLine(m, k, v, f1, value, f2, c, esq, ts))) ==
      Some(Tokens(R(m) + "," + R(k) + "=" + R(v),
                  R(f1) + "=" + value + "," + R(f2) + "=" + "\"" + Rendered(c, esq, {}) + "\"", ts))
  {
    EscapedTwoFieldLineText(m, k, v, f1, value, f2, c, esq, ts);
    RenderedFree(m);
    RenderedFree(k);
    RenderedFree(v);
    RenderedFree(f1);
    RenderedFree(f2);
    RenderedAvoids(c, esq, {}, '\n');
    TwoFieldTokens(Escape(EscapedTwoFieldLine(m, k, v, f1, value, f2, c, esq, ts)),
                   R(m), R(k), R(v), R(f1), value, R(f2), Rendered(c, esq, {}), ts);
  }

  /** The tokens of a two-field line after the substitutions. */
  lemma TwoFieldTokens(esc: string, rm: string, rk: string, rv: string, rf1: string, value: string,
                       rf2: string, cc: string, ts: string)
    requires esc == rm + "," + rk + "=" + rv + " " + rf1 + "=" + value + "," + rf2 + "=" + "\"" + cc + "\"" + " " + ts
    requires ' ' !in rm && ' ' !in rk && ' ' !in rv && ' ' !in ts
    requires '\n' !in rm && '\n' !in rk && '\n' !in rv && '\n' !in ts
    requires '\n' !in rf1 && '\n' !in value && '\n' !in rf2 && '\n' !in cc
    ensures Tokenize(esc) ==
      Some(Tokens(rm + "," + rk + "=" + rv, rf1 + "=" + value + "," + rf2 + "=" + "\"" + cc + "\"", ts))
  {
    var fields := rf1 + "=" + value + "," + rf2 + "=" + "\"" + cc + "\"";
    assert esc == rm + "," + rk + "=" + rv + " " + fields + " " + ts;
    TokensAround(rm, rk, rv, fields, ts);
  }

  /** A line with an unquoted field before a quoted string with escapes
      parses to the texts it was written from, both fields in one map. */
  lemma EscapedTwoFieldLineRoundTrip(m: string, k: string, v: string, f1: string, value: string,
                                     f2: string, c: string, esq: set<char>, ts: string, now: int)
    requires Writable(m) && Writable(k) && Writable(v) && Writable(f1) && Writable(f2) && Writable(c)
    requires '\\' !in value && '\n' !in value && '"' !in value
    requires '_' !in value && '=' !in value && ',' !in value
    requires Escapable(c, esq) && esq <= {'=', '"', '\\'} && '"' in esq
    requires ' ' !in ts && '\n' !in ts && '\\' !in ts
    ensures ParsedPoint(EscapedTwoFieldLine(m, k, v, f1, value, f2, c, esq, ts), now) ==
      var fm := TwoFieldMap(f1, TypeValue(value), f2, TypeValue(c));
      if fm.Ok? then
        Ok(Point(ReplaceAll(m, "\\", EscapedBackslash), fm.value, map[k := v], ParseTimestamp(ts, now)))
      else Err(fm.error)
  {
    EscapedTwoFieldLineTokens(m, k, v, f1, value, f2, c, esq, ts);
    EscapedHead(m, k, v);
    EscapedTwoFields(f1, value, f2, c, esq);
    ParsedOfParts(EscapedTwoFieldLine(m, k, v, f1, value, f2, c, esq, ts), now,
                  R(m) + "," + R(k) + "=" + R(v),
                  R(f1) + "=" + value + "," + R(f2) + "=" + "\"" + Rendered(c, esq, {}) + "\"", ts,
                  ReplaceAll(m, "\\", EscapedBackslash), map[k := v],
                  TwoFieldMap(f1, TypeValue(value), f2, TypeValue(c)));
  }

  /** A line of texts written as they are, without escapes. */
  function QuotedNamesLine(m: string, k: string, v: string, f: string, value: string, ts: string): string
  {
    m + "," + k + "=" + v + " " + f + "=" + value + " " + ts
  }

  /** The tokens of a line without backslashes. */
  lemma QuotedNamesTokens(m: string, k: string, v: string, f: string, value: string, ts: string)
    requires '\\' !in m && '\\' !in k && '\\' !in v && '\\' !in f && '\\' !in value && '\\' !in ts
    requires '\n' !in m && '\n' !in k && '\n' !in v && '\n' !in f && '\n' !in value && '\n' !in ts
    requires ' ' !in m && ' ' !in k && ' ' !in v && ' ' !in ts
    ensures Tokenize(Escape(QuotedNamesLine(m, k, v, f, value, ts))) == Some(Tokens(m + "," + k + "=" + v, f + "=" + value, ts))
  {
    assert '\\' !in QuotedNamesLine(m, k, v, f, value, ts);
    EscapeIdentity(QuotedNamesLine(m, k, v, f, value, ts));
    UnquotedTokens(QuotedNamesLine(m, k, v, f, value, ts), m, k, v, f, value, ts);
  }

  /** A line without backslashes parses to its texts as written, double
      quotes in the names included, so long as the field section holds no
      double quote after its first character. */
  lemma QuotedNamesRoundTrip(m: string, k: string, v: string, f: string, value: string, ts: string, now: int)
    requires '\\' !in m && '\\' !in k && '\\' !in v && '\\' !in f && '\\' !in value && '\\' !in ts
    requires '\n' !in m && '\n' !in k && '\n' !in v && '\n' !in f && '\n' !in value && '\n' !in ts
    requires ' ' !in m && ' ' !in k && ' ' !in v && ' ' !in ts
    requires 'E' !in m && 'E' !in k && 'E' !in v && 'E' !in f
    requires ',' !in m && ',' !in k && ',' !in v && ',' !in f && ',' !in value
    requires '=' !in k && '=' !in v && '=' !in f && '=' !in value && '_' !in value
    requires '"' !in value && ((|f| > 0 && f[0] == '"') || '"' !in f)
    ensures ParsedPoint(QuotedNamesLine(m, k, v, f, value, ts), now) ==
      if TypeValue(value).Ok? then
        Ok(Point(m, map[f := TypeValue(value).value], map[k := v], ParseTimestamp(ts, now)))
      else Err(TypeValue(value).error)
  {
    QuotedNamesTokens(m, k, v, f, value, ts);
    QuotedNamesParts(m, k, v, f, value);
    ParsedOfParts(QuotedNamesLine(m, k, v, f, value, ts), now, m + "," + k + "=" + v, f + "=" + value, ts,
                  m, map[k := v], FieldMap(f, TypeValue(value)));
  }
}
