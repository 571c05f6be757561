/** The lines of TestEscaping1 and TestEscaping2 in
    pkg/influx/InfluxLineProtocolParser_test.go, each parsed to the point
    the test expects, and each test's input parsed to its list of points. */
module LineProtocolEscapeTests {
  import opened Errors
  import opened Text
  import opened Points
  import opened LineProtocol
  import opened LineProtocolProps
  import opened LineProtocolEscapes
  import opened LineProtocolEscapedLines
  import opened LineProtocolTestLines


  // ---------------------------------------------------------------------
  // Timestamps

  lemma ScanJoin(a: string, b: string, acc: nat, n: nat, m: nat)
    requires ScanUint(a, acc) == Value(n) && ScanUint(b, n) == Value(m)
    ensures ScanUint(a + b, acc) == Value(m)
  {
    ScanAppend(a, b, acc);
  }

  lemma TimestampOfScan(s: string, n: nat, now: int)
    requires |s| > 0 && IsDigit(s[0]) && ScanUint(s, 0) == Value(n) && n <= MaxInt64
    ensures ParseTimestamp(s, now) == n
  {
    assert SignSplit(s) == (false, s);
  }

  lemma ScanFirst()
    ensures ScanUint("14658", 0) == Value(14658)
  {
  }

  lemma ScanSecond()
    ensures ScanUint("39830", 14658) == Value(1465839830)
  {
  }

  lemma ScanThird()
    ensures ScanUint("10040", 1465839830) == Value(146583983010040)
  {
  }

  lemma ScanLast()
    ensures ScanUint("0200", 146583983010040) == Value(1465839830100400200)
    ensures ScanUint("0201", 146583983010040) == Value(1465839830100400201)
  {
  }

  lemma ScanInit()
    ensures ScanUint("14658" + "39830" + "10040", 0) == Value(146583983010040)
  {
    ScanFirst();
    ScanSecond();
    ScanThird();
    ScanJoin("14658", "39830", 0, 14658, 1465839830);
    ScanJoin("14658" + "39830", "10040", 0, 1465839830, 146583983010040);
  }

  lemma TimestampDigits()
    ensures "1465839830100400200" == "14658" + "39830" + "10040" + "0200"
    ensures "1465839830100400201" == "14658" + "39830" + "10040" + "0201"
  {
  }

  /** The nanosecond timestamps of the test lines. */
  lemma TestTimestamps(now: int)
    ensures ParseTimestamp("1465839830100400200", now) == 1465839830100400200
    ensures ParseTimestamp("1465839830100400201", now) == 1465839830100400201
  {
    TimestampDigits();
    ScanInit();
    ScanLast();
    var init := "14658" + "39830" + "10040";
    ScanJoin(init, "0200", 0, 146583983010040, 1465839830100400200);
    ScanJoin(init, "0201", 0, 146583983010040, 1465839830100400201);
    TimestampOfScan("1465839830100400200", 1465839830100400200, now);
    TimestampOfScan("1465839830100400201", 1465839830100400201, now);
  }

  // ---------------------------------------------------------------------
  // Written texts
  //
  // Each lemma takes the set of escaped characters as a parameter, with
  // only what it needs of that set, so that its text is reasoned about
  // symbolically rather than computed.

  /** Text without special characters is written as it is. */
  lemma PlainText(s: string, es: set<char>)
    requires EscapeSet(es)
    requires ' ' !in s && ',' !in s && '=' !in s && '"' !in s && '\\' !in s
    ensures Escaped(s, es) == s
  {
    EscapedPlain(s, es);
  }

  /** Text without the quote and equals sign is written as it is in a
      quoted string that escapes no more than those. */
  lemma PlainString(s: string, es: set<char>)
    requires es <= {'"', '='} && '"' !in s && '=' !in s
    ensures Escaped(s, es) == s
  {
    EscapedPlain(s, es);
  }

  /** Plain text, an escaped character and the rest. */
  lemma EscapedStep(a: string, x: char, rest: string, es: set<char>, erest: string)
    requires x in es && Escaped(a, es) == a && Escaped(rest, es) == erest
    ensures Escaped(a + [x] + rest, es) == a + ['\\', x] + erest
  {
    assert a + [x] + rest == a + ([x] + rest);
    EscapedConcat(a, [x] + rest, es);
    EscapedConcat([x], rest, es);
    assert Escaped([x], es) == ['\\', x] + Escaped([], es);
  }

  /** Two plain texts around an escaped equals sign. */
  lemma WrittenAroundEqual(a: string, b: string, es: set<char>)
    requires '=' in es && Escaped(a, es) == a && Escaped(b, es) == b
    ensures Escaped(a + "=" + b, es) == a + "\\=" + b
  {
    EscapedStep(a, '=', b, es, b);
  }

  /** Every special character is escaped by the writer of names. */
  lemma AllSpecialsEscaped()
    ensures EscapeSet(AllSpecials)
    ensures ' ' in AllSpecials && ',' in AllSpecials && '=' in AllSpecials
    ensures '"' in AllSpecials && '\\' in AllSpecials
  {
  }

  lemma WrittenWeatHer(es: set<char>)
    requires EscapeSet(es) && '=' in es
    ensures Escaped("weat=her", es) == "weat\\=her"
  {
    PlainPieces1();
    Escaping2Texts();
    PlainText("weat", es);
    PlainText("her", es);
    WrittenAroundEqual("weat", "her", es);
  }

  lemma WrittenPlainNames(es: set<char>)
    requires EscapeSet(es)
    ensures Escaped("location", es) == "location"
    ensures Escaped("us-midwest", es) == "us-midwest"
    ensures Escaped("temperature", es) == "temperature"
    ensures Escaped("temperature_string", es) == "temperature_string"
  {
    PlainPieces5();
    PlainPieces6();
    PlainPieces7();
    PlainPieces8();
    PlainText("location", es);
    PlainText("us-midwest", es);
    PlainText("temperature", es);
    PlainText("temperature_string", es);
  }

  lemma WrittenEqualNames(es: set<char>)
    requires EscapeSet(es) && '=' in es
    ensures Escaped("loc=ation", es) == "loc\\=ation"
    ensures Escaped("us-mi=dwest", es) == "us-mi\\=dwest"
    ensures Escaped("temp=erature_string", es) == "temp\\=erature_string"
  {
    PlainPieces3();
    PlainPieces8();
    PlainPieces9();
    PlainPieces10();
    Escaping2Texts();
    PlainText("loc", es);
    PlainText("ation", es);
    WrittenAroundEqual("loc", "ation", es);
    PlainText("us-mi", es);
    PlainText("dwest", es);
    WrittenAroundEqual("us-mi", "dwest", es);
    PlainText("temp", es);
    PlainText("erature_string", es);
    WrittenAroundEqual("temp", "erature_string", es);
  }

  lemma WrittenTempHot(es: set<char>)
    requires es <= {'"', '='}
    ensures Escaped("temp: hot", es) == "temp: hot"
  {
    PlainStringPieces();
    PlainString("temp: hot", es);
  }

  lemma WrittenTempEqualHot(es: set<char>)
    requires es <= {'"', '='} && '=' in es
    ensures Escaped("temp=hot", es) == "temp\\=hot"
  {
    PlainStringPieces();
    Escaping2Texts();
    PlainString("temp", es);
    PlainString("hot", es);
    WrittenAroundEqual("temp", "hot", es);
  }

  lemma WrittenMeasurement1(es: set<char>)
    requires EscapeSet(es) && ' ' in es && ',' in es
    ensures Escaped("weat,he r", es) == "weat\\,he\\ r"
  {
    PlainPieces1();
    PlainPieces2();
    Escaping1aTexts();
    PlainText("r", es);
    PlainText("he", es);
    PlainText("weat", es);
    EscapedStep("he", ' ', "r", es, "r");
    EscapedStep("weat", ',', "he" + [' '] + "r", es, "he" + ['\\', ' '] + "r");
  }

  lemma WrittenTagKey1(es: set<char>)
    requires EscapeSet(es) && ' ' in es && ',' in es && '"' in es
    ensures Escaped("loc\"ation, ", es) == "loc\\\"ation\\,\\ "
  {
    PlainPieces3();
    PlainPieces11();
    Escaping1aTexts();
    PlainText("", es);
    PlainText("ation", es);
    PlainText("loc", es);
    EscapedStep("", ' ', "", es, "");
    var e1 := [] + ['\\', ' '] + [];
    EscapedStep("ation", ',', [] + [' '] + [], es, e1);
    EscapedStep("loc", '"', "ation" + [','] + ([] + [' '] + []), es, "ation" + ['\\', ','] + e1);
  }

  lemma WrittenTagValue1(es: set<char>)
    requires EscapeSet(es) && ' ' in es && '"' in es
    ensures Escaped("us mid\"west", es) == "us\\ mid\\\"west"
  {
    PlainPieces4();
    PlainPieces5();
    Escaping1aTexts();
    PlainText("west", es);
    PlainText("mid", es);
    PlainText("us", es);
    EscapedStep("mid", '"', "west", es, "west");
    EscapedStep("us", ' ', "mid" + ['"'] + "west", es, "mid" + ['\\', '"'] + "west");
  }

  lemma WrittenString1(es: set<char>)
    requires es <= {'"', '='} && '"' in es
    ensures Escaped("hot, really \"hot\"!", es) == "hot, really \\\"hot\\\"!"
  {
    PlainStringPieces();
    Escaping1aTexts();
    PlainString("!", es);
    PlainString("hot", es);
    PlainString("hot, really ", es);
    EscapedStep("hot", '"', "!", es, "!");
    EscapedStep("hot, really ", '"', "hot" + ['"'] + "!", es, "hot" + ['\\', '"'] + "!");
  }

  // ---------------------------------------------------------------------
  // Field values

  /** Text without digits that is not a special float word by its length. */
  lemma TextValue(v: string)
    requires |v| > 0 && v[0] != '-' && v[0] != '+' && |v| != 3 && |v| != 8
    requires '0' !in v && '1' !in v && '2' !in v && '3' !in v && '4' !in v
    requires '5' !in v && '6' !in v && '7' !in v && '8' !in v && '9' !in v
    ensures TypeValue(v) == Ok(Str(v))
  {
    forall i | 0 <= i < |v|
      ensures !IsDigit(v[i])
    {
      assert v[i] in v;
    }
    assert SignSplit(v).1 == v;
    TypeValueOfText(v);
  }

  lemma TextValueTempHot()
    ensures TypeValue("temp=hot") == Ok(Str("temp=hot"))
  {
    var v := "temp=hot";
    assert SignSplit(v).1 == v;
    assert Lower(v[0]) != Lower("infinity"[0]);
    assert !IsSpecialFloat(v);
    TypeValueOfText(v);
  }

  lemma IntValue82()
    ensures TypeValue("82") == Ok(Int(82))
  {
    assert IntToString(82) == "82" by {
      assert NatToString(8) == "8";
    }
    TypeValueOfInteger(82);
  }

  /** The values of the test lines typed. */
  lemma TestValues()
    ensures TypeValue("82") == Ok(Int(82))
    ensures TypeValue("hot, really \"hot\"!") == Ok(Str("hot, really \"hot\"!"))
    ensures TypeValue("temp: hot") == Ok(Str("temp: hot"))
    ensures TypeValue("temp=hot") == Ok(Str("temp=hot"))
  {
    IntValue82();
    DigitlessString1();
    DigitlessString1Part1();
    DigitlessString1Part2();
    DigitlessString1Part3();
    DigitlessString1Part4();
    TextValue("hot, really \"hot\"!");
    DigitlessTempHot();
    TextValue("temp: hot");
    TextValueTempHot();
  }

  // ---------------------------------------------------------------------
  // A line parsed to a given point

  /** A quoted-string line whose texts hold no backslash parses to them. */
  lemma StringLineParsed(line: string, m: string, k: string, v: string, f: string,
                         c: string, esq: set<char>, ts: string, now: int, value: FieldValue, t: int)
    requires line == EscapedStringLine(m, k, v, f, c, esq, ts)
    requires 'E' !in m && '\n' !in m && '\\' !in m && 'E' !in k && '\n' !in k && '\\' !in k
    requires 'E' !in v && '\n' !in v && '\\' !in v && 'E' !in f && '\n' !in f && '\\' !in f
    requires 'E' !in c && '\n' !in c && '\\' !in c
    requires esq <= {'=', '"'} && '"' in esq
    requires ' ' !in ts && '\n' !in ts && '\\' !in ts
    requires TypeValue(c) == Ok(value) && ParseTimestamp(ts, now) == t
    ensures ParsedPoint(line, now) == Ok(Point(m, map[f := value], map[k := v], t))
  {
    UnwrittenText(m);
    UnwrittenText(k);
    UnwrittenText(v);
    UnwrittenText(f);
    UnwrittenText(c);
    UnwrittenEscapable(c, esq);
    ReplaceAllAbsent(m, "\\", EscapedBackslash);
    EscapedStringLineRoundTrip(m, k, v, f, c, esq, ts, now);
  }

  /** The same for a line with an unquoted field before the quoted string. */
  lemma TwoFieldLineParsed(line: string, m: string, k: string, v: string, f1: string, value: string,
                           f2: string, c: string, esq: set<char>, ts: string, now: int,
                           v1: FieldValue, v2: FieldValue, t: int)
    requires line == EscapedTwoFieldLine(m, k, v, f1, value, f2, c, esq, ts)
    requires 'E' !in m && '\n' !in m && '\\' !in m && 'E' !in k && '\n' !in k && '\\' !in k
    requires 'E' !in v && '\n' !in v && '\\' !in v && 'E' !in f1 && '\n' !in f1 && '\\' !in f1
    requires 'E' !in f2 && '\n' !in f2 && '\\' !in f2 && 'E' !in c && '\n' !in c && '\\' !in c
    requires '\\' !in value && '\n' !in value && '"' !in value
    requires '_' !in value && '=' !in value && ',' !in value
    requires esq <= {'=', '"'} && '"' in esq
    requires ' ' !in ts && '\n' !in ts && '\\' !in ts
    requires TypeValue(value) == Ok(v1) && TypeValue(c) == Ok(v2) && ParseTimestamp(ts, now) == t
    ensures ParsedPoint(line, now) == Ok(Point(m, map[f1 := v1, f2 := v2], map[k := v], t))
  {
    UnwrittenText(m);
    UnwrittenText(k);
    UnwrittenText(v);
    UnwrittenText(f1);
    UnwrittenText(f2);
    UnwrittenText(c);
    UnwrittenEscapable(c, esq);
    ReplaceAllAbsent(m, "\\", EscapedBackslash);
    EscapedTwoFieldLineRoundTrip(m, k, v, f1, value, f2, c, esq, ts, now);
  }

  /** The same for a line without escapes whose names hold double quotes. */
  lemma QuotedNamesParsed(line: string, m: string, k: string, v: string, f: string, value: string,
                          ts: string, now: int, fv: FieldValue, t: int)
    requires line == QuotedNamesLine(m, k, v, f, value, ts)
    requires '\\' !in m && '\\' !in k && '\\' !in v && '\\' !in f && '\\' !in value && '\\' !in ts
    requires '\n' !in m && '\n' !in k && '\n' !in v && '\n' !in f && '\n' !in value && '\n' !in ts
    requires ' ' !in m && ' ' !in k && ' ' !in v && ' ' !in ts
    requires 'E' !in m && 'E' !in k && 'E' !in v && 'E' !in f
    requires ',' !in m && ',' !in k && ',' !in v && ',' !in f && ',' !in value
    requires '=' !in k && '=' !in v && '=' !in f && '=' !in value && '_' !in value
    requires '"' !in value && |f| > 0 && f[0] == '"'
    requires TypeValue(value) == Ok(fv) && ParseTimestamp(ts, now) == t
    ensures ParsedPoint(line, now) == Ok(Point(m, map[f := fv], map[k := v], t))
  {
    QuotedNamesRoundTrip(m, k, v, f, value, ts, now);
  }

  // ---------------------------------------------------------------------
  // TestEscaping1, first line: every kind of escape

  const M1: string := "weat,he r"
  const K1: string := "loc\"ation, "
  const V1: string := "us mid\"west"
  const C1: string := "hot, really \"hot\"!"

  lemma Escaping1aWritten()
    ensures Escaping1a == EscapedTwoFieldLine(M1, K1, V1, "temperature", "82", "temperature_string",
                                              C1, {'"'}, "1465839830100400200")
  {
    Escaping1aPieces();
    AllSpecialsEscaped();
    WrittenMeasurement1(AllSpecials);
    WrittenTagKey1(AllSpecials);
    WrittenTagValue1(AllSpecials);
    WrittenPlainNames(AllSpecials);
    WrittenString1({'"'});
  }

  /** The first line of TestEscaping1. */
  lemma Escaping1aParsed(now: int)
    ensures ParsedPoint(Escaping1a, now) ==
      Ok(Point("weat,he r", map["temperature" := Int(82), "temperature_string" := Str("hot, really \"hot\"!")],
               map["loc\"ation, " := "us mid\"west"], 1465839830100400200))
  {
    TestTexts1();
    TestTexts2();
    TestTexts3();
    TestTexts4();
    TestTexts5();
    TestTexts6();
    TestTexts9();
    TestTexts10();
    Escaping1aWritten();
    TestValueTexts();
    TestValues();
    TestTimestamps(now);
    TwoFieldLineParsed(Escaping1a, M1, K1, V1, "temperature", "82", "temperature_string",
                       C1, {'"'}, "1465839830100400200", now, Int(82), Str(C1), 1465839830100400200);
  }

  // ---------------------------------------------------------------------
  // TestEscaping1, second line: quotes without escapes

  /** The second line of TestEscaping1. */
  lemma Escaping1bParsed(now: int)
    ensures ParsedPoint(Escaping1b, now) ==
      Ok(Point("\"weather\"", map["\"temperature\"" := Int(82)],
               map["\"location\"" := "\"us-midwest\""], 1465839830100400200))
  {
    TestTexts6();
    TestTexts7();
    TestTexts8();
    TestTexts9();
    TestTexts10();
    Escaping1bPieces();
    Escaping1bNames();
    TestValueTexts();
    TestValues();
    TestTimestamps(now);
    QuotedNamesParsed(Escaping1b, "\"weather\"", "\"location\"", "\"us-midwest\"", "\"temperature\"", "82",
                      "1465839830100400200", now, Int(82), 1465839830100400200);
  }

  // ---------------------------------------------------------------------
  // TestEscaping2

  lemma Escaping2aWritten()
    ensures Escaping2a == EscapedStringLine("weat=her", "location", "us-midwest", "temperature_string",
                                            "temp: hot", {'"'}, "1465839830100400200")
  {
    Escaping2aPieces();
    AllSpecialsEscaped();
    WrittenWeatHer(AllSpecials);
    WrittenPlainNames(AllSpecials);
    WrittenTempHot({'"'});
  }

  /** The first line of TestEscaping2: an escaped equals sign in the measurement. */
  lemma Escaping2aParsed(now: int)
    ensures ParsedPoint(Escaping2a, now) ==
      Ok(Point("weat=her", map["temperature_string" := Str("temp: hot")],
               map["location" := "us-midwest"], 1465839830100400200))
  {
    TestTexts4();
    TestTexts10();
    TestTexts11();
    TestTexts12();
    Escaping2aWritten();
    TestValueTexts();
    TestValues();
    TestTimestamps(now);
    StringLineParsed(Escaping2a, "weat=her", "location", "us-midwest", "temperature_string",
                     "temp: hot", {'"'}, "1465839830100400200", now, Str("temp: hot"), 1465839830100400200);
  }

  lemma Escaping2bWritten()
    ensures Escaping2b == EscapedStringLine("weat=her", "loc=ation", "us-mi=dwest", "temp=erature_string",
                                            "temp=hot", {'"', '='}, "1465839830100400201")
  {
    Escaping2bPieces();
    AllSpecialsEscaped();
    WrittenWeatHer(AllSpecials);
    WrittenEqualNames(AllSpecials);
    WrittenTempEqualHot({'"', '='});
  }

  /** The second line of TestEscaping2: escaped equals signs everywhere,
      a quoted string included. */
  lemma Escaping2bParsed(now: int)
    ensures ParsedPoint(Escaping2b, now) ==
      Ok(Point("weat=her", map["temp=erature_string" := Str("temp=hot")],
               map["loc=ation" := "us-mi=dwest"], 1465839830100400201))
  {
    TestTexts11();
    TestTexts13();
    TestTexts14();
    TestTexts15();
    TestTexts16();
    Escaping2bWritten();
    TestValueTexts();
    TestValues();
    TestTimestamps(now);
    StringLineParsed(Escaping2b, "weat=her", "loc=ation", "us-mi=dwest", "temp=erature_string",
                     "temp=hot", {'"', '='}, "1465839830100400201", now, Str("temp=hot"), 1465839830100400201);
  }


  // ---------------------------------------------------------------------
  // The inputs of the tests: two lines joined by a line break

  /** Two lines that parse, joined by a line break, parse to their two points. */
  lemma TwoLinesParsed(a: string, b: string, now: int, pa: Point, pb: Point)
    requires '\r' !in a && '\r' !in b && '\n' !in a && '\n' !in b
    requires |a| > 0 && a[0] != '#' && |b| > 0 && b[0] != '#'
    requires ParsedPoint(a, now) == Ok(pa) && ParsedPoint(b, now) == Ok(pb)
    ensures Parsed(a + "\n" + b, now) == Ok([pa, pb])
  {
    var input := a + "\n" + b;
    ReplaceCharByEmpty(input, '\r');
    ReplaceAllAbsent(input, "\r", "");
    SplitPair(a, b, '\n');
    assert Lines(input) == [a, b];
    TwoLinesOfParse([a, b], now, pa, pb);
  }

  /** The line loop over two lines that parse. */
  lemma TwoLinesOfParse(lines: seq<string>, now: int, pa: Point, pb: Point)
    requires |lines| == 2 && !Skipped(lines[0]) && !Skipped(lines[1])
    requires ParsedPoint(lines[0], now) == Ok(pa) && ParsedPoint(lines[1], now) == Ok(pb)
    ensures ParsedLines(lines, now) == Ok([pa, pb])
  {
    assert lines[..0] == [];
    ParsedLinesStep(lines, 0, now, []);
    assert [] + [pa] == [pa];
    ParsedLinesStep(lines, 1, now, [pa]);
    assert [pa] + [pb] == [pa, pb];
    assert lines[..2] == lines;
  }

  /** The input of TestEscaping1 parses to the points of its two lines. */
  lemma Escaping1Input(now: int, pa: Point, pb: Point)
    requires ParsedPoint(Escaping1a, now) == Ok(pa) && ParsedPoint(Escaping1b, now) == Ok(pb)
    ensures Parsed(Escaping1a + "\n" + Escaping1b, now) == Ok([pa, pb])
  {
    Return1a();
    Break1a();
    First1a();
    Return1b();
    Break1b();
    First1b();
    TwoLinesParsed(Escaping1a, Escaping1b, now, pa, pb);
  }

  /** TestEscaping1: its two lines joined and parsed. */
  lemma TestEscaping1(now: int)
    ensures Parsed(Escaping1a + "\n" + Escaping1b, now) ==
      Ok([Point("weat,he r", map["temperature" := Int(82), "temperature_string" := Str("hot, really \"hot\"!")],
                map["loc\"ation, " := "us mid\"west"], 1465839830100400200),
          Point("\"weather\"", map["\"temperature\"" := Int(82)],
                map["\"location\"" := "\"us-midwest\""], 1465839830100400200)])
  {
    Escaping1aParsed(now);
    Escaping1bParsed(now);
    Escaping1Input(now,
      Point("weat,he r", map["temperature" := Int(82), "temperature_string" := Str("hot, really \"hot\"!")],
            map["loc\"ation, " := "us mid\"west"], 1465839830100400200),
      Point("\"weather\"", map["\"temperature\"" := Int(82)],
            map["\"location\"" := "\"us-midwest\""], 1465839830100400200));
  }

  /** The input of TestEscaping2 parses to the points of its two lines. */
  lemma Escaping2Input(now: int, pa: Point, pb: Point)
    requires ParsedPoint(Escaping2a, now) == Ok(pa) && ParsedPoint(Escaping2b, now) == Ok(pb)
    ensures Parsed(Escaping2a + "\n" + Escaping2b, now) == Ok([pa, pb])
  {
    Return2a();
    Break2a();
    First2a();
    Return2b();
    Break2b();
    First2b();
    TwoLinesParsed(Escaping2a, Escaping2b, now, pa, pb);
  }

  /** TestEscaping2: its two lines joined and parsed. */
  lemma TestEscaping2(now: int)
    ensures Parsed(Escaping2a + "\n" + Escaping2b, now) ==
      Ok([Point("weat=her", map["temperature_string" := Str("temp: hot")],
                map["location" := "us-midwest"], 1465839830100400200),
          Point("weat=her", map["temp=erature_string" := Str("temp=hot")],
                map["loc=ation" := "us-mi=dwest"], 1465839830100400201)])
  {
    Escaping2aParsed(now);
    Escaping2bParsed(now);
    Escaping2Input(now,
      Point("weat=her", map["temperature_string" := Str("temp: hot")],
            map["location" := "us-midwest"], 1465839830100400200),
      Point("weat=her", map["temp=erature_string" := Str("temp=hot")],
            map["loc=ation" := "us-mi=dwest"], 1465839830100400201));
  }
}
