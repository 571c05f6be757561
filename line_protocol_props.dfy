/** What pkg/influx/InfluxLineProtocolParser.go promises, proved about the
    specification functions of module LineProtocol. */
module LineProtocolProps {
  import opened Errors
  import opened Text
  import opened Points
  import opened LineProtocol

  // ---------------------------------------------------------------------
  // Parse: lines, skipping, order, failing fast

  /** The lines Parse does not skip, in input order. */
  function Kept(lines: seq<string>): seq<string>
    decreases |lines|
  {
    if |lines| == 0 then []
    else
      var last := lines[|lines| - 1];
      Kept(lines[..|lines| - 1]) + (if Skipped(last) then [] else [last])
  }

  /** The kept lines are exactly the lines that are neither empty nor comments. */
  lemma {:induction false} KeptLines(lines: seq<string>)
    ensures forall l :: l in Kept(lines) <==> l in lines && !Skipped(l)
    decreases |lines|
  {
    if |lines| > 0 {
      var init := lines[..|lines| - 1];
      KeptLines(init);
      assert lines == init + [lines[|lines| - 1]];
    }
  }

  /** `ParsedLines` with the per-line parser as a parameter, so that the
      ordering argument below does not depend on how a line is parsed. */
  function ParseEach(lines: seq<string>, parse: string -> Result<Point>): Result<seq<Point>>
    decreases |lines|
  {
    if |lines| == 0 then Ok([])
    else
      var last := lines[|lines| - 1];
      match ParseEach(lines[..|lines| - 1], parse)
      case Err(e) => Err(e)
      case Ok(ps) =>
        if Skipped(last) then Ok(ps)
        else
          match parse(last)
          case Err(e) => Err(e)
          case Ok(p) => Ok(ps + [p])
  }

  lemma {:induction false} ParsedLinesIsEach(lines: seq<string>, now: int)
    ensures ParsedLines(lines, now) == ParseEach(lines, l => ParsedPoint(l, now))
    decreases |lines|
  {
    if |lines| > 0 {
      ParsedLinesIsEach(lines[..|lines| - 1], now);
    }
  }

  /** The ordering argument for any per-line parser. */
  lemma {:induction false} EachInOrder(lines: seq<string>, parse: string -> Result<Point>)
    ensures ParseEach(lines, parse).Ok? <==>
      forall j | 0 <= j < |Kept(lines)| :: parse(Kept(lines)[j]).Ok?
    ensures ParseEach(lines, parse).Ok? ==>
      |ParseEach(lines, parse).value| == |Kept(lines)| &&
      forall j | 0 <= j < |Kept(lines)| ::
        parse(Kept(lines)[j]) == Ok(ParseEach(lines, parse).value[j])
    ensures ParseEach(lines, parse).Err? ==>
      exists j | 0 <= j < |Kept(lines)| ::
        parse(Kept(lines)[j]) == Err(ParseEach(lines, parse).error) &&
        forall i | 0 <= i < j :: parse(Kept(lines)[i]).Ok?
    decreases |lines|
  {
    if |lines| > 0 {
      var init := lines[..|lines| - 1];
      var last := lines[|lines| - 1];
      EachInOrder(init, parse);
      var k := Kept(init);
      assert Kept(lines) == k + (if Skipped(last) then [] else [last]);
      assert forall j | 0 <= j < |k| :: Kept(lines)[j] == k[j];
      if !Skipped(last) {
        assert Kept(lines)[|k|] == last;
      }
    }
  }

  /** Parse succeeds exactly when every kept line parses, and then returns
      their points, one per kept line and in line order.  When it fails, the
      error is that of the first kept line that does not parse. */
  lemma ParsedLinesInOrder(lines: seq<string>, now: int)
    ensures ParsedLines(lines, now).Ok? <==>
      forall j | 0 <= j < |Kept(lines)| :: ParsedPoint(Kept(lines)[j], now).Ok?
    ensures ParsedLines(lines, now).Ok? ==>
      |ParsedLines(lines, now).value| == |Kept(lines)| &&
      forall j | 0 <= j < |Kept(lines)| ::
        ParsedPoint(Kept(lines)[j], now) == Ok(ParsedLines(lines, now).value[j])
    ensures ParsedLines(lines, now).Err? ==>
      exists j | 0 <= j < |Kept(lines)| ::
        ParsedPoint(Kept(lines)[j], now) == Err(ParsedLines(lines, now).error) &&
        forall i | 0 <= i < j :: ParsedPoint(Kept(lines)[i], now).Ok?
  {
    var parse := l => ParsedPoint(l, now);
    ParsedLinesIsEach(lines, now);
    EachInOrder(lines, parse);
    assert forall l :: parse(l) == ParsedPoint(l, now);
  }

  /** The lines Parse works through hold no carriage return and no line
      break, and joined with line breaks they give the input without its
      carriage returns. */
  lemma LinesOfInput(input: string)
    ensures forall i | 0 <= i < |Lines(input)| :: '\r' !in Lines(input)[i] && '\n' !in Lines(input)[i]
    ensures Join(Lines(input), "\n") == RemoveChar(input, '\r')
  {
    var text := RemoveChar(input, '\r');
    ReplaceCharByEmpty(input, '\r');
    assert '\r' !in text;
    var lines := Lines(input);
    forall i | 0 <= i < |lines|
      ensures '\r' !in lines[i]
    {
      if '\r' in lines[i] {
        JoinKeepsChars(lines, "\n", i, '\r');
      }
    }
  }

  // ---------------------------------------------------------------------
  // Tokens

  /** The escape substitutions cannot bring in a space. */
  lemma EscapeKeepsNoSpace(line: string)
    requires ' ' !in line
    ensures ' ' !in Escape(line)
  {
    var l1 := ReplaceAll(line, "\\ ", EscapedSpace);
    ReplaceAllKeepsAbsentChar(line, "\\ ", EscapedSpace, ' ');
    var l2 := ReplaceAll(l1, "\\,", EscapedComma);
    ReplaceAllKeepsAbsentChar(l1, "\\,", EscapedComma, ' ');
    var l3 := ReplaceAll(l2, "\\=", EscapedEqual);
    ReplaceAllKeepsAbsentChar(l2, "\\=", EscapedEqual, ' ');
    var l4 := ReplaceAll(l3, "\\\"", EscapedDblQuote);
    ReplaceAllKeepsAbsentChar(l3, "\\\"", EscapedDblQuote, ' ');
    ReplaceAllKeepsAbsentChar(l4, "\\\\", EscapedBackslash, ' ');
  }

  /** A line without a space is "invalid number of tokens". */
  lemma NoSpaceIsInvalid(line: string, now: int)
    requires ' ' !in line
    ensures ParsedPoint(line, now) == Err(InvalidTokens)
  {
    EscapeKeepsNoSpace(line);
  }

  /** An input that is one line without a space fails as a whole. */
  lemma SpaceFreeInputFails(input: string, now: int)
    requires ' ' !in input && '\n' !in input && '\r' !in input && !Skipped(input)
    ensures Parsed(input, now) == Err(InvalidTokens)
  {
    ReplaceCharByEmpty(input, '\r');
    ReplaceAllAbsent(input, "\r", "");
    SplitAbsent(input, '\n');
    assert RemoveChar(input, '\r') == input;
    assert Lines(input) == [input];
    NoSpaceIsInvalid(input, now);
    assert [input][..0] == [];
    assert ParsedLines([input], now) == Err(InvalidTokens);
  }

  /** The input of the incorrect-string scenario is rejected. */
  lemma IncorrectStringFails(now: int)
    ensures Parsed("assafasfasfasfafa", now) == Err(InvalidTokens)
  {
    SpaceFreeInputFails("assafasfasfasfafa", now);
  }

  // ---------------------------------------------------------------------
  // Tags

  /** A tag piece is kept exactly when its restored text holds one '='. */
  lemma TagPieceKept(piece: string)
    ensures TagOf(piece).Some? <==> Count(RestoreTagPiece(piece), '=') == 1
  {
    SplitInTwo(RestoreTagPiece(piece), '=');
  }

  /** Every tag key comes from some kept piece. */
  lemma {:induction false} TagKeyFromPiece(pieces: seq<string>, k: string)
    requires k in TagsOf(pieces)
    ensures exists i | 0 <= i < |pieces| :: TagOf(pieces[i]).Some? && TagOf(pieces[i]).value.0 == k
    decreases |pieces|
  {
    var last := |pieces| - 1;
    if !(TagOf(pieces[last]).Some? && TagOf(pieces[last]).value.0 == k) {
      var init := pieces[..last];
      TagKeyFromPiece(init, k);
      var i :| 0 <= i < |init| && TagOf(init[i]).Some? && TagOf(init[i]).value.0 == k;
      assert pieces[i] == init[i];
    }
  }

  /** Every kept piece's key is a tag key. */
  lemma {:induction false} TagKeyOfPiece(pieces: seq<string>, i: nat)
    requires i < |pieces| && TagOf(pieces[i]).Some?
    ensures TagOf(pieces[i]).value.0 in TagsOf(pieces)
    decreases |pieces|
  {
    var last := |pieces| - 1;
    if i < last {
      var init := pieces[..last];
      assert init[i] == pieces[i];
      TagKeyOfPiece(init, i);
    }
  }

  /** The tag keys are the keys of the kept pieces. */
  lemma TagsOfKeys(pieces: seq<string>)
    ensures forall k :: k in TagsOf(pieces) <==>
      exists i | 0 <= i < |pieces| :: TagOf(pieces[i]).Some? && TagOf(pieces[i]).value.0 == k
  {
    forall k
      ensures k in TagsOf(pieces) <==>
        exists i | 0 <= i < |pieces| :: TagOf(pieces[i]).Some? && TagOf(pieces[i]).value.0 == k
    {
      if k in TagsOf(pieces) {
        TagKeyFromPiece(pieces, k);
      }
      if exists i | 0 <= i < |pieces| :: TagOf(pieces[i]).Some? && TagOf(pieces[i]).value.0 == k {
        var i :| 0 <= i < |pieces| && TagOf(pieces[i]).Some? && TagOf(pieces[i]).value.0 == k;
        TagKeyOfPiece(pieces, i);
      }
    }
  }

  /** A key takes the value of the last kept piece that carries it. */
  lemma {:induction false} TagsOfLastWins(pieces: seq<string>, i: nat)
    requires i < |pieces| && TagOf(pieces[i]).Some?
    requires forall j | i < j < |pieces| ::
      TagOf(pieces[j]).None? || TagOf(pieces[j]).value.0 != TagOf(pieces[i]).value.0
    ensures TagOf(pieces[i]).value.0 in TagsOf(pieces)
    ensures TagsOf(pieces)[TagOf(pieces[i]).value.0] == TagOf(pieces[i]).value.1
    decreases |pieces|
  {
    var init := pieces[..|pieces| - 1];
    if i < |init| {
      assert init[i] == pieces[i];
      forall j | i < j < |init|
        ensures TagOf(init[j]).None? || TagOf(init[j]).value.0 != TagOf(init[i]).value.0
      {
        assert init[j] == pieces[j];
      }
      TagsOfLastWins(init, i);
    }
  }

  // ---------------------------------------------------------------------
  // Quoted strings

  lemma PlaceholderHasNoQuote(n: nat)
    ensures '"' !in Placeholder(n)
  {
    NatToStringDigits(n);
    assert '"' !in StringPrefix && '"' !in StringSuffix;
    assert forall i | 0 <= i < |NatToString(n)| :: NatToString(n)[i] != '"';
  }

  /** Count of a character over text split at two points. */
  lemma CountThree(a: string, b: string, c: string, x: char)
    ensures Count(a + b + c, x) == Count(a, x) + Count(b, x) + Count(c, x)
  {
    CountConcat(a + b, c, x);
    CountConcat(a, b, x);
  }

  /** No double quote lies between `from` and the next one NextQuote finds. */
  lemma {:induction false} NextQuoteSkips(s: string, from: nat)
    requires from <= |s|
    ensures Count(s[from..NextQuote(s, from)], '"') == 0
    decreases |s| - from
  {
    var r := NextQuote(s, from);
    if r > from {
      NextQuoteSkips(s, from + 1);
      assert s[from..r] == [s[from]] + s[from + 1..r];
    }
  }

  /** The count over a suffix, cut around the character at `p`. */
  lemma CountAround(s: string, from: nat, p: nat, c: char)
    requires from <= p < |s| && s[p] == c
    ensures Count(s[from..], c) == Count(s[from..p], c) + 1 + Count(s[p + 1..], c)
  {
    assert s[from..] == s[from..p] + [s[p]] + s[p + 1..];
    CountThree(s[from..p], [s[p]], s[p + 1..], c);
  }

  /** The two quotes of a run and the quote-free text around them. */
  lemma CountRunStep(s: string, from: nat, p: nat, q: nat, ph: string, tail: string)
    requires from <= p < q < |s| && s[p] == '"' && s[q] == '"'
    requires Count(s[from..p], '"') == 0 && Count(s[p + 1..q], '"') == 0 && Count(ph, '"') == 0
    ensures Count(s[from..], '"') == 2 + Count(s[q + 1..], '"')
    ensures Count(s[from..p] + ph + tail, '"') == Count(tail, '"')
  {
    CountAround(s, from, p, '"');
    CountAround(s, p + 1, q, '"');
    CountThree(s[from..p], ph, tail, '"');
  }

  /** Where RunFrom finds a run, and why it finds none. */
  lemma RunFromShape(s: string, from: nat)
    requires from <= |s|
    ensures RunFrom(s, from).Run? ==>
      RunFrom(s, from).open == NextQuote(s, from) &&
      RunFrom(s, from).close == NextQuote(s, NextQuote(s, from) + 1)
    ensures RunFrom(s, from).NoRun? ==>
      NextQuote(s, from) == |s| || NextQuote(s, NextQuote(s, from) + 1) == |s|
  {
  }

  /** When nothing is found there is at most one quote left. */
  lemma CountNoRun(s: string, from: nat)
    requires from <= |s| && RunFrom(s, from).NoRun?
    ensures Count(s[from..], '"') <= 1
  {
    RunFromShape(s, from);
    var p := NextQuote(s, from);
    NextQuoteSkips(s, from);
    if p == |s| {
      assert s[from..p] == s[from..];
    } else {
      var q := NextQuote(s, p + 1);
      NextQuoteSkips(s, p + 1);
      CountAround(s, from, p, '"');
      assert s[p + 1..q] == s[p + 1..];
    }
  }

  /** Every pair of double quotes from `from` on is one quoted run, and what
      the cut leaves holds at most one double quote. */
  lemma {:induction false} CutFromQuotes(s: string, from: nat, cnt: nat)
    requires from <= |s|
    ensures Count(s[from..], '"') == 2 * MatchesFrom(s, from) + Count(CutFrom(s, from, cnt), '"')
    ensures Count(CutFrom(s, from, cnt), '"') <= 1
    decreases |s| - from
  {
    var run := RunFrom(s, from);
    if run.NoRun? {
      CountNoRun(s, from);
      CutFromEnd(s, from, cnt);
    } else {
      CutFromQuotes(s, run.close + 1, cnt + 1);
      RunQuotes(s, from, run.open, run.close, cnt);
    }
  }

  /** One quoted run takes two double quotes out of the text and puts none
      into the cut. */
  lemma RunQuotes(s: string, from: nat, open: nat, close: nat, cnt: nat)
    requires from <= |s| && RunFrom(s, from) == Run(open, close)
    ensures Count(s[from..], '"') == 2 + Count(s[close + 1..], '"')
    ensures Count(CutFrom(s, from, cnt), '"') == Count(CutFrom(s, close + 1, cnt + 1), '"')
    ensures MatchesFrom(s, from) == 1 + MatchesFrom(s, close + 1)
  {
    RunFromShape(s, from);
    NextQuoteSkips(s, from);
    NextQuoteSkips(s, open + 1);
    PlaceholderHasNoQuote(cnt);
    CountAbsent(Placeholder(cnt), '"');
    var tail := CutFrom(s, close + 1, cnt + 1);
    CountRunStep(s, from, open, close, Placeholder(cnt), tail);
    CutFromStep(s, from, open, close, cnt);
    MatchesStep(s, from, open, close);
  }

  /** The quoted-string cut of a field segment: when the segment does not
      start with a double quote, there is one recorded string per pair of
      double quotes, each equal to the first run's capture, and at most one
      double quote is left; a segment that starts with one is left alone. */
  lemma QuotedSegment(seg: string)
    ensures IndexOf(seg, '"') == 0 ==> Quoted(seg) == (seg, [])
    ensures IndexOf(seg, '"') != 0 ==>
      var (cut, strs) := Quoted(seg);
      && |strs| == Count(seg, '"') / 2
      && (forall i | 0 <= i < |strs| :: strs[i] == FirstCapture(seg))
      && Count(cut, '"') <= 1
  {
    CutFromQuotes(seg, 0, 0);
    RepeatContents(FirstCapture(seg), MatchCount(seg));
    assert seg[0..] == seg;
  }

  // ---------------------------------------------------------------------
  // Field values

  /** The digit run of a numeral followed by a non-digit is the numeral. */
  lemma {:induction false} DigitRunOfNumeral(d: string, t: string)
    requires AllDigits(d) && (|t| == 0 || !IsDigit(t[0]))
    ensures DigitRun(d + t) == |d|
    decreases |d|
  {
    if |d| == 0 {
      assert d + t == t;
    } else {
      assert (d + t)[0] == d[0] && (d + t)[1..] == d[1..] + t;
      DigitRunOfNumeral(d[1..], t);
    }
  }

  /** Text without digits holds no digit run with an integer marker. */
  lemma {:induction false} NoDigitsNoSuffix(s: string)
    requires forall i | 0 <= i < |s| :: !IsDigit(s[i])
    ensures SuffixedDigits(s) == None
    decreases |s|
  {
    if |s| > 0 {
      NoDigitsNoSuffix(s[1..]);
    }
  }

  /** Text that starts with a digit is none of ParseFloat's special words. */
  lemma DigitFirstNotSpecial(s: string)
    requires |s| > 0 && IsDigit(s[0])
    ensures !IsSpecialFloat(s)
  {
    assert Lower(s[0]) == s[0];
    assert SignSplit(s) == (false, s);
  }

  /** A numeral followed by an integer marker is no float literal. */
  lemma MarkedNumeralNotFloat(d: string, m: char)
    requires |d| > 0 && AllDigits(d) && (m == 'i' || m == 'u')
    ensures !IsDecimalFloat(d + [m])
  {
    var s := d + [m];
    var k := ExponentAt(s);
    assert forall i | 0 <= i < |s| :: s[i] != 'e' && s[i] != 'E' by {
      assert forall i | 0 <= i < |d| :: s[i] == d[i];
    }
    assert k == |s|;
    assert s[..k] == s;
    assert s[|s| - 1] == m;
  }

  /** Atoi's values are typed as int. */
  lemma TypeValueOfInteger(n: int)
    requires MinInt64 <= n <= MaxInt64
    ensures TypeValue(IntToString(n)) == Ok(Int(n))
  {
    AtoiOfIntToString(n);
  }

  /** A numeral with an `i` or `u` marker is typed int64, or is a range error
      when it does not fit in 64 bits. */
  lemma TypeValueOfMarkedNumeral(n: nat, m: char)
    requires m == 'i' || m == 'u'
    ensures TypeValue(NatToString(n) + [m]) ==
      if n <= MaxInt64 then Ok(Int64(n)) else Err(NumRange(NatToString(n)))
  {
    var d := NatToString(n);
    var s := d + [m];
    NatToStringDigits(n);
    assert s[0] == d[0];
    assert SignSplit(s) == (false, s);
    ScanStopsAtNonDigit(d, [m], 0);
    assert Atoi(s) == None;
    DigitFirstNotSpecial(s);
    MarkedNumeralNotFloat(d, m);
    DigitRunOfNumeral(d, [m]);
    assert s[|d|] == m && s[..|d|] == d;
    assert SuffixedDigits(s) == Some(d);
    AtoiOfNatToString(n);
  }

  /** A marked numeral's only integer reading is its digit run. */
  lemma MarkedNumeralSuffix(d: string, m: char)
    requires |d| > 0 && AllDigits(d) && (m == 'i' || m == 'u')
    ensures SuffixedDigits(d + [m]) == Some(d)
  {
    var s := d + [m];
    assert s[0] == d[0];
    DigitRunOfNumeral(d, [m]);
    assert s[|d|] == m && s[..|d|] == d;
  }

  /** Neither Atoi nor ParseFloat reads a numeral with a marker, signed or not. */
  lemma SignedMarkedNumeralUnread(d: string, m: char, s: string)
    requires |d| > 0 && AllDigits(d) && (m == 'i' || m == 'u')
    requires s == "-" + d + [m]
    ensures Atoi(s) == None && !IsFloatLiteral(s)
  {
    var body := d + [m];
    assert s[1..] == body;
    assert SignSplit(s) == (true, body);
    ScanStopsAtNonDigit(d, [m], 0);
    assert body[0] == d[0];
    assert Lower(s[0]) == '-';
    DigitFirstNotSpecial(body);
    MarkedNumeralNotFloat(d, m);
  }

  /** A minus sign before a marked numeral is dropped: "-5i" is int64 5. */
  lemma TypeValueDropsSignOfMarkedNumeral(n: nat, m: char)
    requires m == 'i' || m == 'u'
    ensures TypeValue("-" + NatToString(n) + [m]) ==
      if n <= MaxInt64 then Ok(Int64(n)) else Err(NumRange(NatToString(n)))
  {
    var d := NatToString(n);
    var s := "-" + d + [m];
    NatToStringDigits(n);
    SignedMarkedNumeralUnread(d, m, s);
    MarkedNumeralSuffix(d, m);
    assert s[1..] == d + [m];
    assert SuffixedDigits(s) == Some(d);
    AtoiOfNatToString(n);
  }

  /** The characters of a decimal with a fraction. */
  lemma DecimalShape(da: string, db: string)
    requires |da| > 0 && AllDigits(da) && AllDigits(db)
    ensures IsMantissa(da + "." + db)
    ensures ExponentAt(da + "." + db) == |da + "." + db|
  {
    var body := da + "." + db;
    forall i | 0 <= i < |body|
      ensures IsDigit(body[i]) || body[i] == '.'
    {
      if i < |da| {
        assert body[i] == da[i];
      } else if i > |da| {
        assert body[i] == db[i - |da| - 1];
      }
    }
    CountThree(da, ".", db, '.');
    CountAbsent(da, '.');
    CountAbsent(db, '.');
    assert IsDigit(body[0]);
  }

  /** A decimal with a fraction is a float literal that Atoi does not read. */
  lemma DecimalBody(da: string, db: string)
    requires |da| > 0 && AllDigits(da) && AllDigits(db)
    ensures IsDecimalFloat(da + "." + db)
    ensures !ParseUint(da + "." + db).Value?
  {
    var body := da + "." + db;
    DecimalShape(da, db);
    assert body[..|body|] == body;
    assert body == da + ("." + db);
    ScanStopsAtNonDigit(da, "." + db, 0);
  }

  /** Text whose unsigned part is a decimal float that Atoi cannot read is a float. */
  lemma FloatOfUnreadDecimal(s: string)
    requires IsDecimalFloat(SignSplit(s).1) && !ParseUint(SignSplit(s).1).Value?
    ensures TypeValue(s) == Ok(Float(s))
  {
    assert Atoi(s) == None;
  }

  /** A decimal with a fraction, signed or not, is typed float. */
  lemma TypeValueOfDecimal(sign: string, da: string, db: string)
    requires sign == "" || sign == "-"
    requires |da| > 0 && AllDigits(da) && AllDigits(db)
    ensures TypeValue(sign + da + "." + db) == Ok(Float(sign + da + "." + db))
  {
    var body := da + "." + db;
    var s := sign + da + "." + db;
    DecimalBody(da, db);
    assert body[0] == da[0];
    assert s == sign + body;
    if sign == "-" {
      assert s[1..] == body;
    }
    assert SignSplit(s).1 == body;
    FloatOfUnreadDecimal(s);
  }

  /** Text without digits that is not a special float word stays text. */
  lemma TypeValueOfText(v: string)
    requires forall i | 0 <= i < |v| :: !IsDigit(v[i])
    requires !IsSpecialFloat(v)
    ensures TypeValue(v) == Ok(Str(v))
  {
    var body := SignSplit(v).1;
    assert forall i | 0 <= i < |body| :: !IsDigit(body[i]) by {
      if |v| > 0 && (v[0] == '-' || v[0] == '+') {
        assert forall i | 0 <= i < |body| :: body[i] == v[i + 1];
      }
    }
    assert Atoi(v) == None;
    var k := ExponentAt(body);
    assert forall i | 0 <= i < k :: body[..k][i] == body[i];
    assert !IsMantissa(body[..k]);
    NoDigitsNoSuffix(v);
  }

  /** The timestamp: the caller's time when absent, the number when it is
      one, and 0 ns for text that is not a number. */
  lemma TimestampCases(text: string, t: int, now: int)
    ensures ParseTimestamp("", now) == now
    ensures MinInt64 <= t <= MaxInt64 ==> ParseTimestamp(IntToString(t), now) == t
    ensures |text| > 0 && !IsDigit(text[0]) && text[0] != '-' && text[0] != '+' ==>
      ParseTimestamp(text, now) == 0
  {
    if |text| > 0 && !IsDigit(text[0]) && text[0] != '-' && text[0] != '+' {
      AtoiIgnoringErrorOfNonNumeric(text);
    }
    if MinInt64 <= t <= MaxInt64 {
      AtoiOfIntToString(t);
      var m: nat := if t < 0 then -t else t;
      NatToStringDigits(m);
      assert |IntToString(t)| > 0;
    }
  }

  // ---------------------------------------------------------------------
  // Reinsertion and dropped pieces

  /** A value that is one placeholder gets the recorded string it names,
      and a number beyond the recorded strings panics. */
  lemma ReinsertPlaceholder(k: nat, strs: seq<string>)
    requires k <= MaxInt64
    ensures Reinsert(Placeholder(k), strs) ==
      if k < |strs| then Ok(strs[k]) else Err(Panic("index out of range"))
  {
    var d := NatToString(k);
    var s := Placeholder(k);
    NatToStringDigits(k);
    assert s[..|StringPrefix|] == StringPrefix;
    var rest := s[|StringPrefix|..];
    assert rest == d + StringSuffix;
    DigitRunOfNumeral(d, StringSuffix);
    assert rest[|d|..|d| + |StringSuffix|] == StringSuffix;
    assert rest[..|d|] == d;
    assert PlaceholderAt(s) == Some(d);
    assert FirstPlaceholder(s) == Some(d);
    AtoiOfIntToString(k);
    assert AtoiIgnoringError(d) == k;
    assert s[|StringPrefix| + |d| + |StringSuffix|..] == [];
    if k < |strs| {
      assert ReplacePlaceholders(s, strs[k]) == strs[k] + ReplacePlaceholders([], strs[k]);
      assert strs[k] + ReplacePlaceholders([], strs[k]) == strs[k];
      assert Reinsert(s, strs) == Ok(ReplacePlaceholders(s, strs[k]));
    }
  }

  /** A field piece is dropped exactly when its restored text does not hold
      exactly one '='. */
  lemma FieldPieceDropped(piece: string, strs: seq<string>)
    ensures FieldOf(piece, strs) == Ok(None) <==> Count(RestoreFieldPiece(piece), '=') != 1
  {
    SplitInTwo(RestoreFieldPiece(piece), '=');
  }

  // ---------------------------------------------------------------------
  // A plain line reads back as the point it writes

  /** Text that needs no escape and holds no sentinel: no space, comma,
      equals sign, backslash, double quote, underscore or line break. */
  predicate Plain(s: string)
  {
    forall i | 0 <= i < |s| :: s[i] !in " ,=\\\"_\n\r"
  }

  /** The simplest line: a measurement, one tag, one integer field and a
      timestamp. */
  function PlainLine(m: string, k: string, v: string, f: string, n: int, t: int): string
  {
    m + "," + k + "=" + v + " " + f + "=" + IntToString(n) + " " + IntToString(t)
  }

  lemma PlainAvoids(s: string)
    requires Plain(s)
    ensures ' ' !in s && ',' !in s && '=' !in s && '\\' !in s && '"' !in s && '_' !in s && '\n' !in s
  {
    forall i | 0 <= i < |s|
      ensures s[i] != ' ' && s[i] != ',' && s[i] != '=' && s[i] != '\\' && s[i] != '"' && s[i] != '_' && s[i] != '\n'
    {
      assert s[i] !in " ,=\\\"_\n\r";
    }
  }

  /** A number's text is digits and at most a minus sign: it is plain. */
  lemma IntToStringPlain(n: int)
    ensures Plain(IntToString(n)) && |IntToString(n)| > 0
  {
    var m: nat := if n < 0 then -n else n;
    NatToStringDigits(m);
    var s := IntToString(n);
    forall i | 0 <= i < |s|
      ensures s[i] !in " ,=\\\"_\n\r"
    {
      if n < 0 && i > 0 {
        assert s[i] == NatToString(m)[i - 1];
      }
      assert IsDigit(s[i]) || s[i] == '-';
    }
  }

  /** The first occurrence of `c` follows a prefix without one. */
  lemma IndexOfAfter(a: string, b: string, c: char)
    requires c !in a
    ensures IndexOf(a + [c] + b, c) == |a|
  {
    var x := a + [c] + b;
    var r := IndexOf(x, c);
    assert x[|a|] == c;
    assert forall k | 0 <= k < |a| :: x[k] == a[k];
  }

  /** The last occurrence of `c` precedes a suffix without one. */
  lemma {:induction false} LastIndexOfBefore(a: string, b: string, c: char)
    requires c !in b
    ensures LastIndexOf(a + [c] + b, c) == |a|
    decreases |b|
  {
    var x := a + [c] + b;
    if |b| == 0 {
      assert x[|x| - 1] == c;
    } else {
      var init := b[..|b| - 1];
      assert x[..|x| - 1] == a + [c] + init;
      assert x[|x| - 1] == b[|b| - 1];
      LastIndexOfBefore(a, init, c);
    }
  }

  /** Where the first and last space of such a line are. */
  lemma SpacesOfThree(head: string, fields: string, ts: string)
    requires ' ' !in head && ' ' !in ts
    ensures var line := head + " " + fields + " " + ts;
      IndexOf(line, ' ') == |head| && LastIndexOf(line, ' ') == |head| + 1 + |fields|
  {
    var line := head + " " + fields + " " + ts;
    assert line == head + [' '] + (fields + " " + ts);
    IndexOfAfter(head, fields + " " + ts, ' ');
    assert line == (head + " " + fields) + [' '] + ts;
    LastIndexOfBefore(head + " " + fields, ts, ' ');
  }

  /** A space-free head and timestamp around the fields, joined by single
      spaces, are the line's tokens, whatever spaces the fields hold. */
  lemma TokensOfThree(head: string, fields: string, ts: string)
    requires ' ' !in head && ' ' !in ts
    requires '\n' !in head + " " + fields + " " + ts
    ensures Tokenize(head + " " + fields + " " + ts) == Some(Tokens(head, fields, ts))
  {
    var line := head + " " + fields + " " + ts;
    SpacesOfThree(head, fields, ts);
    var i := |head|;
    var j := |head| + 1 + |fields|;
    assert line[..i] == head && line[i + 1..j] == fields && line[j + 1..] == ts;
  }

  /** Replacing a sentinel that cannot occur changes nothing. */
  lemma RestoresAreIdentity(s: string)
    requires '_' !in s
    ensures RestoreMeasurement(s) == s && RestoreTagPiece(s) == s
    ensures ReplaceAll(s, EscapedEqual, "=") == s
    ensures RestoreFieldPiece(s) == s && RestoreFieldText(s) == s
  {
    ReplaceAllAbsent(s, EscapedSpace, " ");
    ReplaceAllAbsent(s, EscapedComma, ",");
    ReplaceAllAbsent(s, EscapedEqual, "=");
    ReplaceAllAbsent(s, EscapedDblQuote, "\"");
    ReplaceAllAbsent(s, EscapedBackslash, "\\");
  }

  /** The escape substitutions leave text without backslashes alone. */
  lemma EscapeIdentity(s: string)
    requires '\\' !in s
    ensures Escape(s) == s
  {
    ReplaceAllAbsent(s, "\\ ", EscapedSpace);
    ReplaceAllAbsent(s, "\\,", EscapedComma);
    ReplaceAllAbsent(s, "\\=", EscapedEqual);
    ReplaceAllAbsent(s, "\\\"", EscapedDblQuote);
    ReplaceAllAbsent(s, "\\\\", EscapedBackslash);
  }

  /** Text without underscores holds no placeholder. */
  lemma {:induction false} NoUnderscoreNoPlaceholder(s: string)
    requires '_' !in s
    ensures FirstPlaceholder(s) == None
    decreases |s|
  {
    if |s| > 0 {
      if |s| >= |StringPrefix| {
        assert s[..|StringPrefix|][0] == s[0];
      }
      assert StringPrefix[0] == '_';
      assert PlaceholderAt(s) == None;
      NoUnderscoreNoPlaceholder(s[1..]);
    }
  }

  /** A text without double quotes has nothing to cut. */
  lemma NoQuoteNoCut(s: string)
    requires '"' !in s
    ensures Quoted(s) == (s, [])
  {
    assert NextQuote(s, 0) == |s|;
    assert RunFrom(s, 0) == NoRun;
    assert s[0..] == s;
    assert CutQuotes(s) == s && MatchCount(s) == 0;
    assert IndexOf(s, '"') != 0 by {
      if |s| > 0 {
        assert s[0] != '"';
      }
    }
    assert seq(0, _ => FirstCapture(s)) == [];
  }

  /** `a=b` with plain parts splits into the two parts. */
  lemma SplitPair(a: string, b: string, d: char)
    requires d !in a && d !in b
    ensures Split(a + [d] + b, d) == [a, b]
  {
    SplitConcat(a, b, d);
    SplitAbsent(a, d);
    SplitAbsent(b, d);
  }

  /** The tag part of a plain line. */
  lemma PlainHead(m: string, k: string, v: string)
    requires Plain(m) && Plain(k) && Plain(v)
    ensures var mt := Split(m + "," + k + "=" + v, ',');
      |mt| == 2 && RestoreMeasurement(mt[0]) == m && TagsOf(mt[1..]) == map[k := v]
  {
    PlainAvoids(m);
    PlainAvoids(k);
    PlainAvoids(v);
    var kv := k + "=" + v;
    assert '_' !in kv && ',' !in kv;
    assert m + "," + k + "=" + v == m + [','] + kv;
    SplitPair(m, kv, ',');
    var mt := Split(m + "," + k + "=" + v, ',');
    assert mt[1..] == [kv];
    RestoresAreIdentity(m);
    RestoresAreIdentity(kv);
    RestoresAreIdentity(k);
    RestoresAreIdentity(v);
    assert kv == k + ['='] + v;
    SplitPair(k, v, '=');
    assert TagOf(kv) == Some((k, v));
    assert [kv][..0] == [];
  }

  /** The field part of a plain line. */
  lemma PlainFields(f: string, n: int, now: int)
    requires Plain(f) && MinInt64 <= n <= MaxInt64
    ensures var (seg, strs) := Quoted(f + "=" + IntToString(n));
      FieldsOf(Split(seg, ','), strs) == Ok(map[f := Int(n)])
  {
    PlainAvoids(f);
    var num := IntToString(n);
    IntToStringPlain(n);
    PlainAvoids(num);
    var seg := f + "=" + num;
    assert '"' !in seg && ',' !in seg;
    NoQuoteNoCut(seg);
    SplitAbsent(seg, ',');
    RestoresAreIdentity(seg);
    assert seg == f + ['='] + num;
    SplitPair(f, num, '=');
    NoUnderscoreNoPlaceholder(num);
    RestoresAreIdentity(num);
    RestoresAreIdentity(f);
    TypeValueOfInteger(n);
    assert FieldOf(seg, []) == Ok(Some((f, Int(n))));
    assert [seg][..0] == [];
  }

  /** The tokens of a plain line. */
  lemma PlainTokens(m: string, k: string, v: string, f: string, n: int, t: int)
    requires Plain(m) && Plain(k) && Plain(v) && Plain(f)
    ensures Tokenize(Escape(PlainLine(m, k, v, f, n, t))) ==
      Some(Tokens(m + "," + k + "=" + v, f + "=" + IntToString(n), IntToString(t)))
  {
    PlainAvoids(m);
    PlainAvoids(k);
    PlainAvoids(v);
    PlainAvoids(f);
    IntToStringPlain(n);
    IntToStringPlain(t);
    PlainAvoids(IntToString(n));
    PlainAvoids(IntToString(t));
    var head := m + "," + k + "=" + v;
    var fields := f + "=" + IntToString(n);
    var ts := IntToString(t);
    var line := PlainLine(m, k, v, f, n, t);
    assert line == head + " " + fields + " " + ts;
    assert '\\' !in line && '\n' !in line by {
      assert forall i | 0 <= i < |line| ::
        (line[i] in m || line[i] in k || line[i] in v || line[i] in f ||
         line[i] in IntToString(n) || line[i] in IntToString(t) || line[i] in " ,=");
    }
    EscapeIdentity(line);
    TokensOfThree(head, fields, ts);
  }

  /** A plain line parses to the point it was written from. */
  lemma PlainLineRoundTrip(m: string, k: string, v: string, f: string, n: int, t: int, now: int)
    requires Plain(m) && Plain(k) && Plain(v) && Plain(f)
    requires MinInt64 <= n <= MaxInt64 && MinInt64 <= t <= MaxInt64
    ensures ParsedPoint(PlainLine(m, k, v, f, n, t), now) ==
      Ok(Point(m, map[f := Int(n)], map[k := v], t))
  {
    PlainTokens(m, k, v, f, n, t);
    PlainHead(m, k, v);
    PlainFields(f, n, now);
    TimestampCases("", t, now);
  }
}
