/** pkg/influx/InfluxLineProtocolParser.go: the hand-rolled line-protocol
    parser.  Every regular expression of the source is restated as the string
    operation it performs: the escape patterns and the restoring patterns are
    literal replacements, `^(.*?) (.*) (.*)$` and `^(.*?) (.*)$` cut at the
    first and the last space, `"(.*?)"` pairs successive double quotes, and
    `___ESCAPEDSTRING_(\d+)___` and `(\d+)[ui]` are scanned for by hand.  The
    specification functions are named after what they return (`ParsedPoint`,
    `Parsed`); the methods `Parse` and `ParsePoint` compute the same by the
    source's loops. */
module LineProtocol {
  import opened Errors
  import opened Text
  import opened Points

  const EscapedSpace: string := "___ESCAPEDSPACE___"
  const EscapedComma: string := "___ESCAPEDCOMMA___"
  const EscapedEqual: string := "___ESCAPEDEQUAL___"
  const EscapedDblQuote: string := "___ESCAPEDDBLQUOTE___"
  const EscapedBackslash: string := "___ESCAPEDBACKSLASH___"
  const StringPrefix: string := "___ESCAPEDSTRING_"
  const StringSuffix: string := "___"

  // ---------------------------------------------------------------------
  // Escapes and tokens

  /** The five escape substitutions, in the source's order: `\ `, `\,`, `\=`,
      `\"` and `\\` become their sentinels before anything is split. */
  function Escape(line: string): string
  {
    var l1 := ReplaceAll(line, "\\ ", EscapedSpace);
    var l2 := ReplaceAll(l1, "\\,", EscapedComma);
    var l3 := ReplaceAll(l2, "\\=", EscapedEqual);
    var l4 := ReplaceAll(l3, "\\\"", EscapedDblQuote);
    ReplaceAll(l4, "\\\\", EscapedBackslash)
  }

  datatype Tokens = Tokens(head: string, fields: string, timestamp: string)

  /** The two anchored patterns.  `.` does not match a line break, so a line
      holding '\n' matches neither; otherwise the first pattern needs two
      spaces and the second one space.  The head ends at the first space; with
      two or more spaces the timestamp follows the last one. */
  function Tokenize(s: string): (r: Option<Tokens>)
    ensures r.None? <==> '\n' in s || ' ' !in s
    ensures r.Some? ==> ' ' !in r.value.head && ' ' !in r.value.timestamp
    ensures r.Some? && Count(s, ' ') >= 2 ==>
      s == r.value.head + " " + r.value.fields + " " + r.value.timestamp
    ensures r.Some? && Count(s, ' ') == 1 ==>
      s == r.value.head + " " + r.value.fields && r.value.timestamp == ""
  {
    var i := IndexOf(s, ' ');
    var j := LastIndexOf(s, ' ');
    if '\n' in s || i < 0 then None
    else if i < j then
      TwoSpaces(s, i, j);
      Some(Tokens(s[..i], s[i + 1..j], s[j + 1..]))
    else
      OneSpace(s, i);
      Some(Tokens(s[..i], s[i + 1..], ""))
  }

  /** A text split at its first and last space, when these differ. */
  lemma TwoSpaces(s: string, i: nat, j: nat)
    requires i < j < |s| && s[i] == ' ' && s[j] == ' '
    ensures s == s[..i] + " " + s[i + 1..j] + " " + s[j + 1..]
    ensures Count(s, ' ') >= 2
  {
    var a, b, c := s[..i], s[i + 1..j], s[j + 1..];
    assert s == a + " " + b + " " + c;
    assert Count(" ", ' ') == 1;
    CountConcat(a + " " + b + " ", c, ' ');
    CountConcat(a + " " + b, " ", ' ');
    CountConcat(a + " ", b, ' ');
    CountConcat(a, " ", ' ');
  }

  /** A text split at its only space. */
  lemma OneSpace(s: string, i: nat)
    requires i < |s| && s[i] == ' ' && ' ' !in s[..i] && ' ' !in s[i + 1..]
    ensures s == s[..i] + " " + s[i + 1..]
    ensures Count(s, ' ') == 1
  {
    assert s == s[..i] + " " + s[i + 1..];
    CountConcat(s[..i] + " ", s[i + 1..], ' ');
    CountConcat(s[..i], " ", ' ');
    CountAbsent(s[..i], ' ');
    CountAbsent(s[i + 1..], ' ');
    assert Count(" ", ' ') == 1;
  }

  /** The measurement: sentinels for space, comma, equals and double quote are
      restored; the backslash sentinel is not. */
  function RestoreMeasurement(s: string): string
  {
    var m1 := ReplaceAll(s, EscapedSpace, " ");
    var m2 := ReplaceAll(m1, EscapedComma, ",");
    var m3 := ReplaceAll(m2, EscapedEqual, "=");
    ReplaceAll(m3, EscapedDblQuote, "\"")
  }

  // ---------------------------------------------------------------------
  // Tags

  /** A tag piece before splitting: space, comma, double quote and backslash restored. */
  function RestoreTagPiece(s: string): string
  {
    var t1 := ReplaceAll(s, EscapedSpace, " ");
    var t2 := ReplaceAll(t1, EscapedComma, ",");
    var t3 := ReplaceAll(t2, EscapedDblQuote, "\"");
    ReplaceAll(t3, EscapedBackslash, "\\")
  }

  /** One tag piece: kept only when it splits on '=' into exactly two parts,
      whose equals sentinels are then restored. */
  function TagOf(piece: string): Option<(string, string)>
  {
    var kv := Split(RestoreTagPiece(piece), '=');
    if |kv| == 2 then
      Some((ReplaceAll(kv[0], EscapedEqual, "="), ReplaceAll(kv[1], EscapedEqual, "=")))
    else None
  }

  /** The tag map built from the pieces in order; a later key overwrites. */
  function TagsOf(pieces: seq<string>): map<string, string>
    decreases |pieces|
  {
    if |pieces| == 0 then map[]
    else
      var m := TagsOf(pieces[..|pieces| - 1]);
      match TagOf(pieces[|pieces| - 1])
      case None => m
      case Some((k, v)) => m[k := v]
  }

  // ---------------------------------------------------------------------
  // Quoted strings

  /** The first double quote at or after `from`, or |s|. */
  function NextQuote(s: string, from: nat): (r: nat)
    requires from <= |s|
    ensures from <= r <= |s|
    ensures r < |s| ==> s[r] == '"'
    decreases |s| - from
  {
    if from == |s| || s[from] == '"' then from else NextQuote(s, from + 1)
  }

  /** A match of `"(.*?)"`: the positions of its opening and closing quotes. */
  datatype Run = NoRun | Run(open: nat, close: nat)

  /** The leftmost match at or after `from`: the first double quote there and
      the next one after it. */
  function RunFrom(s: string, from: nat): (r: Run)
    requires from <= |s|
    ensures r.Run? ==> from <= r.open < r.close < |s|
  {
    var p := NextQuote(s, from);
    if p == |s| then NoRun
    else
      var q := NextQuote(s, p + 1);
      if q == |s| then NoRun else Run(p, q)
  }

  /** Number of non-overlapping quoted runs from `from` on. */
  function MatchesFrom(s: string, from: nat): nat
    requires from <= |s|
    decreases |s| - from
  {
    var run := RunFrom(s, from);
    if run.NoRun? then 0 else 1 + MatchesFrom(s, run.close + 1)
  }

  /** The placeholder text for the n-th quoted run. */
  function Placeholder(n: nat): string
  {
    StringPrefix + NatToString(n) + StringSuffix
  }

  /** The text from `from` on with every quoted run replaced by a numbered
      placeholder, numbering from `cnt`. */
  function CutFrom(s: string, from: nat, cnt: nat): string
    requires from <= |s|
    decreases |s| - from
  {
    var run := RunFrom(s, from);
    if run.NoRun? then s[from..]
    else s[from..run.open] + Placeholder(cnt) + CutFrom(s, run.close + 1, cnt + 1)
  }

  function MatchCount(s: string): nat
  {
    MatchesFrom(s, 0)
  }

  function CutQuotes(s: string): string
  {
    CutFrom(s, 0, 0)
  }

  /** No quoted run left: no match, and the cut is the rest of the text. */
  lemma CutFromEnd(s: string, from: nat, cnt: nat)
    requires from <= |s| && RunFrom(s, from).NoRun?
    ensures MatchesFrom(s, from) == 0 && CutFrom(s, from, cnt) == s[from..]
  {
  }

  /** One quoted run: its placeholder before the rest of the cut. */
  lemma CutFromStep(s: string, from: nat, open: nat, close: nat, cnt: nat)
    requires from <= |s| && RunFrom(s, from) == Run(open, close)
    ensures CutFrom(s, from, cnt) == s[from..open] + Placeholder(cnt) + CutFrom(s, close + 1, cnt + 1)
  {
    var run := RunFrom(s, from);
    assert !run.NoRun? && run.open == open && run.close == close;
  }

  /** One quoted run: one match more. */
  lemma MatchesStep(s: string, from: nat, open: nat, close: nat)
    requires from <= |s| && RunFrom(s, from) == Run(open, close)
    ensures MatchesFrom(s, from) == 1 + MatchesFrom(s, close + 1)
  {
    var run := RunFrom(s, from);
    assert !run.NoRun? && run.close == close;
  }

  /** The capture of the first quoted run (`FindStringSubmatch` on the
      unmodified segment), or "" when there is none. */
  function FirstCapture(s: string): string
  {
    var run := RunFrom(s, 0);
    if run.NoRun? then "" else s[run.open + 1..run.close]
  }

  /** `n` copies of `x`. */
  function Repeat(x: string, n: nat): seq<string>
  {
    if n == 0 then [] else Repeat(x, n - 1) + [x]
  }

  /** `Repeat` holds `n` elements, each equal to `x`. */
  lemma {:induction false} RepeatContents(x: string, n: nat)
    ensures |Repeat(x, n)| == n && forall k | 0 <= k < n :: Repeat(x, n)[k] == x
  {
    if n > 0 {
      RepeatContents(x, n - 1);
    }
  }

  /** The field segment after cutting, and the recorded strings: cutting
      happens only when the segment does not start with a double quote, and
      every recorded string is the capture of the first run. */
  function Quoted(seg: string): (string, seq<string>)
  {
    if IndexOf(seg, '"') != 0 then
      (CutQuotes(seg), Repeat(FirstCapture(seg), MatchCount(seg)))
    else (seg, [])
  }

  // ---------------------------------------------------------------------
  // Placeholders in field values

  /** Length of the leading run of ASCII digits. */
  function DigitRun(s: string): (k: nat)
    ensures k <= |s| && AllDigits(s[..k]) && (k < |s| ==> !IsDigit(s[k]))
    decreases |s|
  {
    if |s| == 0 || !IsDigit(s[0]) then 0
    else
      var k := DigitRun(s[1..]);
      assert s[..k + 1] == [s[0]] + s[1..][..k];
      k + 1
  }

  /** When `s` starts with a match of `___ESCAPEDSTRING_(\d+)___`, its digits. */
  function PlaceholderAt(s: string): (r: Option<string>)
    ensures r.Some? ==>
      |r.value| > 0 && AllDigits(r.value) && |StringPrefix| + |r.value| + |StringSuffix| <= |s|
  {
    if |s| >= |StringPrefix| && s[..|StringPrefix|] == StringPrefix then
      var rest := s[|StringPrefix|..];
      var k := DigitRun(rest);
      if 0 < k && k + |StringSuffix| <= |rest| && rest[k..k + |StringSuffix|] == StringSuffix
      then Some(rest[..k])
      else None
    else None
  }

  /** The digits of the leftmost placeholder match. */
  function FirstPlaceholder(s: string): (r: Option<string>)
    ensures r.Some? ==> AllDigits(r.value)
    decreases |s|
  {
    if |s| == 0 then None
    else if PlaceholderAt(s).Some? then PlaceholderAt(s)
    else FirstPlaceholder(s[1..])
  }

  /** Every placeholder match, left to right and without overlap, replaced by `rep`. */
  function ReplacePlaceholders(s: string, rep: string): string
    decreases |s|
  {
    if |s| == 0 then s
    else
      match PlaceholderAt(s)
      case Some(d) => rep + ReplacePlaceholders(s[|StringPrefix| + |d| + |StringSuffix|..], rep)
      case None => [s[0]] + ReplacePlaceholders(s[1..], rep)
  }

  /** The quoted-string reinsertion of one field value: every placeholder is
      replaced by the string whose number the FIRST placeholder carries, and a
      number beyond the recorded strings is an index-out-of-range panic. */
  function Reinsert(value: string, strs: seq<string>): Result<string>
  {
    match FirstPlaceholder(value)
    case None => Ok(value)
    case Some(d) =>
      var index := AtoiIgnoringError(d);
      if 0 <= index < |strs| then Ok(ReplacePlaceholders(value, strs[index]))
      else Err(Panic("index out of range"))
  }

  // ---------------------------------------------------------------------
  // Field values

  /** strconv.ParseFloat's accepted special values: "nan", and "inf" or
      "infinity" after an optional sign, all without regard to case. */
  predicate IsSpecialFloat(s: string)
  {
    EqualsIgnoreCase(s, "nan") ||
    EqualsIgnoreCase(SignSplit(s).1, "inf") ||
    EqualsIgnoreCase(SignSplit(s).1, "infinity")
  }

  /** Position of the first exponent marker, or |s|. */
  function ExponentAt(s: string): (k: nat)
    ensures k <= |s| && forall i | 0 <= i < k :: s[i] != 'e' && s[i] != 'E'
    ensures k < |s| ==> s[k] == 'e' || s[k] == 'E'
    decreases |s|
  {
    if |s| == 0 || s[0] == 'e' || s[0] == 'E' then 0 else ExponentAt(s[1..]) + 1
  }

  /** Digits with at most one decimal point and at least one digit. */
  predicate IsMantissa(m: string)
  {
    Count(m, '.') <= 1 &&
    (forall i | 0 <= i < |m| :: IsDigit(m[i]) || m[i] == '.') &&
    exists i | 0 <= i < |m| :: IsDigit(m[i])
  }

  /** A decimal floating-point literal without its sign: a mantissa and an
      optional exponent made of a marker, an optional sign and digits. */
  predicate IsDecimalFloat(s: string)
  {
    var k := ExponentAt(s);
    IsMantissa(s[..k]) &&
    (k == |s| || (var e := SignSplit(s[k + 1..]).1; |e| > 0 && AllDigits(e)))
  }

  /** The strings strconv.ParseFloat(s, 64) accepts, as far as the model
      captures them (no hexadecimal form, no digit separators, no range error). */
  predicate IsFloatLiteral(s: string)
  {
    IsSpecialFloat(s) || IsDecimalFloat(SignSplit(s).1)
  }

  /** The leftmost match of the unanchored pattern `(\d+)[ui]`: the first
      maximal digit run that is followed by 'u' or 'i'. */
  function SuffixedDigits(s: string): (r: Option<string>)
    ensures r.Some? ==> |r.value| > 0 && AllDigits(r.value)
    decreases |s|
  {
    if |s| == 0 then None
    else if IsDigit(s[0]) then
      var k := DigitRun(s);
      if k < |s| && (s[k] == 'u' || s[k] == 'i') then Some(s[..k]) else SuffixedDigits(s[k..])
    else SuffixedDigits(s[1..])
  }

  /** The typing chain: Atoi, then ParseFloat, then a digit run with an
      integer marker (whose overflow is an error), and text otherwise. */
  function TypeValue(v: string): Result<FieldValue>
  {
    match Atoi(v)
    case Some(i) => Ok(Int(i))
    case None =>
      if IsFloatLiteral(v) then Ok(Float(v))
      else
        match SuffixedDigits(v)
        case Some(d) =>
          (match Atoi(d)
           case Some(n) => Ok(Int64(n))
           case None => Err(NumRange(d)))
        case None => Ok(Str(v))
  }

  /** A field piece before splitting: space and comma restored. */
  function RestoreFieldPiece(s: string): string
  {
    ReplaceAll(ReplaceAll(s, EscapedSpace, " "), EscapedComma, ",")
  }

  /** Key or value after reinsertion: equals, double quote and backslash restored. */
  function RestoreFieldText(s: string): string
  {
    ReplaceAll(ReplaceAll(ReplaceAll(s, EscapedEqual, "="), EscapedDblQuote, "\""), EscapedBackslash, "\\")
  }

  /** One field piece: dropped (Ok(None)) unless it splits into exactly `k=v`. */
  function FieldOf(piece: string, strs: seq<string>): Result<Option<(string, FieldValue)>>
  {
    var kv := Split(RestoreFieldPiece(piece), '=');
    if |kv| != 2 then Ok(None)
    else
      match Reinsert(kv[1], strs)
      case Err(e) => Err(e)
      case Ok(v) =>
        match TypeValue(RestoreFieldText(v))
        case Err(e) => Err(e)
        case Ok(fv) => Ok(Some((RestoreFieldText(kv[0]), fv)))
  }

  /** The field map built from the pieces in order, stopping at the first error. */
  function FieldsOf(pieces: seq<string>, strs: seq<string>): Result<map<string, FieldValue>>
    decreases |pieces|
  {
    if |pieces| == 0 then Ok(map[])
    else
      match FieldsOf(pieces[..|pieces| - 1], strs)
      case Err(e) => Err(e)
      case Ok(m) =>
        match FieldOf(pieces[|pieces| - 1], strs)
        case Err(e) => Err(e)
        case Ok(None) => Ok(m)
        case Ok(Some((k, v))) => Ok(m[k := v])
  }

  /** Nanoseconds of the timestamp: the caller's time when the text is empty,
      otherwise Atoi's value with its error ignored. */
  function ParseTimestamp(text: string, now: int): int
  {
    if text != "" then AtoiIgnoringError(text) else now
  }

  // ---------------------------------------------------------------------
  // Lines and inputs

  /** ParsePoint's result for one line. */
  function ParsedPoint(line: string, now: int): Result<Point>
  {
    match Tokenize(Escape(line))
    case None => Err(InvalidTokens)
    case Some(t) =>
      var mt := Split(t.head, ',');
      var (seg, strs) := Quoted(t.fields);
      match FieldsOf(Split(seg, ','), strs)
      case Err(e) => Err(e)
      case Ok(fields) =>
        Ok(Point(RestoreMeasurement(mt[0]), fields, TagsOf(mt[1..]), ParseTimestamp(t.timestamp, now)))
  }

  /** Lines that Parse passes over: empty ones and comments. */
  predicate Skipped(line: string)
  {
    line == "" || line[0] == '#'
  }

  /** The points of the lines in order, or the first line's error. */
  function ParsedLines(lines: seq<string>, now: int): Result<seq<Point>>
    decreases |lines|
  {
    if |lines| == 0 then Ok([])
    else
      var last := lines[|lines| - 1];
      match ParsedLines(lines[..|lines| - 1], now)
      case Err(e) => Err(e)
      case Ok(ps) =>
        if Skipped(last) then Ok(ps)
        else
          match ParsedPoint(last, now)
          case Err(e) => Err(e)
          case Ok(p) => Ok(ps + [p])
  }

  /** The lines Parse works through: '\r' removed, then split at '\n'. */
  function Lines(input: string): seq<string>
  {
    Split(RemoveChar(input, '\r'), '\n')
  }

  /** Parse's result. */
  function Parsed(input: string, now: int): Result<seq<Point>>
  {
    ParsedLines(Lines(input), now)
  }

  /** One more line in the line loop: a skipped line adds nothing, a line
      that parses adds its point, one that does not ends with its error. */
  lemma ParsedLinesStep(lines: seq<string>, i: nat, now: int, ret: seq<Point>)
    requires i < |lines| && ParsedLines(lines[..i], now) == Ok(ret)
    ensures Skipped(lines[i]) ==> ParsedLines(lines[..i + 1], now) == Ok(ret)
    ensures !Skipped(lines[i]) ==>
      ParsedLines(lines[..i + 1], now) ==
        (match ParsedPoint(lines[i], now)
         case Err(e) => Err(e)
         case Ok(p) => Ok(ret + [p]))
  {
    assert lines[..i + 1][..i] == lines[..i];
  }

  /** An error in a prefix of the lines is the error of the whole input. */
  lemma {:induction false} ParsedLinesErrorStays(lines: seq<string>, k: nat, now: int)
    requires k <= |lines| && ParsedLines(lines[..k], now).Err?
    ensures ParsedLines(lines, now) == ParsedLines(lines[..k], now)
    decreases |lines| - k
  {
    if k < |lines| {
      assert lines[..|lines| - 1][..k] == lines[..k];
      ParsedLinesErrorStays(lines[..|lines| - 1], k, now);
    } else {
      assert lines[..k] == lines;
    }
  }

  /** An error in a prefix of the field pieces is the error of the whole segment. */
  lemma {:induction false} FieldsOfErrorStays(pieces: seq<string>, k: nat, strs: seq<string>)
    requires k <= |pieces| && FieldsOf(pieces[..k], strs).Err?
    ensures FieldsOf(pieces, strs) == FieldsOf(pieces[..k], strs)
    decreases |pieces| - k
  {
    if k < |pieces| {
      assert pieces[..|pieces| - 1][..k] == pieces[..k];
      FieldsOfErrorStays(pieces[..|pieces| - 1], k, strs);
    } else {
      assert pieces[..k] == pieces;
    }
  }

  // ---------------------------------------------------------------------
  // The source's procedures

  /** Parse: the line loop, appending each point and returning at the first error. */
  method Parse(input: string, now: int) returns (r: Result<seq<Point>>)
    ensures r == Parsed(input, now)
  {
    var lines := Split(RemoveChar(input, '\r'), '\n');
    var ret: seq<Point> := [];
    var i := 0;
    while i < |lines|
      invariant 0 <= i <= |lines|
      invariant ParsedLines(lines[..i], now) == Ok(ret)
    {
      var line := lines[i];
      ParsedLinesStep(lines, i, now, ret);
      if line == "" || line[0] == '#' {
        i := i + 1;
        continue;
      }
      var point := ParsePoint(line, now);
      if point.Err? {
        ParsedLinesErrorStays(lines, i + 1, now);
        return Err(point.error);
      }
      ret := ret + [point.value];
      i := i + 1;
    }
    assert lines[..i] == lines;
    return Ok(ret);
  }

  /** ParsePoint: the line rewritten step by step, the tag and field maps
      filled in loops. */
  method ParsePoint(line: string, now: int) returns (r: Result<Point>)
    ensures r == ParsedPoint(line, now)
  {
    var l := line;
    l := ReplaceAll(l, "\\ ", EscapedSpace);
    l := ReplaceAll(l, "\\,", EscapedComma);
    l := ReplaceAll(l, "\\=", EscapedEqual);
    l := ReplaceAll(l, "\\\"", EscapedDblQuote);
    l := ReplaceAll(l, "\\\\", EscapedBackslash);
    var tokens := Tokenize(l);
    if tokens.None? {
      return Err(InvalidTokens);
    }
    var measurementAndTags := Split(tokens.value.head, ',');
    var measurement, tagsStr := ArrayShift(measurementAndTags);
    measurement := RestoreMeasurement(measurement);

    var tagSet := ParseTags(tagsStr);

    var fieldSetStr := tokens.value.fields;
    var strs: seq<string> := [];
    if IndexOf(fieldSetStr, '"') != 0 {
      fieldSetStr, strs := CutQuotedStrings(fieldSetStr);
    }

    var fieldSet := ParseFields(Split(fieldSetStr, ','), strs);
    if fieldSet.Err? {
      return Err(fieldSet.error);
    }

    var timestamp := ParseTimestamp(tokens.value.timestamp, now);
    return Ok(Point(measurement, fieldSet.value, tagSet, timestamp));
  }

  /** The tag loop of ParsePoint. */
  method ParseTags(tagsStr: seq<string>) returns (tagSet: map<string, string>)
    ensures tagSet == TagsOf(tagsStr)
  {
    tagSet := map[];
    var i := 0;
    while i < |tagsStr|
      invariant 0 <= i <= |tagsStr|
      invariant tagSet == TagsOf(tagsStr[..i])
    {
      assert tagsStr[..i + 1][..i] == tagsStr[..i];
      var tag := TagOf(tagsStr[i]);
      if tag.Some? {
        tagSet := tagSet[tag.value.0 := tag.value.1];
      }
      i := i + 1;
    }
    assert tagsStr[..i] == tagsStr;
  }

  /** The field loop of ParsePoint, returning at the first error. */
  method ParseFields(fieldSetArray: seq<string>, strs: seq<string>)
    returns (r: Result<map<string, FieldValue>>)
    ensures r == FieldsOf(fieldSetArray, strs)
  {
    var fieldSet: map<string, FieldValue> := map[];
    var j := 0;
    while j < |fieldSetArray|
      invariant 0 <= j <= |fieldSetArray|
      invariant FieldsOf(fieldSetArray[..j], strs) == Ok(fieldSet)
    {
      assert fieldSetArray[..j + 1][..j] == fieldSetArray[..j];
      var field := FieldOf(fieldSetArray[j], strs);
      if field.Err? {
        FieldsOfErrorStays(fieldSetArray, j + 1, strs);
        return Err(field.error);
      }
      if field.value.Some? {
        fieldSet := fieldSet[field.value.value.0 := field.value.value.1];
      }
      j := j + 1;
    }
    assert fieldSetArray[..j] == fieldSetArray;
    return Ok(fieldSet);
  }

  /** The cut with the text already produced carried along, as the loop
      builds it. */
  function CutAcc(seg: string, from: nat, cnt: nat, out: string): string
    requires from <= |seg|
    decreases |seg| - from
  {
    var run := RunFrom(seg, from);
    if run.NoRun? then out + seg[from..]
    else CutAcc(seg, run.close + 1, cnt + 1, out + (seg[from..run.open] + Placeholder(cnt)))
  }

  /** Carrying the produced text along is the same as prefixing it. */
  lemma {:induction false} CutAccIsCut(seg: string, from: nat, cnt: nat, out: string)
    requires from <= |seg|
    ensures CutAcc(seg, from, cnt, out) == out + CutFrom(seg, from, cnt)
    decreases |seg| - from
  {
    var run := RunFrom(seg, from);
    if run.Run? {
      var piece := seg[from..run.open] + Placeholder(cnt);
      CutAccIsCut(seg, run.close + 1, cnt + 1, out + piece);
      CutAccRun(seg, from, run.open, run.close, cnt, out);
    } else {
      CutAccEnd(seg, from, cnt, out);
    }
  }

  /** The inductive step of `CutAccIsCut` for one quoted run. */
  lemma CutAccRun(seg: string, from: nat, open: nat, close: nat, cnt: nat, out: string)
    requires from <= |seg| && RunFrom(seg, from) == Run(open, close)
    requires var piece := seg[from..open] + Placeholder(cnt);
      CutAcc(seg, close + 1, cnt + 1, out + piece) == out + piece + CutFrom(seg, close + 1, cnt + 1)
    ensures CutAcc(seg, from, cnt, out) == out + CutFrom(seg, from, cnt)
  {
    var piece := seg[from..open] + Placeholder(cnt);
    var rest := CutFrom(seg, close + 1, cnt + 1);
    CutFromStep(seg, from, open, close, cnt);
    CutAccStep(seg, from, open, close, cnt, out);
    AppendAssoc(out, piece, rest);
    assert CutAcc(seg, from, cnt, out) == (out + piece) + rest;
    assert CutFrom(seg, from, cnt) == piece + rest;
  }

  lemma CutAccEnd(seg: string, from: nat, cnt: nat, out: string)
    requires from <= |seg| && RunFrom(seg, from).NoRun?
    ensures CutAcc(seg, from, cnt, out) == out + seg[from..] && CutFrom(seg, from, cnt) == seg[from..]
  {
  }

  /** One quoted run: the accumulated cut takes its placeholder and goes on
      after the closing quote. */
  lemma CutAccStep(seg: string, from: nat, open: nat, close: nat, cnt: nat, out: string)
    requires from <= |seg| && RunFrom(seg, from) == Run(open, close)
    ensures CutAcc(seg, from, cnt, out) == CutAcc(seg, close + 1, cnt + 1, out + (seg[from..open] + Placeholder(cnt)))
  {
    var run := RunFrom(seg, from);
    assert !run.NoRun? && run.open == open && run.close == close;
  }

  /** One turn of the cutting loop: the accumulator, the match count and the
      captures all advance past one quoted run. */
  lemma CutLoopStep(seg: string, from: nat, open: nat, close: nat, cnt: nat, out: string, capture: string,
                    from': nat, cnt': nat, out': string)
    requires from <= |seg| && RunFrom(seg, from) == Run(open, close)
    requires from' == close + 1 && cnt' == cnt + 1 && out' == out + (seg[from..open] + Placeholder(cnt))
    ensures from' <= |seg|
    ensures CutAcc(seg, from', cnt', out') == CutAcc(seg, from, cnt, out)
    ensures cnt' + MatchesFrom(seg, from') == cnt + MatchesFrom(seg, from)
    ensures Repeat(capture, cnt') == Repeat(capture, cnt) + [capture]
  {
    CutAccStep(seg, from, open, close, cnt, out);
    MatchesStep(seg, from, open, close);
  }

  lemma AppendAssoc(a: string, b: string, c: string)
    ensures (a + b) + c == a + (b + c)
  {
  }

  /** The quoted-string cut: each run replaced by the next numbered
      placeholder, and the first run's capture recorded once per run. */
  method CutQuotedStrings(seg: string) returns (out: string, strs: seq<string>)
    ensures out == CutQuotes(seg)
    ensures strs == Repeat(FirstCapture(seg), MatchCount(seg))
  {
    var capture := FirstCapture(seg);
    var from: nat := 0;
    var cnt: nat := 0;
    out := "";
    strs := [];
    CutAccIsCut(seg, 0, 0, "");
    assert "" + CutQuotes(seg) == CutQuotes(seg);
    while true
      invariant from <= |seg|
      invariant CutAcc(seg, from, cnt, out) == CutQuotes(seg)
      invariant cnt + MatchesFrom(seg, from) == MatchCount(seg)
      invariant strs == Repeat(capture, cnt)
      decreases |seg| - from
    {
      var run := RunFrom(seg, from);
      if run.NoRun? {
        CutAccEnd(seg, from, cnt, out);
        CutFromEnd(seg, from, cnt);
        out := out + seg[from..];
        break;
      }
      var from0, cnt0, out0 := from, cnt, out;
      out := out + (seg[from..run.open] + Placeholder(cnt));
      strs := strs + [capture];
      cnt := cnt + 1;
      from := run.close + 1;
      CutLoopStep(seg, from0, run.open, run.close, cnt0, out0, capture, from, cnt, out);
    }
  }

  /** ArrayShift: the first element and the remainder, or "" for an empty slice. */
  method ArrayShift(s: seq<string>) returns (first: string, rest: seq<string>)
    ensures |s| == 0 ==> first == "" && rest == []
    ensures |s| > 0 ==> [first] + rest == s
  {
    if |s| == 0 {
      return "", [];
    }
    first := s[0];
    rest := s[1..];
  }

  /** index: the first position of `item`, or -1. */
  method Index(slice: seq<string>, item: string) returns (r: int)
    ensures -1 <= r < |slice|
    ensures r == -1 <==> item !in slice
    ensures 0 <= r ==> slice[r] == item && item !in slice[..r]
  {
    var i := 0;
    while i < |slice|
      invariant 0 <= i <= |slice|
      invariant item !in slice[..i]
    {
      if slice[i] == item {
        return i;
      }
      assert slice[..i + 1] == slice[..i] + [slice[i]];
      i := i + 1;
    }
    assert slice[..i] == slice;
    return -1;
  }
}
