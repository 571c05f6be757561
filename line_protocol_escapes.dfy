/** Backslash escapes in pkg/influx/InfluxLineProtocolParser.go: a line
    written with escapes goes through the five escape substitutions, the
    splits and the restorations, and comes out as the texts it was written
    from.  Texts are described by what a writer put in the line
    (`Escaped`) and by what they are after the substitutions and some of
    the restorations (`Rendered`); the lemmas follow one text through one
    substitution at a time. */
module LineProtocolEscapes {
  import opened Errors
  import opened Text
  import opened Points
  import opened LineProtocol
  import opened LineProtocolProps

  // ---------------------------------------------------------------------
  // Special characters and their sentinels

  /** The characters the escape substitutions know, in the order of the passes. */
  predicate IsSpecial(c: char)
  {
    c == ' ' || c == ',' || c == '=' || c == '"' || c == '\\'
  }

  /** A set of characters a writer escapes. */
  predicate EscapeSet(es: set<char>)
  {
    forall c | c in es :: IsSpecial(c)
  }

  /** The sentinel an escaped special character becomes. */
  function SentinelOf(c: char): string
    requires IsSpecial(c)
  {
    if c == ' ' then EscapedSpace
    else if c == ',' then EscapedComma
    else if c == '=' then EscapedEqual
    else if c == '"' then EscapedDblQuote
    else EscapedBackslash
  }

  /** What every sentinel looks like: `___E`, then capitals, then `___`, with
      no `E` right after the first one. */
  predicate Shaped(s: string)
  {
    && |s| >= 14
    && s[0] == '_' && s[1] == '_' && s[2] == '_' && s[3] == 'E' && s[4] != 'E' && s[5] != 'E'
    && (forall j | 3 <= j < |s| - 3 :: s[j] != '_')
    && s[|s| - 3] == '_' && s[|s| - 2] == '_' && s[|s| - 1] == '_'
    && (forall j | 0 <= j < |s| :: s[j] == '_' || 'A' <= s[j] <= 'Z')
  }

  /** Each sentinel is shaped, and two sentinels differ at their eleventh
      character, the first letter of the name. */
  lemma SentinelShapes(x: char, y: char)
    requires IsSpecial(x) && IsSpecial(y)
    ensures Shaped(SentinelOf(x))
    ensures x != y ==> SentinelOf(x)[10] != SentinelOf(y)[10]
  {
    if x == ' ' { SpaceShaped(); }
    else if x == ',' { CommaShaped(); }
    else if x == '=' { EqualShaped(); }
    else if x == '"' { DblQuoteShaped(); }
    else { BackslashShaped(); }
  }

  lemma SpaceShaped() ensures Shaped(EscapedSpace) {}
  lemma CommaShaped() ensures Shaped(EscapedComma) {}
  lemma EqualShaped() ensures Shaped(EscapedEqual) {}
  lemma DblQuoteShaped() ensures Shaped(EscapedDblQuote) {}
  lemma BackslashShaped() ensures Shaped(EscapedBackslash) {}

  /** A special character, or a line break, occurs in no sentinel. */
  lemma SentinelAvoids(x: char, c: char)
    requires IsSpecial(x) && c != '_' && !('A' <= c <= 'Z')
    ensures c !in SentinelOf(x)
  {
    SentinelShapes(x, x);
  }

  // ---------------------------------------------------------------------
  // Texts as written and as rendered

  /** `s` as a writer puts it into a line: a backslash before each
      character of `es`. */
  function Escaped(s: string, es: set<char>): string
    decreases |s|
  {
    if |s| == 0 then []
    else (if s[0] in es then ['\\', s[0]] else [s[0]]) + Escaped(s[1..], es)
  }

  /** `s` after the escape substitutions and the restorations of `done`:
      each character of `es` not yet restored stands as its sentinel. */
  function Rendered(s: string, es: set<char>, done: set<char>): string
    requires EscapeSet(es)
    decreases |s|
  {
    if |s| == 0 then []
    else (if s[0] in es && s[0] !in done then SentinelOf(s[0]) else [s[0]]) + Rendered(s[1..], es, done)
  }

  /** A writer's backslash never stands right before a special character it
      leaves unescaped: the substitutions would read the two as an escape. */
  predicate BackslashesSafe(s: string, es: set<char>)
  {
    forall i | 0 <= i < |s| - 1 :: s[i] == '\\' ==> s[i + 1] in es || !IsSpecial(s[i + 1])
  }

  /** Text a writer can escape with `es`: a backslash in it is escaped, and
      no escaped backslash is read as part of another escape. */
  predicate Escapable(s: string, es: set<char>)
  {
    EscapeSet(es) && ('\\' in es || '\\' !in s) && BackslashesSafe(s, es)
  }

  lemma {:induction false} EscapedConcat(a: string, b: string, es: set<char>)
    ensures Escaped(a + b, es) == Escaped(a, es) + Escaped(b, es)
    decreases |a|
  {
    if |a| == 0 {
      assert a + b == b;
    } else {
      assert (a + b)[0] == a[0] && (a + b)[1..] == a[1..] + b;
      EscapedConcat(a[1..], b, es);
    }
  }

  /** Text with nothing to escape is written as it is. */
  lemma {:induction false} EscapedPlain(s: string, es: set<char>)
    requires forall i | 0 <= i < |s| :: s[i] !in es
    ensures Escaped(s, es) == s
    decreases |s|
  {
    if |s| > 0 {
      EscapedPlain(s[1..], es);
      assert s == [s[0]] + s[1..];
    }
  }

  /** The last character of the written text is no backslash when the text's is not. */
  lemma {:induction false} EscapedLast(s: string, es: set<char>)
    requires s == [] || s[|s| - 1] != '\\'
    ensures Escaped(s, es) == [] || Escaped(s, es)[|Escaped(s, es)| - 1] != '\\'
    decreases |s|
  {
    if |s| > 0 {
      EscapedLast(s[1..], es);
    }
  }

  // ---------------------------------------------------------------------
  // The escape substitutions

  /** Text that does not end in a backslash holds no escape reaching past
      its end: the substitutions work on the two sides separately. */
  lemma EscapeConcat(x: string, y: string)
    requires x == [] || x[|x| - 1] != '\\'
    ensures Escape(x + y) == Escape(x) + Escape(y)
  {
    var x1 := ReplaceAll(x, "\\ ", EscapedSpace);
    var x2 := ReplaceAll(x1, "\\,", EscapedComma);
    var x3 := ReplaceAll(x2, "\\=", EscapedEqual);
    var x4 := ReplaceAll(x3, "\\\"", EscapedDblQuote);
    var y1 := ReplaceAll(y, "\\ ", EscapedSpace);
    var y2 := ReplaceAll(y1, "\\,", EscapedComma);
    var y3 := ReplaceAll(y2, "\\=", EscapedEqual);
    var y4 := ReplaceAll(y3, "\\\"", EscapedDblQuote);
    ReplaceAllSplit(x, y, "\\ ", EscapedSpace);
    ReplaceAllLast(x, "\\ ", EscapedSpace, '\\');
    ReplaceAllSplit(x1, y1, "\\,", EscapedComma);
    ReplaceAllLast(x1, "\\,", EscapedComma, '\\');
    ReplaceAllSplit(x2, y2, "\\=", EscapedEqual);
    ReplaceAllLast(x2, "\\=", EscapedEqual, '\\');
    ReplaceAllSplit(x3, y3, "\\\"", EscapedDblQuote);
    ReplaceAllLast(x3, "\\\"", EscapedDblQuote, '\\');
    ReplaceAllSplit(x4, y4, "\\\\", EscapedBackslash);
  }

  /** An escaped special character becomes its sentinel. */
  lemma EscapePair(c: char)
    requires IsSpecial(c)
    ensures Escape(['\\', c]) == SentinelOf(c)
  {
    var s := ['\\', c];
    var l1 := ReplaceAll(s, "\\ ", EscapedSpace);
    var l2 := ReplaceAll(l1, "\\,", EscapedComma);
    var l3 := ReplaceAll(l2, "\\=", EscapedEqual);
    var l4 := ReplaceAll(l3, "\\\"", EscapedDblQuote);
    SentinelAvoids(c, '\\');
    var r := SentinelOf(c);
    EscapeRest(r);
    PairPass(c, "\\ ", EscapedSpace);
    if c == ' ' {
      assert l1 == r;
    } else {
      assert l1 == s;
      PairPass(c, "\\,", EscapedComma);
      if c == ',' {
        assert l2 == r;
      } else {
        assert l2 == s;
        PairPass(c, "\\=", EscapedEqual);
        if c == '=' {
          assert l3 == r;
        } else {
          assert l3 == s;
          PairPass(c, "\\\"", EscapedDblQuote);
          if c == '"' {
            assert l4 == r;
          } else {
            assert l4 == s;
            PairPass(c, "\\\\", EscapedBackslash);
          }
        }
      }
    }
  }

  /** A two-character text is replaced when it is the pattern, and left
      alone when it is not. */
  lemma PairPass(c: char, pat: string, rep: string)
    requires |pat| == 2 && pat[0] == '\\'
    ensures ReplaceAll(['\\', c], pat, rep) == if pat[1] == c then rep else ['\\', c]
  {
    var s := ['\\', c];
    assert s[..2] == s;
    if pat[1] == c {
      assert s == pat;
      assert s[2..] == [];
    } else {
      assert s != pat;
      assert s[1..] == [c];
    }
  }

  /** The start of a text that an escaped backslash may precede: no special
      character other than a backslash. */
  predicate FreeStart(y: string)
  {
    y == [] || y[0] == '\\' || !IsSpecial(y[0])
  }

  /** An escaped backslash that no second escape can claim is passed over by
      the first four substitutions. */
  lemma BackslashPassOver(y: string, pat: string, rep: string)
    requires |pat| == 2 && pat[0] == '\\' && pat[1] != '\\' && IsSpecial(pat[1]) && FreeStart(y)
    requires |rep| > 0 && rep[0] == '_'
    ensures ReplaceAll("\\\\" + y, pat, rep) == "\\\\" + ReplaceAll(y, pat, rep)
    ensures FreeStart(ReplaceAll(y, pat, rep))
  {
    var a := "\\\\";
    forall i | 0 <= i < |a|
      ensures !MatchAt(a + y, i, pat)
    {
      if i + |pat| <= |a + y| {
        assert (a + y)[i..i + |pat|][1] == (a + y)[i + 1];
      }
    }
    ReplaceAllPassOver(a, y, pat, rep);
    if |y| > 0 {
      ReplaceAllFirst(y, pat, rep);
    }
  }

  /** An escaped backslash becomes its sentinel in front of the rest. */
  lemma EscapeBackslashFirst(y: string)
    requires FreeStart(y)
    ensures Escape("\\\\" + y) == EscapedBackslash + Escape(y)
  {
    var y1 := ReplaceAll(y, "\\ ", EscapedSpace);
    var y2 := ReplaceAll(y1, "\\,", EscapedComma);
    var y3 := ReplaceAll(y2, "\\=", EscapedEqual);
    var y4 := ReplaceAll(y3, "\\\"", EscapedDblQuote);
    BackslashPassOver(y, "\\ ", EscapedSpace);
    BackslashPassOver(y1, "\\,", EscapedComma);
    BackslashPassOver(y2, "\\=", EscapedEqual);
    BackslashPassOver(y3, "\\\"", EscapedDblQuote);
    ReplaceAllHead(y4, "\\\\", EscapedBackslash);
  }

  /** The written text starts with a backslash or with the text's own first character. */
  lemma EscapedFirst(s: string, es: set<char>)
    requires |s| > 0
    ensures |Escaped(s, es)| > 0 && Escaped(s, es)[0] == if s[0] in es then '\\' else s[0]
  {
  }

  /** The substitutions turn written text into its rendering. */
  lemma {:induction false} EscapeEscaped(s: string, es: set<char>)
    requires Escapable(s, es)
    ensures Escape(Escaped(s, es)) == Rendered(s, es, {})
    decreases |s|
  {
    if |s| > 0 {
      var c, rest := s[0], s[1..];
      assert Escapable(rest, es) by {
        forall i | 0 <= i < |rest| - 1 && rest[i] == '\\'
          ensures rest[i + 1] in es || !IsSpecial(rest[i + 1])
        {
          assert s[i + 1] == rest[i] && s[i + 2] == rest[i + 1];
        }
      }
      EscapeEscaped(rest, es);
      var tail := Escaped(rest, es);
      if c !in es {
        assert c != '\\';
        EscapeConcat([c], tail);
        EscapeIdentity([c]);
      } else if c != '\\' {
        EscapeConcat(['\\', c], tail);
        EscapePair(c);
      } else {
        if |rest| > 0 {
          EscapedFirst(rest, es);
          assert s[0] == '\\' && s[1] == rest[0];
        }
        EscapeBackslashFirst(tail);
        assert ['\\', c] == "\\\\";
      }
    }
  }

  /** A sentinel holds no backslash: the later passes leave it alone. */
  lemma EscapeRest(s: string)
    requires '\\' !in s
    ensures ReplaceAll(s, "\\ ", EscapedSpace) == s
    ensures ReplaceAll(s, "\\,", EscapedComma) == s
    ensures ReplaceAll(s, "\\=", EscapedEqual) == s
    ensures ReplaceAll(s, "\\\"", EscapedDblQuote) == s
    ensures ReplaceAll(s, "\\\\", EscapedBackslash) == s
  {
    ReplaceAllAbsent(s, "\\ ", EscapedSpace);
    ReplaceAllAbsent(s, "\\,", EscapedComma);
    ReplaceAllAbsent(s, "\\=", EscapedEqual);
    ReplaceAllAbsent(s, "\\\"", EscapedDblQuote);
    ReplaceAllAbsent(s, "\\\\", EscapedBackslash);
  }
  // ---------------------------------------------------------------------
  // The restorations

  /** No `E` among the first three characters: no sentinel starts there. */
  predicate NoEarlyE(x: string)
  {
    forall k | 0 <= k < 3 && k < |x| :: x[k] != 'E'
  }

  /** A rendering of text without `E` starts with no `E`: a sentinel starts
      with `___`. */
  lemma {:induction false} RenderedHead(s: string, es: set<char>, done: set<char>)
    requires EscapeSet(es) && 'E' !in s
    ensures NoEarlyE(Rendered(s, es, done))
    decreases |s|
  {
    if |s| > 0 {
      var r := Rendered(s, es, done);
      var x := Rendered(s[1..], es, done);
      RenderedHead(s[1..], es, done);
      if s[0] in es && s[0] !in done {
        SentinelShapes(s[0], s[0]);
        assert forall k | 0 <= k < 3 :: r[k] == SentinelOf(s[0])[k];
      } else {
        assert forall k | 1 <= k < 3 && k < |r| :: r[k] == x[k - 1];
      }
    }
  }

  /** One sentinel is passed over by the restoration of another. */
  lemma SentinelPassOver(u: string, x: string, pat: string, rep: string)
    requires Shaped(u) && Shaped(pat) && u[10] != pat[10] && NoEarlyE(x)
    ensures ReplaceAll(u + x, pat, rep) == u + ReplaceAll(x, pat, rep)
  {
    forall i | 0 <= i < |u|
      ensures !MatchAt(u + x, i, pat)
    {
      if i + |pat| <= |u + x| {
        var w := (u + x)[i..i + |pat|];
        if i == 0 {
          assert w[10] == u[10];
        } else if i < 3 {
          assert w[3] == u[i + 3];
        } else if i < |u| - 3 {
          assert w[0] == u[i];
        } else {
          assert w[3] == x[i + 3 - |u|];
        }
      }
    }
    ReplaceAllPassOver(u, x, pat, rep);
  }

  /** A character other than `E` is passed over by a restoration. */
  lemma CharPassOver(c: char, x: string, pat: string, rep: string)
    requires c != 'E' && Shaped(pat) && NoEarlyE(x)
    ensures ReplaceAll([c] + x, pat, rep) == [c] + ReplaceAll(x, pat, rep)
  {
    forall i | 0 <= i < 1
      ensures !MatchAt([c] + x, i, pat)
    {
      if |pat| <= |[c] + x| {
        var w := ([c] + x)[..|pat|];
        assert w[0] == c && w[3] == x[2];
      }
    }
    ReplaceAllPassOver([c], x, pat, rep);
  }

  /** One restoration turns the sentinels of one special character back
      into the character and leaves every other sentinel alone. */
  lemma {:induction false} RestorePass(s: string, es: set<char>, done: set<char>, x: char)
    requires EscapeSet(es) && IsSpecial(x) && x !in done && 'E' !in s
    ensures ReplaceAll(Rendered(s, es, done), SentinelOf(x), [x]) == Rendered(s, es, done + {x})
    decreases |s|
  {
    if |s| > 0 {
      var c, rest := s[0], s[1..];
      var tail := Rendered(rest, es, done);
      RenderedHead(rest, es, done);
      RestorePass(rest, es, done, x);
      SentinelShapes(x, x);
      if c in es && c !in done {
        if c == x {
          ReplaceAllHead(tail, SentinelOf(x), [x]);
        } else {
          SentinelShapes(c, x);
          SentinelPassOver(SentinelOf(c), tail, SentinelOf(x), [x]);
        }
      } else {
        CharPassOver(c, tail, SentinelOf(x), [x]);
      }
    }
  }

  /** Once every escaped character is restored the text is what was written. */
  lemma {:induction false} RenderedRestored(s: string, es: set<char>, done: set<char>)
    requires EscapeSet(es) && es <= done
    ensures Rendered(s, es, done) == s
    decreases |s|
  {
    if |s| > 0 {
      RenderedRestored(s[1..], es, done);
      assert s == [s[0]] + s[1..];
    }
  }

  /** With everything but the backslash restored, each backslash stands as
      its sentinel. */
  lemma {:induction false} RenderedBackslash(s: string, es: set<char>, done: set<char>)
    requires EscapeSet(es) && '\\' in es && '\\' !in done && es - {'\\'} <= done
    ensures Rendered(s, es, done) == ReplaceAll(s, "\\", EscapedBackslash)
    decreases |s|
  {
    if |s| > 0 {
      RenderedBackslash(s[1..], es, done);
      assert s == [s[0]] + s[1..];
      if s[0] == '\\' {
        ReplaceAllHead(s[1..], "\\", EscapedBackslash);
      } else {
        ReplaceAllSkip([s[0]], s[1..], "\\", EscapedBackslash);
      }
    }
  }

  /** A character that no sentinel holds is in the rendering only where it
      was written unescaped or is already restored. */
  lemma {:induction false} RenderedAvoids(s: string, es: set<char>, done: set<char>, c: char)
    requires EscapeSet(es) && c != '_' && !('A' <= c <= 'Z')
    requires c !in s || (c in es && c !in done)
    ensures c !in Rendered(s, es, done)
    decreases |s|
  {
    if |s| > 0 {
      RenderedAvoids(s[1..], es, done, c);
      if s[0] in es && s[0] !in done {
        SentinelAvoids(s[0], c);
      }
    }
  }

  lemma {:induction false} RenderedConcat(a: string, b: string, es: set<char>, done: set<char>)
    requires EscapeSet(es)
    ensures Rendered(a + b, es, done) == Rendered(a, es, done) + Rendered(b, es, done)
    decreases |a|
  {
    if |a| == 0 {
      assert a + b == b;
    } else {
      assert (a + b)[0] == a[0] && (a + b)[1..] == a[1..] + b;
      RenderedConcat(a[1..], b, es, done);
    }
  }
  // ---------------------------------------------------------------------
  // The parser's stages on rendered text

  /** A restoration works on the two sides of a separator that no sentinel holds. */
  lemma RestoreAround(a: string, es: set<char>, done: set<char>, x: char, sep: char, b: string)
    requires EscapeSet(es) && IsSpecial(x) && x !in done && 'E' !in a
    requires sep != '_' && !('A' <= sep <= 'Z')
    ensures ReplaceAll(Rendered(a, es, done) + [sep] + b, SentinelOf(x), [x]) ==
      Rendered(a, es, done + {x}) + [sep] + ReplaceAll(b, SentinelOf(x), [x])
  {
    SentinelShapes(x, x);
    SentinelAvoids(x, sep);
    ReplaceAllAround(Rendered(a, es, done), sep, b, SentinelOf(x), [x]);
    RestorePass(a, es, done, x);
  }

  /** The measurement's restorations: all but the backslash. */
  lemma MeasurementStage(m: string, es: set<char>)
    requires EscapeSet(es) && 'E' !in m
    ensures RestoreMeasurement(Rendered(m, es, {})) == Rendered(m, es, {' ', ',', '=', '"'})
  {
    RestorePass(m, es, {}, ' ');
    assert {} + {' '} == {' '};
    RestorePass(m, es, {' '}, ',');
    assert {' '} + {','} == {' ', ','};
    RestorePass(m, es, {' ', ','}, '=');
    assert {' ', ','} + {'='} == {' ', ',', '='};
    RestorePass(m, es, {' ', ',', '='}, '"');
    assert {' ', ',', '='} + {'"'} == {' ', ',', '=', '"'};
  }

  /** What a tag piece's restorations leave of a rendered `k=v`. */
  lemma TagPieceRestored(k: string, v: string, es: set<char>)
    requires EscapeSet(es) && 'E' !in k && 'E' !in v
    ensures RestoreTagPiece(Rendered(k, es, {}) + "=" + Rendered(v, es, {})) ==
      Rendered(k, es, {' ', ',', '"', '\\'}) + "=" + Rendered(v, es, {' ', ',', '"', '\\'})
  {
    var d1, d2, d3, d4: set<char> := {' '}, {' ', ','}, {' ', ',', '"'}, {' ', ',', '"', '\\'};
    RestoreAround(k, es, {}, ' ', '=', Rendered(v, es, {}));
    RestorePass(v, es, {}, ' ');
    assert {} + {' '} == d1 && d1 + {','} == d2 && d2 + {'"'} == d3 && d3 + {'\\'} == d4;
    RestoreAround(k, es, d1, ',', '=', Rendered(v, es, d1));
    RestorePass(v, es, d1, ',');
    RestoreAround(k, es, d2, '"', '=', Rendered(v, es, d2));
    RestorePass(v, es, d2, '"');
    RestoreAround(k, es, d3, '\\', '=', Rendered(v, es, d3));
    RestorePass(v, es, d3, '\\');
  }

  /** A rendered `k=v` is the tag `k` with the value `v`, when neither holds an
      unescaped equals sign. */
  lemma TagStage(k: string, v: string, es: set<char>)
    requires EscapeSet(es) && 'E' !in k && 'E' !in v
    requires ('=' in es || '=' !in k) && ('=' in es || '=' !in v)
    ensures TagOf(Rendered(k, es, {}) + "=" + Rendered(v, es, {})) == Some((k, v))
  {
    var d4: set<char> := {' ', ',', '"', '\\'};
    TagPieceRestored(k, v, es);
    var rk, rv := Rendered(k, es, d4), Rendered(v, es, d4);
    RenderedAvoids(k, es, d4, '=');
    RenderedAvoids(v, es, d4, '=');
    assert rk + "=" + rv == rk + ['='] + rv;
    SplitPair(rk, rv, '=');
    RestorePass(k, es, d4, '=');
    RestorePass(v, es, d4, '=');
    RenderedRestored(k, es, d4 + {'='});
    RenderedRestored(v, es, d4 + {'='});
  }

  /** The restorations of a field key or value after reinsertion. */
  lemma FieldTextStage(s: string, es: set<char>, done: set<char>)
    requires EscapeSet(es) && 'E' !in s && '=' !in done && '"' !in done && '\\' !in done
    ensures RestoreFieldText(Rendered(s, es, done)) == Rendered(s, es, done + {'=', '"', '\\'})
  {
    RestorePass(s, es, done, '=');
    RestorePass(s, es, done + {'='}, '"');
    RestorePass(s, es, done + {'='} + {'"'}, '\\');
    assert done + {'='} + {'"'} + {'\\'} == done + {'=', '"', '\\'};
  }

  /** The field `f` with a typed value, or the typing's error. */
  function Keyed(f: string, r: Result<FieldValue>): Result<Option<(string, FieldValue)>>
  {
    if r.Ok? then Ok(Some((f, r.value))) else Err(r.error)
  }

  /** A field piece of a rendered key, an equals sign and a value that the
      first two restorations leave alone splits into the two. */
  lemma FieldPieceStage(f: string, es: set<char>, value: string)
    requires EscapeSet(es) && 'E' !in f && ('=' in es || '=' !in f) && '=' !in value
    requires ReplaceAll(value, EscapedSpace, " ") == value
    requires ReplaceAll(value, EscapedComma, ",") == value
    ensures Split(RestoreFieldPiece(Rendered(f, es, {}) + "=" + value), '=') ==
      [Rendered(f, es, {' ', ','}), value]
  {
    var d2: set<char> := {' ', ','};
    RestoreAround(f, es, {}, ' ', '=', value);
    assert {} + {' '} == {' '} && {' '} + {','} == d2;
    RestoreAround(f, es, {' '}, ',', '=', value);
    var rf := Rendered(f, es, d2);
    RenderedAvoids(f, es, d2, '=');
    assert rf + "=" + value == rf + ['='] + value;
    SplitPair(rf, value, '=');
  }

  /** A field key after all restorations. */
  lemma FieldKeyStage(f: string, es: set<char>)
    requires EscapeSet(es) && 'E' !in f
    ensures RestoreFieldText(Rendered(f, es, {' ', ','})) == f
  {
    FieldTextStage(f, es, {' ', ','});
    RenderedRestored(f, es, {' ', ','} + {'=', '"', '\\'});
  }

  /** A rendered key, an equals sign and a value without sentinels or equals
      signs is the field `f`, typed from the value. */
  lemma FieldStage(f: string, es: set<char>, value: string, strs: seq<string>)
    requires EscapeSet(es) && 'E' !in f && ('=' in es || '=' !in f)
    requires '_' !in value && '=' !in value
    ensures FieldOf(Rendered(f, es, {}) + "=" + value, strs) == Keyed(f, TypeValue(value))
  {
    ReplaceAllAbsent(value, EscapedSpace, " ");
    ReplaceAllAbsent(value, EscapedComma, ",");
    FieldPieceStage(f, es, value);
    NoUnderscoreNoPlaceholder(value);
    RestoresAreIdentity(value);
    FieldKeyStage(f, es);
  }

  /** The first placeholder: its text, no equals sign, and no other sentinel. */
  lemma PlaceholderKept()
    ensures Placeholder(0) == "___ESCAPEDSTRING_0___"
    ensures '=' !in Placeholder(0)
    ensures ReplaceAll(Placeholder(0), EscapedSpace, " ") == Placeholder(0)
    ensures ReplaceAll(Placeholder(0), EscapedComma, ",") == Placeholder(0)
  {
    PlaceholderText();
    PlaceholderPassOver(' ');
    PlaceholderPassOver(',');
  }

  lemma PlaceholderText()
    ensures Placeholder(0) == "___ESCAPEDSTRING_0___"
  {
    assert NatToString(0) == "0";
  }

  lemma PlaceholderPassOver(x: char)
    requires x == ' ' || x == ','
    ensures ReplaceAll(Placeholder(0), SentinelOf(x), [x]) == Placeholder(0)
  {
    var p := Placeholder(0);
    PlaceholderText();
    var pat := SentinelOf(x);
    SentinelShapes(x, x);
    forall i | 0 <= i < |p|
      ensures !MatchAt(p + [], i, pat)
    {
      if i + |pat| <= |p| {
        var w := p[i..i + |pat|];
        if i == 0 {
          assert w[10] == p[10] && w[11] == p[11];
        } else if i < 3 {
          assert w[3] == p[i + 3];
        } else {
          assert w[0] == p[i];
        }
      }
    }
    assert p + [] == p;
    ReplaceAllPassOver(p, [], pat, [x]);
  }

  /** The recorded string after its restorations. */
  lemma CaptureStage(c: string, esq: set<char>)
    requires EscapeSet(esq) && esq <= {'=', '"', '\\'} && 'E' !in c
    ensures RestoreFieldText(Rendered(c, esq, {})) == c
  {
    FieldTextStage(c, esq, {});
    RenderedRestored(c, esq, {} + {'=', '"', '\\'});
  }

  /** A rendered key and the first placeholder is the field `f`, typed from
      the text of the one recorded string. */
  lemma QuotedFieldStage(f: string, es: set<char>, c: string, esq: set<char>)
    requires EscapeSet(es) && 'E' !in f && ('=' in es || '=' !in f)
    requires EscapeSet(esq) && esq <= {'=', '"', '\\'} && 'E' !in c
    ensures FieldOf(Rendered(f, es, {}) + "=" + Placeholder(0), [Rendered(c, esq, {})]) ==
      Keyed(f, TypeValue(c))
  {
    PlaceholderKept();
    FieldPieceStage(f, es, Placeholder(0));
    var cap := Rendered(c, esq, {});
    ReinsertPlaceholder(0, [cap]);
    CaptureStage(c, esq);
    FieldKeyStage(f, es);
  }

  /** The first double quote at or after `from`. */
  lemma {:induction false} NextQuoteAt(s: string, from: nat, p: nat)
    requires from <= p <= |s| && (p == |s| || s[p] == '"')
    requires forall j | from <= j < p :: s[j] != '"'
    ensures NextQuote(s, from) == p
    decreases p - from
  {
    if from < p {
      NextQuoteAt(s, from + 1, p);
    }
  }

  /** The one quoted run of a text, a quoted string and nothing after it. */
  lemma QuotedRun(a: string, c: string)
    requires '"' !in a && '"' !in c
    ensures var s := a + "\"" + c + "\"";
      RunFrom(s, 0) == Run(|a|, |a| + 1 + |c|) && RunFrom(s, |s|) == NoRun &&
      s[..|a|] == a && s[|a| + 1..|a| + 1 + |c|] == c
  {
    var s := a + "\"" + c + "\"";
    var open, close := |a|, |a| + 1 + |c|;
    assert s[..open] == a;
    assert s[open + 1..close] == c;
    assert s[open] == '"' && s[close] == '"';
    NextQuoteAt(s, 0, open);
    NextQuoteAt(s, open + 1, close);
    NextQuoteAt(s, |s|, |s|);
  }

  /** A field section with one quoted string, after some text without
      quotes: the string is cut out and recorded. */
  lemma QuotedStage(a: string, c: string)
    requires |a| > 0 && '"' !in a && '"' !in c
    ensures Quoted(a + "\"" + c + "\"") == (a + Placeholder(0), [c])
  {
    var s := a + "\"" + c + "\"";
    var open, close := |a|, |a| + 1 + |c|;
    QuotedRun(a, c);
    assert close + 1 == |s|;
    CutFromStep(s, 0, open, close, 0);
    CutFromEnd(s, |s|, 1);
    assert CutQuotes(s) == a + Placeholder(0) by {
      assert s[0..open] == a && s[|s|..] == [];
    }
    MatchesStep(s, 0, open, close);
    assert MatchCount(s) == 1;
    assert FirstCapture(s) == c;
    assert Repeat(c, 1) == [] + [c];
    assert s == a + ['"'] + (c + "\"");
    IndexOfAfter(a, c + "\"", '"');
    assert IndexOf(s, '"') != 0;
    assert Repeat(c, 1) == [c];
    assert Quoted(s) == (CutQuotes(s), Repeat(FirstCapture(s), MatchCount(s)));
    assert Quoted(s) == (a + Placeholder(0), [c]);
  }
}
