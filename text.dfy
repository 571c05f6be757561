/** The string and number-conversion primitives of Go's standard library that
    the receiver relies on (strings.ReplaceAll, strings.Split, strings.Join,
    strings.Index, strconv.Atoi, strconv.ParseInt, strconv.Itoa), stated on
    `seq<char>` with Go's own edge cases: Split of "" is [""], Atoi accepts one
    leading sign, and ParseUint reports an overflow as soon as the digits read
    so far exceed 64 bits, before it looks at the characters that follow. */
module Text {
  import opened Errors

  const MaxInt64: int := 0x7FFF_FFFF_FFFF_FFFF
  const MinInt64: int := -0x8000_0000_0000_0000
  const MaxUint64: int := 0xFFFF_FFFF_FFFF_FFFF

  predicate IsDigit(c: char) { '0' <= c <= '9' }

  predicate AllDigits(s: string) { forall i | 0 <= i < |s| :: IsDigit(s[i]) }

  /** Number of occurrences of `c` in `s`. */
  function Count(s: string, c: char): nat
    decreases |s|
  {
    if |s| == 0 then 0 else (if s[0] == c then 1 else 0) + Count(s[1..], c)
  }

  /** regexp.ReplaceAllString with a literal pattern (and strings.ReplaceAll
      for a non-empty pattern): occurrences are found left to right and do not
      overlap; the scan resumes after each replaced occurrence. */
  function ReplaceAll(s: string, pat: string, rep: string): string
    requires pat != []
    decreases |s|
  {
    if |s| < |pat| then s
    else if s[..|pat|] == pat then rep + ReplaceAll(s[|pat|..], pat, rep)
    else [s[0]] + ReplaceAll(s[1..], pat, rep)
  }

  /** `s` with every `c` dropped. */
  function RemoveChar(s: string, c: char): string
    decreases |s|
  {
    if |s| == 0 then [] else (if s[0] == c then [] else [s[0]]) + RemoveChar(s[1..], c)
  }

  /** The number of bytes UTF-8 encodes `c` in. */
  function Utf8Width(c: char): nat
  {
    if c as int < 0x80 then 1
    else if c as int < 0x800 then 2
    else if c as int < 0x1_0000 then 3
    else 4
  }

  /** Go's `len` of the bytes of `s`: the length of its UTF-8 encoding. */
  function Utf8Length(s: string): (n: nat)
    ensures |s| <= n <= 4 * |s|
    decreases |s|
  {
    if |s| == 0 then 0 else Utf8Width(s[0]) + Utf8Length(s[1..])
  }

  /** The bytes of a concatenation are the bytes of its parts. */
  lemma {:induction false} Utf8LengthConcat(a: string, b: string)
    ensures Utf8Length(a + b) == Utf8Length(a) + Utf8Length(b)
    decreases |a|
  {
    if |a| > 0 {
      assert (a + b)[0] == a[0] && (a + b)[1..] == a[1..] + b;
      Utf8LengthConcat(a[1..], b);
    } else {
      assert a + b == b;
    }
  }

  /** A string has as many bytes as characters exactly when it is ASCII. */
  lemma {:induction false} Utf8LengthAscii(s: string)
    ensures Utf8Length(s) == |s| <==> forall i | 0 <= i < |s| :: s[i] as int < 0x80
    decreases |s|
  {
    if |s| > 0 {
      Utf8LengthAscii(s[1..]);
      assert forall i | 1 <= i < |s| :: s[i] == s[1..][i - 1];
    }
  }

  /** A replacement whose text lacks `c` cannot bring `c` into a string that lacks it. */
  lemma {:induction false} ReplaceAllKeepsAbsentChar(s: string, pat: string, rep: string, c: char)
    requires pat != [] && c !in s && c !in rep
    ensures c !in ReplaceAll(s, pat, rep)
    decreases |s|
  {
    if |s| < |pat| {
    } else if s[..|pat|] == pat {
      ReplaceAllKeepsAbsentChar(s[|pat|..], pat, rep, c);
    } else {
      ReplaceAllKeepsAbsentChar(s[1..], pat, rep, c);
    }
  }

  /** Replacing a one-character pattern by "" deletes exactly that character. */
  lemma {:induction false} ReplaceCharByEmpty(s: string, c: char)
    ensures ReplaceAll(s, [c], "") == RemoveChar(s, c)
    ensures c !in ReplaceAll(s, [c], "")
    decreases |s|
  {
    if |s| > 0 {
      ReplaceCharByEmpty(s[1..], c);
      if s[0] == c {
        assert s[..1] == [c];
      } else {
        assert s[..1] != [c];
      }
    }
  }

  /** A pattern whose first character does not occur leaves the string as it is. */
  lemma {:induction false} ReplaceAllAbsent(s: string, pat: string, rep: string)
    requires pat != [] && pat[0] !in s
    ensures ReplaceAll(s, pat, rep) == s
    decreases |s|
  {
    if |s| >= |pat| {
      assert s[..|pat|][0] == s[0];
      ReplaceAllAbsent(s[1..], pat, rep);
      assert [s[0]] + s[1..] == s;
    }
  }

  /** `pat` occurs in `s` at position `i`. */
  predicate MatchAt(s: string, i: nat, pat: string)
  {
    i + |pat| <= |s| && s[i..i + |pat|] == pat
  }

  /** No match starts inside `a`: the replacement passes `a` over unchanged. */
  lemma {:induction false} ReplaceAllPassOver(a: string, b: string, pat: string, rep: string)
    requires pat != []
    requires forall i | 0 <= i < |a| :: !MatchAt(a + b, i, pat)
    ensures ReplaceAll(a + b, pat, rep) == a + ReplaceAll(b, pat, rep)
    decreases |a|
  {
    if |a| > 0 {
      var s := a + b;
      assert s[1..] == a[1..] + b;
      forall i | 0 <= i < |a[1..]|
        ensures !MatchAt(a[1..] + b, i, pat)
      {
        assert !MatchAt(s, i + 1, pat);
        if i + |pat| <= |s| - 1 {
          assert (a[1..] + b)[i..i + |pat|] == s[i + 1..i + 1 + |pat|];
        }
      }
      ReplaceAllPassOver(a[1..], b, pat, rep);
      if |s| < |pat| {
        assert ReplaceAll(b, pat, rep) == b;
        assert ReplaceAll(s, pat, rep) == s;
      } else {
        assert !MatchAt(s, 0, pat);
        assert s[0..0 + |pat|] == s[..|pat|];
        assert ReplaceAll(s, pat, rep) == [s[0]] + ReplaceAll(s[1..], pat, rep);
        assert s[0] == a[0];
      }
      assert a == [a[0]] + a[1..];
      assert [a[0]] + (a[1..] + ReplaceAll(b, pat, rep)) == a + ReplaceAll(b, pat, rep);
    } else {
      assert a + b == b;
    }
  }

  /** A pattern whose first character does not occur in `a` finds nothing there. */
  lemma ReplaceAllSkip(a: string, b: string, pat: string, rep: string)
    requires pat != [] && pat[0] !in a
    ensures ReplaceAll(a + b, pat, rep) == a + ReplaceAll(b, pat, rep)
  {
    forall i | 0 <= i < |a|
      ensures !MatchAt(a + b, i, pat)
    {
      if i + |pat| <= |a + b| {
        assert (a + b)[i..i + |pat|][0] == a[i];
      }
    }
    ReplaceAllPassOver(a, b, pat, rep);
  }

  /** A match at the front is replaced. */
  lemma ReplaceAllHead(b: string, pat: string, rep: string)
    requires pat != []
    ensures ReplaceAll(pat + b, pat, rep) == rep + ReplaceAll(b, pat, rep)
  {
    var s := pat + b;
    assert s[..|pat|] == pat && s[|pat|..] == b;
  }

  /** A character that the pattern does not hold cannot be part of a match:
      the replacement works on the two sides of it separately. */
  lemma {:induction false} ReplaceAllAround(a: string, c: char, b: string, pat: string, rep: string)
    requires pat != [] && c !in pat
    ensures ReplaceAll(a + [c] + b, pat, rep) == ReplaceAll(a, pat, rep) + [c] + ReplaceAll(b, pat, rep)
    decreases |a|
  {
    var s := a + [c] + b;
    if |a| == 0 {
      assert s == [c] + b;
      ReplaceAllSkip([c], b, pat, rep);
    } else if |s| >= |pat| && |pat| <= |a| && s[..|pat|] == pat {
      assert a[..|pat|] == pat;
      assert s[|pat|..] == a[|pat|..] + [c] + b;
      ReplaceAllAround(a[|pat|..], c, b, pat, rep);
    } else {
      assert !(|s| >= |pat| && s[..|pat|] == pat) by {
        if |s| >= |pat| && |pat| > |a| {
          assert s[..|pat|][|a|] == c;
        }
      }
      assert s[1..] == a[1..] + [c] + b;
      ReplaceAllAround(a[1..], c, b, pat, rep);
      if |a| >= |pat| {
        assert a[..|pat|] == s[..|pat|];
      } else {
        assert ReplaceAll(a[1..], pat, rep) == a[1..];
      }
      assert a == [a[0]] + a[1..];
    }
  }

  /** With a two-character pattern, text that does not end in the pattern's
      first character holds no match reaching past its end. */
  lemma {:induction false} ReplaceAllSplit(x: string, y: string, pat: string, rep: string)
    requires |pat| == 2 && (x == [] || x[|x| - 1] != pat[0])
    ensures ReplaceAll(x + y, pat, rep) == ReplaceAll(x, pat, rep) + ReplaceAll(y, pat, rep)
    decreases |x|
  {
    var s := x + y;
    if |x| == 0 {
      assert s == y;
    } else if |x| == 1 {
      if |s| >= 2 {
        assert s[..2][0] == x[0];
      }
      assert s[1..] == y;
    } else {
      var k := if x[..2] == pat then 2 else 1;
      assert x[k..] == [] || x[k..][|x[k..]| - 1] == x[|x| - 1];
      ReplaceAllSplit(x[k..], y, pat, rep);
      ReplaceAllSplitStep(x, y, pat, rep, k);
    }
  }

  /** One step of ReplaceAllSplit: the front of `x` is replaced or kept in
      `x + y` as in `x`. */
  lemma ReplaceAllSplitStep(x: string, y: string, pat: string, rep: string, k: nat)
    requires |pat| == 2 && |x| >= 2 && k == (if x[..2] == pat then 2 else 1)
    requires ReplaceAll(x[k..] + y, pat, rep) == ReplaceAll(x[k..], pat, rep) + ReplaceAll(y, pat, rep)
    ensures ReplaceAll(x + y, pat, rep) == ReplaceAll(x, pat, rep) + ReplaceAll(y, pat, rep)
  {
    var s := x + y;
    assert s[..2] == x[..2];
    assert s[k..] == x[k..] + y;
    var head := if k == 2 then rep else [x[0]];
    assert head + (ReplaceAll(x[k..], pat, rep) + ReplaceAll(y, pat, rep)) ==
      (head + ReplaceAll(x[k..], pat, rep)) + ReplaceAll(y, pat, rep);
  }

  /** A replacement that does not end in `c` keeps text from ending in `c`. */
  lemma {:induction false} ReplaceAllLast(x: string, pat: string, rep: string, c: char)
    requires pat != [] && |rep| > 0 && rep[|rep| - 1] != c
    requires x == [] || x[|x| - 1] != c
    ensures ReplaceAll(x, pat, rep) == [] || ReplaceAll(x, pat, rep)[|ReplaceAll(x, pat, rep)| - 1] != c
    decreases |x|
  {
    if |x| >= |pat| {
      if x[..|pat|] == pat {
        ReplaceAllLast(x[|pat|..], pat, rep, c);
      } else {
        ReplaceAllLast(x[1..], pat, rep, c);
      }
    }
  }

  /** The replacement keeps text non-empty, and its first character is the
      text's own or the replacement's. */
  lemma ReplaceAllFirst(x: string, pat: string, rep: string)
    requires pat != [] && |rep| > 0 && |x| > 0
    ensures |ReplaceAll(x, pat, rep)| > 0
    ensures ReplaceAll(x, pat, rep)[0] == x[0] || ReplaceAll(x, pat, rep)[0] == rep[0]
  {
  }

  lemma {:induction false} CountConcat(s: string, t: string, c: char)
    ensures Count(s + t, c) == Count(s, c) + Count(t, c)
    decreases |s|
  {
    if |s| == 0 {
      assert s + t == t;
    } else {
      assert (s + t)[1..] == s[1..] + t;
      CountConcat(s[1..], t, c);
    }
  }

  lemma {:induction false} CountAbsent(s: string, c: char)
    ensures Count(s, c) == 0 <==> c !in s
    decreases |s|
  {
    if |s| > 0 {
      CountAbsent(s[1..], c);
      assert s == [s[0]] + s[1..];
    }
  }

  /** strings.Join. */
  function Join(parts: seq<string>, sep: string): string
    decreases |parts|
  {
    if |parts| == 0 then ""
    else if |parts| == 1 then parts[0]
    else parts[0] + sep + Join(parts[1..], sep)
  }

  /** strings.Split with a one-character separator: the pieces between the
      separators, so that there is always one more piece than separators and
      joining the pieces again gives back the input. */
  function Split(s: string, d: char): (r: seq<string>)
    ensures |r| == Count(s, d) + 1
    ensures forall i | 0 <= i < |r| :: d !in r[i]
    ensures Join(r, [d]) == s
    decreases |s|
  {
    if |s| == 0 then [""]
    else
      var rest := Split(s[1..], d);
      if s[0] == d then
        assert Join([""] + rest, [d]) == [d] + Join(rest, [d]) by {
          if |rest| > 0 { assert ([""] + rest)[1..] == rest; }
        }
        [""] + rest
      else
        var r := [[s[0]] + rest[0]] + rest[1..];
        assert Join(r, [d]) == [s[0]] + Join(rest, [d]) by {
          if |rest| == 1 {
          } else {
            assert r[1..] == rest[1..];
            assert Join(rest, [d]) == rest[0] + [d] + Join(rest[1..], [d]);
          }
        }
        assert s == [s[0]] + s[1..];
        r
  }

  /** A character of a piece is a character of the joined text. */
  lemma {:induction false} JoinKeepsChars(parts: seq<string>, sep: string, i: nat, c: char)
    requires i < |parts| && c in parts[i]
    ensures c in Join(parts, sep)
    decreases |parts|
  {
    if |parts| > 1 {
      if i > 0 {
        JoinKeepsChars(parts[1..], sep, i - 1, c);
      }
      assert Join(parts, sep) == parts[0] + (sep + Join(parts[1..], sep));
    }
  }

  /** A string splits into exactly two pieces iff it holds the separator exactly
      once, and then it is the first piece, the separator, the second piece. */
  lemma SplitInTwo(s: string, d: char)
    ensures |Split(s, d)| == 2 <==> Count(s, d) == 1
    ensures |Split(s, d)| == 2 ==> s == Split(s, d)[0] + [d] + Split(s, d)[1]
  {
    var r := Split(s, d);
    if |r| == 2 {
      assert r[1..] == [r[1]];
      assert Join(r, [d]) == r[0] + [d] + Join(r[1..], [d]);
    }
  }

  /** Splitting at a separator occurrence splits the two sides independently. */
  lemma {:induction false} SplitConcat(a: string, b: string, d: char)
    ensures Split(a + [d] + b, d) == Split(a, d) + Split(b, d)
    decreases |a|
  {
    var s := a + [d] + b;
    if |a| == 0 {
      assert s[1..] == b;
    } else {
      assert s[0] == a[0] && s[1..] == a[1..] + [d] + b;
      SplitConcat(a[1..], b, d);
    }
  }

  /** A string without the separator is a single piece. */
  lemma SplitAbsent(s: string, d: char)
    requires d !in s
    ensures Split(s, d) == [s]
  {
    CountAbsent(s, d);
  }

  /** Pieces free of the separator come back from their join unchanged. */
  lemma {:induction false} SplitJoin(parts: seq<string>, d: char)
    requires |parts| > 0 && forall i | 0 <= i < |parts| :: d !in parts[i]
    ensures Split(Join(parts, [d]), d) == parts
    decreases |parts|
  {
    if |parts| == 1 {
      SplitAbsent(parts[0], d);
    } else {
      SplitJoin(parts[1..], d);
      SplitAbsent(parts[0], d);
      SplitConcat(parts[0], Join(parts[1..], [d]), d);
      assert Join(parts, [d]) == parts[0] + [d] + Join(parts[1..], [d]);
      assert parts == [parts[0]] + parts[1..];
    }
  }

  /** strings.Index for a one-character needle: the first position, or -1. */
  function IndexOf(s: string, c: char): (r: int)
    ensures -1 <= r < |s|
    ensures r == -1 <==> c !in s
    ensures 0 <= r ==> s[r] == c && c !in s[..r]
    decreases |s|
  {
    if |s| == 0 then -1
    else if s[0] == c then 0
    else
      var k := IndexOf(s[1..], c);
      if k < 0 then -1
      else
        assert s[..k + 1] == [s[0]] + s[1..][..k];
        k + 1
  }

  /** The last position of `c` in `s`, or -1. */
  function LastIndexOf(s: string, c: char): (r: int)
    ensures -1 <= r < |s|
    ensures r == -1 <==> c !in s
    ensures 0 <= r ==> s[r] == c && c !in s[r + 1..]
    decreases |s|
  {
    if |s| == 0 then -1
    else if s[|s| - 1] == c then |s| - 1
    else
      var init := s[..|s| - 1];
      assert s == init + [s[|s| - 1]];
      var k := LastIndexOf(init, c);
      assert 0 <= k ==> s[k + 1..] == init[k + 1..] + [s[|s| - 1]];
      k
  }

  // ---------------------------------------------------------------------
  // Decimal conversion

  function DigitChar(d: nat): char
    requires d < 10
  {
    ('0' as int + d) as char
  }

  function DigitValue(c: char): nat
    requires IsDigit(c)
  {
    c as int - '0' as int
  }

  /** Decimal text of a natural number, without leading zeros. */
  function NatToString(n: nat): string
    decreases n
  {
    if n < 10 then [DigitChar(n)] else NatToString(n / 10) + [DigitChar(n % 10)]
  }

  /** strconv.Itoa and fmt.Sprint of an integer. */
  function IntToString(n: int): string
  {
    if n < 0 then "-" + NatToString(-n) else NatToString(n)
  }

  lemma {:induction false} NatToStringDigits(n: nat)
    ensures |NatToString(n)| > 0 && AllDigits(NatToString(n))
    decreases n
  {
    if n >= 10 { NatToStringDigits(n / 10); }
  }

  /** How strconv.ParseUint's loop ends on a digit string with base 10. */
  datatype Scanned = Syntax | Range | Value(n: nat)

  /** The left-to-right scan of strconv.ParseUint: a non-digit is a syntax
      error, and a prefix whose value exceeds 64 bits is a range error at once,
      whatever follows it. */
  function ScanUint(s: string, acc: nat): Scanned
    decreases |s|
  {
    if |s| == 0 then Value(acc)
    else if !IsDigit(s[0]) then Syntax
    else
      var next := acc * 10 + DigitValue(s[0]);
      if next > MaxUint64 then Range else ScanUint(s[1..], next)
  }

  /** strconv.ParseUint(s, 10, 64): the empty string is a syntax error. */
  function ParseUint(s: string): Scanned
  {
    if s == "" then Syntax else ScanUint(s, 0)
  }

  /** One optional leading sign, as ParseInt and Atoi accept it. */
  function SignSplit(s: string): (r: (bool, string))
    ensures |r.1| <= |s|
  {
    if |s| > 0 && (s[0] == '-' || s[0] == '+') then (s[0] == '-', s[1..]) else (false, s)
  }

  /** strconv.Atoi on a 64-bit platform (and strconv.ParseInt(s, 10, 64)):
      None stands for a returned error. */
  function Atoi(s: string): Option<int>
  {
    var (neg, body) := SignSplit(s);
    match ParseUint(body)
    case Value(v) =>
      if neg then (if v <= -MinInt64 then Some(0 - v) else None)
      else (if v <= MaxInt64 then Some(v) else None)
    case _ => None
  }

  /** The value that `t, _ := strconv.Atoi(s)` leaves in `t`: 0 after a
      syntax error, the nearest 64-bit bound after a range error. */
  function AtoiIgnoringError(s: string): int
  {
    var (neg, body) := SignSplit(s);
    match ParseUint(body)
    case Syntax => 0
    case Range => if neg then MinInt64 else MaxInt64
    case Value(v) =>
      if neg then (if v > -MinInt64 then MinInt64 else 0 - v)
      else (if v > MaxInt64 then MaxInt64 else v)
  }

  lemma {:induction false} ScanAppend(s: string, t: string, acc: nat)
    requires ScanUint(s, acc).Value?
    ensures ScanUint(s + t, acc) == ScanUint(t, ScanUint(s, acc).n)
    decreases |s|
  {
    if |s| == 0 {
      assert s + t == t;
    } else {
      var next := acc * 10 + DigitValue(s[0]);
      assert IsDigit(s[0]) && next <= MaxUint64;
      assert ScanUint(s, acc) == ScanUint(s[1..], next);
      assert (s + t)[0] == s[0] && (s + t)[1..] == s[1..] + t;
      assert ScanUint(s + t, acc) == ScanUint(s[1..] + t, next);
      ScanAppend(s[1..], t, next);
    }
  }

  lemma {:induction false} ScanNatToString(n: nat)
    requires n <= MaxUint64
    ensures ScanUint(NatToString(n), 0) == Value(n)
    decreases n
  {
    if n >= 10 {
      ScanNatToString(n / 10);
      ScanAppend(NatToString(n / 10), [DigitChar(n % 10)], 0);
      assert ScanUint([DigitChar(n % 10)], n / 10) == Value(n) by {
        assert [DigitChar(n % 10)][1..] == [];
      }
    }
  }

  /** Once the scan has overflowed, more text does not change the verdict. */
  lemma {:induction false} ScanRangeAppend(s: string, t: string, acc: nat)
    requires ScanUint(s, acc) == Range
    ensures ScanUint(s + t, acc) == Range
    decreases |s|
  {
    assert |s| > 0;
    assert (s + t)[0] == s[0] && (s + t)[1..] == s[1..] + t;
    var next := acc * 10 + DigitValue(s[0]);
    if next <= MaxUint64 {
      ScanRangeAppend(s[1..], t, next);
    }
  }

  /** A non-digit ahead ends the scan without a value. */
  lemma {:induction false} ScanStopsAtNonDigit(s: string, t: string, acc: nat)
    requires |t| > 0 && !IsDigit(t[0])
    ensures !ScanUint(s + t, acc).Value?
    decreases |s|
  {
    if |s| == 0 {
      assert s + t == t;
    } else {
      assert (s + t)[0] == s[0] && (s + t)[1..] == s[1..] + t;
      if IsDigit(s[0]) && acc * 10 + DigitValue(s[0]) <= MaxUint64 {
        ScanStopsAtNonDigit(s[1..], t, acc * 10 + DigitValue(s[0]));
      }
    }
  }

  /** The scan of a decimal numeral gives its value, or a range error beyond 64 bits. */
  lemma {:induction false} ScanOfNatToString(n: nat)
    ensures ScanUint(NatToString(n), 0) == if n <= MaxUint64 then Value(n) else Range
    decreases n
  {
    if n >= 10 {
      ScanOfNatToString(n / 10);
      var d := [DigitChar(n % 10)];
      assert d[1..] == [];
      if n / 10 <= MaxUint64 {
        ScanAppend(NatToString(n / 10), d, 0);
      } else {
        ScanRangeAppend(NatToString(n / 10), d, 0);
      }
    }
  }

  /** Atoi of a numeral: its value within 64 bits, an error beyond. */
  lemma AtoiOfNatToString(n: nat)
    ensures Atoi(NatToString(n)) == if n <= MaxInt64 then Some(n) else None
  {
    NatToStringDigits(n);
    ScanOfNatToString(n);
    assert IsDigit(NatToString(n)[0]);
  }

  /** Atoi reads back what Itoa writes, for every 64-bit integer. */
  lemma AtoiOfIntToString(n: int)
    requires MinInt64 <= n <= MaxInt64
    ensures Atoi(IntToString(n)) == Some(n)
    ensures AtoiIgnoringError(IntToString(n)) == n
  {
    var m: nat := if n < 0 then -n else n;
    NatToStringDigits(m);
    ScanNatToString(m);
    if n < 0 {
      assert ("-" + NatToString(m))[1..] == NatToString(m);
    } else {
      assert IsDigit(NatToString(m)[0]);
    }
  }

  /** A string that starts with something other than a sign or a digit reads
      as 0 when Atoi's error is ignored. */
  lemma AtoiIgnoringErrorOfNonNumeric(s: string)
    requires |s| > 0 && !IsDigit(s[0]) && s[0] != '-' && s[0] != '+'
    ensures AtoiIgnoringError(s) == 0
    ensures Atoi(s) == None
  {
  }

  /** ASCII lower case, as Go's case-insensitive prefix test uses it. */
  function Lower(c: char): char
  {
    if 'A' <= c <= 'Z' then (c as int + 32) as char else c
  }

  predicate EqualsIgnoreCase(s: string, t: string)
  {
    |s| == |t| && forall i | 0 <= i < |s| :: Lower(s[i]) == Lower(t[i])
  }
}
