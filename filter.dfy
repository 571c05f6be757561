/** Tag filtering: pkg/general/filterPoints.go and the `filterPoints` of
    pkg/general/processMeasurementPoints.go.  A point passes when the include
    rules are empty or one of its tags is included, and none of its tags is
    blocked.  A rule maps a tag key to a list of values; the value `"*"`
    matches any value of that tag.

    The stage functions below work on any point shape, given how to read its
    tags, because the legacy receiver filters its own point type the same
    way. */
module Filter {
  import opened Points
  import opened Config

  const Wildcard := "*"

  /** A rule's value list admits the tag value. */
  predicate Hits(values: seq<string>, value: string)
  {
    Wildcard in values || value in values
  }

  /** Some tag of the point is named by a rule whose list admits its value. */
  predicate Matches(tags: map<string, string>, rules: Rules)
  {
    exists k | k in tags && k in rules :: Hits(rules[k], tags[k])
  }

  /** The whole filter for a single point. */
  predicate Passes(tags: map<string, string>, inc: Rules, blk: Rules)
  {
    (|inc| == 0 || Matches(tags, inc)) && !Matches(tags, blk)
  }

  /** The include stage with rules present: the matching points, in order. */
  function KeepMatching<P>(ps: seq<P>, tagsOf: P -> map<string, string>, rules: Rules): seq<P>
  {
    if |ps| == 0 then []
    else
      var last := ps[|ps| - 1];
      KeepMatching(ps[..|ps| - 1], tagsOf, rules) + (if Matches(tagsOf(last), rules) then [last] else [])
  }

  /** The block stage: the points that do not match, in order. */
  function DropMatching<P>(ps: seq<P>, tagsOf: P -> map<string, string>, rules: Rules): seq<P>
  {
    if |ps| == 0 then []
    else
      var last := ps[|ps| - 1];
      DropMatching(ps[..|ps| - 1], tagsOf, rules) + (if Matches(tagsOf(last), rules) then [] else [last])
  }

  /** The include stage: no include rules means no filtering. */
  function Included<P>(ps: seq<P>, tagsOf: P -> map<string, string>, inc: Rules): seq<P>
  {
    if |inc| == 0 then ps else KeepMatching(ps, tagsOf, inc)
  }

  /** Reference definition of the filter: the points that pass, in order. */
  function Selected<P>(ps: seq<P>, tagsOf: P -> map<string, string>, inc: Rules, blk: Rules): seq<P>
  {
    if |ps| == 0 then []
    else
      var last := ps[|ps| - 1];
      Selected(ps[..|ps| - 1], tagsOf, inc, blk) +
        (if Passes(tagsOf(last), inc, blk) then [last] else [])
  }

  /** `xs` is `ys` with some elements left out. */
  predicate IsSubsequence<T(==)>(xs: seq<T>, ys: seq<T>)
    decreases |ys|
  {
    if |xs| == 0 then true
    else if |ys| == 0 then false
    else
      (xs[|xs| - 1] == ys[|ys| - 1] && IsSubsequence(xs[..|xs| - 1], ys[..|ys| - 1])) ||
      IsSubsequence(xs, ys[..|ys| - 1])
  }

  // ---------------------------------------------------------------------
  // Properties of the filter

  /** Running the include stage and then the block stage is the one-pass filter. */
  lemma {:induction false} StagesCompose<P>(ps: seq<P>, tagsOf: P -> map<string, string>, inc: Rules, blk: Rules)
    ensures DropMatching(Included(ps, tagsOf, inc), tagsOf, blk) == Selected(ps, tagsOf, inc, blk)
    decreases |ps|
  {
    if |ps| > 0 {
      var init, last := ps[..|ps| - 1], ps[|ps| - 1];
      StagesCompose(init, tagsOf, inc, blk);
      var sel := Selected(init, tagsOf, inc, blk);
      assert Selected(ps, tagsOf, inc, blk) ==
        sel + (if Passes(tagsOf(last), inc, blk) then [last] else []);
      if |inc| == 0 {
        assert DropMatching(ps, tagsOf, blk) ==
          DropMatching(init, tagsOf, blk) + (if Matches(tagsOf(last), blk) then [] else [last]);
      } else if Matches(tagsOf(last), inc) {
        var kept := KeepMatching(init, tagsOf, inc);
        assert KeepMatching(ps, tagsOf, inc) == kept + [last];
        assert (kept + [last])[..|kept|] == kept;
        assert DropMatching(kept + [last], tagsOf, blk) ==
          DropMatching(kept, tagsOf, blk) + (if Matches(tagsOf(last), blk) then [] else [last]);
      } else {
        assert KeepMatching(ps, tagsOf, inc) == KeepMatching(init, tagsOf, inc);
      }
    }
  }

  /** An empty include map sends every point to the block stage. */
  lemma EmptyIncludeOnlyBlocks<P>(ps: seq<P>, tagsOf: P -> map<string, string>, inc: Rules, blk: Rules)
    requires |inc| == 0
    ensures Selected(ps, tagsOf, inc, blk) == DropMatching(ps, tagsOf, blk)
  {
    StagesCompose(ps, tagsOf, inc, blk);
  }

  /** Without rules the filter keeps everything. */
  lemma {:induction false} NoRulesKeepsAll<P>(ps: seq<P>, tagsOf: P -> map<string, string>, inc: Rules, blk: Rules)
    requires |inc| == 0 && |blk| == 0
    ensures Selected(ps, tagsOf, inc, blk) == ps
    decreases |ps|
  {
    if |ps| > 0 {
      NoRulesKeepsAll(ps[..|ps| - 1], tagsOf, inc, blk);
      assert !Matches(tagsOf(ps[|ps| - 1]), blk);
    }
  }

  /** Each point that passes is kept exactly as often as it occurs; every
      other point is gone. */
  lemma {:induction false} SelectedCounts<P>(ps: seq<P>, tagsOf: P -> map<string, string>, inc: Rules, blk: Rules, x: P)
    ensures multiset(Selected(ps, tagsOf, inc, blk))[x] ==
      if Passes(tagsOf(x), inc, blk) then multiset(ps)[x] else 0
    decreases |ps|
  {
    if |ps| > 0 {
      var init, last := ps[..|ps| - 1], ps[|ps| - 1];
      var tail := if Passes(tagsOf(last), inc, blk) then [last] else [];
      SelectedCounts(init, tagsOf, inc, blk, x);
      assert ps == init + [last];
      CountAppend(Selected(init, tagsOf, inc, blk), tail, x);
      CountAppend(init, [last], x);
    }
  }

  lemma CountAppend<P>(a: seq<P>, b: seq<P>, x: P)
    ensures multiset(a + b)[x] == multiset(a)[x] + multiset(b)[x]
  {
    assert multiset(a + b) == multiset(a) + multiset(b);
  }

  /** A point is in the result iff it is in the input and passes both stages. */
  lemma SelectedMembers<P>(ps: seq<P>, tagsOf: P -> map<string, string>, inc: Rules, blk: Rules, x: P)
    ensures x in Selected(ps, tagsOf, inc, blk) <==>
      x in ps && (|inc| == 0 || Matches(tagsOf(x), inc)) && !Matches(tagsOf(x), blk)
  {
    SelectedCounts(ps, tagsOf, inc, blk, x);
    assert x in ps <==> multiset(ps)[x] > 0;
    assert x in Selected(ps, tagsOf, inc, blk) <==> multiset(Selected(ps, tagsOf, inc, blk))[x] > 0;
  }

  /** The survivors keep their relative order. */
  lemma {:induction false} SelectedIsSubsequence<P>(ps: seq<P>, tagsOf: P -> map<string, string>, inc: Rules, blk: Rules)
    ensures IsSubsequence(Selected(ps, tagsOf, inc, blk), ps)
    decreases |ps|
  {
    if |ps| > 0 {
      var init, last := ps[..|ps| - 1], ps[|ps| - 1];
      var s := Selected(init, tagsOf, inc, blk);
      SelectedIsSubsequence(init, tagsOf, inc, blk);
      if Passes(tagsOf(last), inc, blk) {
        assert Selected(ps, tagsOf, inc, blk) == s + [last];
        assert (s + [last])[..|s|] == s;
      } else {
        assert Selected(ps, tagsOf, inc, blk) == s;
        if |s| > 0 {
          assert IsSubsequence(s, ps[..|ps| - 1]);
        }
      }
    }
  }

  /** Filtering twice with the same rules is filtering once. */
  lemma {:induction false} SelectedIdempotent<P>(ps: seq<P>, tagsOf: P -> map<string, string>, inc: Rules, blk: Rules)
    ensures Selected(Selected(ps, tagsOf, inc, blk), tagsOf, inc, blk) ==
      Selected(ps, tagsOf, inc, blk)
    decreases |ps|
  {
    if |ps| > 0 {
      var init, last := ps[..|ps| - 1], ps[|ps| - 1];
      var s := Selected(init, tagsOf, inc, blk);
      SelectedIdempotent(init, tagsOf, inc, blk);
      if Passes(tagsOf(last), inc, blk) {
        assert Selected(ps, tagsOf, inc, blk) == s + [last];
        assert (s + [last])[..|s|] == s;
        assert Selected(s + [last], tagsOf, inc, blk) == Selected(s, tagsOf, inc, blk) + [last];
      } else {
        assert Selected(ps, tagsOf, inc, blk) == s;
      }
    }
  }

  // ---------------------------------------------------------------------
  // The loops of the source

  /** `contains`: linear membership test. */
  method Contains<T(==)>(s: seq<T>, e: T) returns (found: bool)
    ensures found <==> e in s
  {
    var i := 0;
    while i < |s|
      invariant 0 <= i <= |s|
      invariant e !in s[..i]
    {
      if s[i] == e {
        return true;
      }
      assert s[..i + 1] == s[..i] + [s[i]];
      i := i + 1;
    }
    assert s[..i] == s;
    return false;
  }

  /** The loop over one rule's values: `v == "*" || tagValue == v`. */
  method HitsAny(values: seq<string>, value: string) returns (hit: bool)
    ensures hit <==> Hits(values, value)
  {
    var i := 0;
    while i < |values|
      invariant 0 <= i <= |values|
      invariant forall j | 0 <= j < i :: values[j] != Wildcard && values[j] != value
    {
      if values[i] == Wildcard || value == values[i] {
        return true;
      }
      i := i + 1;
    }
    return false;
  }

  /** The labelled loop over a point's tags, in the map's (unspecified)
      iteration order, left at the first hit. */
  method TagsMatch(tags: map<string, string>, rules: Rules) returns (m: bool)
    ensures m <==> Matches(tags, rules)
  {
    var rest := tags.Keys;
    while rest != {}
      invariant rest <= tags.Keys
      invariant forall k | k in tags && k !in rest && k in rules :: !Hits(rules[k], tags[k])
      decreases |rest|
    {
      var k :| k in rest;
      if k in rules {
        var hit := HitsAny(rules[k], tags[k]);
        if hit {
          return true;
        }
      }
      rest := rest - {k};
    }
    return false;
  }

  /** The include loop: each point whose tags match is appended once. */
  method IncludeStage<P>(points: seq<P>, tagsOf: P -> map<string, string>, inc: Rules)
    returns (filtered: seq<P>)
    ensures filtered == Included(points, tagsOf, inc)
  {
    if |inc| == 0 {
      return points;
    }
    filtered := [];
    var i := 0;
    while i < |points|
      invariant 0 <= i <= |points|
      invariant filtered == KeepMatching(points[..i], tagsOf, inc)
    {
      var m := TagsMatch(tagsOf(points[i]), inc);
      if m {
        filtered := filtered + [points[i]];
      }
      assert points[..i + 1][..i] == points[..i];
      i := i + 1;
    }
    assert points[..i] == points;
  }

  /** The loop collecting `keysToDelete`: the indices of the blocked points. */
  method BlockedIndices<P>(filtered: seq<P>, tagsOf: P -> map<string, string>, blk: Rules)
    returns (keysToDelete: seq<int>)
    ensures forall j: int :: j in keysToDelete <==> 0 <= j < |filtered| && Matches(tagsOf(filtered[j]), blk)
  {
    keysToDelete := [];
    var i := 0;
    while i < |filtered|
      invariant 0 <= i <= |filtered|
      invariant forall j: int :: j in keysToDelete <==> 0 <= j < i && Matches(tagsOf(filtered[j]), blk)
    {
      var m := TagsMatch(tagsOf(filtered[i]), blk);
      if m {
        keysToDelete := keysToDelete + [i];
      }
      i := i + 1;
    }
  }

  /** The block stage: copy every point whose index was not collected. */
  method BlockStage<P>(filtered: seq<P>, tagsOf: P -> map<string, string>, blk: Rules)
    returns (result: seq<P>)
    ensures result == DropMatching(filtered, tagsOf, blk)
  {
    var keysToDelete := BlockedIndices(filtered, tagsOf, blk);
    result := [];
    var i := 0;
    while i < |filtered|
      invariant 0 <= i <= |filtered|
      invariant result == DropMatching(filtered[..i], tagsOf, blk)
    {
      var deleted := Contains(keysToDelete, i);
      if !deleted {
        result := result + [filtered[i]];
      }
      assert filtered[..i + 1][..i] == filtered[..i];
      i := i + 1;
    }
    assert filtered[..i] == filtered;
  }

  /** The body shared by both filter functions: include, then block. */
  method FilterByRules<P>(points: seq<P>, tagsOf: P -> map<string, string>, inc: Rules, blk: Rules)
    returns (result: seq<P>)
    ensures result == Selected(points, tagsOf, inc, blk)
  {
    var filtered := IncludeStage(points, tagsOf, inc);
    result := BlockStage(filtered, tagsOf, blk);
    StagesCompose(points, tagsOf, inc, blk);
  }

  /** The argument of `FilterPoints`, an `interface{}` seen through its type
      switch: a configuration value, a pointer to one, or anything else. */
  datatype FilterArg =
    | ConfigValue(output: OutputConfig)
    | ConfigPointer(output: OutputConfig)
    | Unrecognised

  /** `FilterPoints`: only a configuration value supplies rules; a pointer or
      any other argument leaves both rule maps empty, so nothing is filtered. */
  method FilterPoints(points: seq<Point>, c: FilterArg) returns (result: seq<Point>)
    ensures c.ConfigValue? ==>
      result == Selected(points, PointTags, c.output.GetTagfilterInclude(), c.output.GetTagfilterBlock())
    ensures !c.ConfigValue? ==> result == points
  {
    var inc: Rules := map[];
    var blk: Rules := map[];
    if c.ConfigValue? {
      inc := c.output.GetTagfilterInclude();
      blk := c.output.GetTagfilterBlock();
    }
    result := FilterByRules(points, PointTags, inc, blk);
    if !c.ConfigValue? {
      NoRulesKeepsAll(points, PointTags, inc, blk);
    }
  }

  /** `filterPoints` of processMeasurementPoints.go: the rules come from the
      output's getters. */
  method FilterOutput(points: seq<Point>, cfg: OutputConfig) returns (result: seq<Point>)
    ensures result == Selected(points, PointTags, cfg.GetTagfilterInclude(), cfg.GetTagfilterBlock())
  {
    result := FilterByRules(points, PointTags, cfg.GetTagfilterInclude(), cfg.GetTagfilterBlock());
  }
}
