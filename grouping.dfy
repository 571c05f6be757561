/** Grouping by measurement: pkg/general/splitPointsByMeasurement.go and the
    two legacy `measurementSplitter`s.  Points are appended to a map of
    slices keyed by measurement, and the map is then copied into a slice of
    groups.  Go's map iteration order is unspecified, so the copy loop picks
    its next key arbitrarily and the result is specified up to the order of
    the groups. */
module Grouping {
  import opened Points
  import opened Filter

  /** The points of one measurement, in input order. */
  function WithName<P>(ps: seq<P>, nameOf: P -> string, m: string): seq<P>
  {
    if |ps| == 0 then []
    else
      var last := ps[|ps| - 1];
      WithName(ps[..|ps| - 1], nameOf, m) + (if nameOf(last) == m then [last] else [])
  }

  /** The measurements that occur in the input. */
  function Names<P>(ps: seq<P>, nameOf: P -> string): set<string>
  {
    set i | 0 <= i < |ps| :: nameOf(ps[i])
  }

  /** The measurements of a list of groups. */
  function GroupNames<P>(r: seq<Group<P>>): set<string>
  {
    set i | 0 <= i < |r| :: r[i].measurement
  }

  /** The map the first loop builds: `groupedPoints[m] = append(groupedPoints[m], p)`. */
  function Grouped<P>(ps: seq<P>, nameOf: P -> string): map<string, seq<P>>
  {
    if |ps| == 0 then map[]
    else
      var g := Grouped(ps[..|ps| - 1], nameOf);
      var last := ps[|ps| - 1];
      var m := nameOf(last);
      g[m := (if m in g then g[m] else []) + [last]]
  }

  /** What a correct split yields: one non-empty group per distinct
      measurement, holding exactly that measurement's points in input order. */
  ghost predicate IsGrouping<P>(r: seq<Group<P>>, input: seq<P>, nameOf: P -> string)
  {
    (forall i | 0 <= i < |r| ::
      r[i].points == WithName(input, nameOf, r[i].measurement) && |r[i].points| > 0) &&
    (forall i, j | 0 <= i < j < |r| :: r[i].measurement != r[j].measurement) &&
    GroupNames(r) == Names(input, nameOf)
  }

  /** The number of points in all groups. */
  function TotalPoints<P>(r: seq<Group<P>>): nat
  {
    if |r| == 0 then 0 else TotalPoints(r[..|r| - 1]) + |r[|r| - 1].points|
  }

  /** The points whose measurement is in `s`, in input order. */
  function Among<P>(ps: seq<P>, nameOf: P -> string, s: set<string>): seq<P>
  {
    if |ps| == 0 then []
    else
      var last := ps[|ps| - 1];
      Among(ps[..|ps| - 1], nameOf, s) + (if nameOf(last) in s then [last] else [])
  }

  // ---------------------------------------------------------------------
  // Properties

  lemma NamesStep<P>(ps: seq<P>, nameOf: P -> string)
    requires |ps| > 0
    ensures Names(ps, nameOf) == Names(ps[..|ps| - 1], nameOf) + {nameOf(ps[|ps| - 1])}
  {
    var init := ps[..|ps| - 1];
    forall m | m in Names(ps, nameOf)
      ensures m in Names(init, nameOf) + {nameOf(ps[|ps| - 1])}
    {
      var i :| 0 <= i < |ps| && nameOf(ps[i]) == m;
      if i < |init| {
        assert nameOf(init[i]) == m;
      }
    }
    forall m | m in Names(init, nameOf)
      ensures m in Names(ps, nameOf)
    {
      var i :| 0 <= i < |init| && nameOf(init[i]) == m;
      assert nameOf(ps[i]) == m;
    }
  }

  /** The map built by the first loop has a key per measurement, and each
      entry is that measurement's points in input order. */
  lemma {:induction false} GroupedIsWithName<P>(ps: seq<P>, nameOf: P -> string)
    ensures Grouped(ps, nameOf).Keys == Names(ps, nameOf)
    ensures forall m | m in Grouped(ps, nameOf) ::
      Grouped(ps, nameOf)[m] == WithName(ps, nameOf, m) && |Grouped(ps, nameOf)[m]| > 0
    ensures forall m | m !in Names(ps, nameOf) :: WithName(ps, nameOf, m) == []
    decreases |ps|
  {
    if |ps| > 0 {
      GroupedIsWithName(ps[..|ps| - 1], nameOf);
      NamesStep(ps, nameOf);
    }
  }

  /** A group holds exactly the input points of its measurement. */
  lemma {:induction false} WithNameMembers<P>(ps: seq<P>, nameOf: P -> string, m: string, x: P)
    ensures x in WithName(ps, nameOf, m) <==> x in ps && nameOf(x) == m
    decreases |ps|
  {
    if |ps| > 0 {
      var init := ps[..|ps| - 1];
      WithNameMembers(init, nameOf, m, x);
      assert ps == init + [ps[|ps| - 1]];
    }
  }

  /** Within a group, points keep their input order. */
  lemma {:induction false} WithNameIsSubsequence<P>(ps: seq<P>, nameOf: P -> string, m: string)
    ensures IsSubsequence(WithName(ps, nameOf, m), ps)
    decreases |ps|
  {
    if |ps| > 0 {
      var init, last := ps[..|ps| - 1], ps[|ps| - 1];
      var w := WithName(init, nameOf, m);
      WithNameIsSubsequence(init, nameOf, m);
      if nameOf(last) == m {
        assert WithName(ps, nameOf, m) == w + [last];
        assert (w + [last])[..|w|] == w;
      } else {
        assert WithName(ps, nameOf, m) == w;
        if |w| > 0 {
          assert IsSubsequence(w, ps[..|ps| - 1]);
        }
      }
    }
  }

  /** Adding a measurement to `s` adds exactly its points. */
  lemma {:induction false} AmongAddName<P>(ps: seq<P>, nameOf: P -> string, s: set<string>, m: string)
    requires m !in s
    ensures |Among(ps, nameOf, s + {m})| == |Among(ps, nameOf, s)| + |WithName(ps, nameOf, m)|
    decreases |ps|
  {
    if |ps| > 0 {
      AmongAddName(ps[..|ps| - 1], nameOf, s, m);
    }
  }

  /** Selecting every measurement that occurs selects every point. */
  lemma {:induction false} AmongAll<P>(ps: seq<P>, nameOf: P -> string, s: set<string>)
    requires Names(ps, nameOf) <= s
    ensures Among(ps, nameOf, s) == ps
    decreases |ps|
  {
    if |ps| > 0 {
      var init := ps[..|ps| - 1];
      NamesStep(ps, nameOf);
      AmongAll(init, nameOf, s);
      assert nameOf(ps[|ps| - 1]) in s;
      assert ps == init + [ps[|ps| - 1]];
    }
  }

  /** Groups of distinct measurements hold as many points as those
      measurements have in the input. */
  lemma {:induction false} TotalIsAmong<P>(r: seq<Group<P>>, input: seq<P>, nameOf: P -> string)
    requires forall i | 0 <= i < |r| :: r[i].points == WithName(input, nameOf, r[i].measurement)
    requires forall i, j | 0 <= i < j < |r| :: r[i].measurement != r[j].measurement
    ensures TotalPoints(r) == |Among(input, nameOf, GroupNames(r))|
    decreases |r|
  {
    if |r| == 0 {
      GroupNamesEmpty(r);
      AmongNone(input, nameOf);
    } else {
      var init := r[..|r| - 1];
      var m := r[|r| - 1].measurement;
      TotalIsAmong(init, input, nameOf);
      assert r == init + [r[|r| - 1]];
      GroupNamesAppend(init, r[|r| - 1]);
      assert m !in GroupNames(init);
      AmongAddName(input, nameOf, GroupNames(init), m);
      assert TotalPoints(r) == TotalPoints(init) + |WithName(input, nameOf, m)|;
    }
  }

  lemma GroupNamesEmpty<P>(r: seq<Group<P>>)
    ensures GroupNames(r) == {} <==> r == []
  {
    if |r| > 0 {
      assert r[0].measurement in GroupNames(r);
    } else {
      assert forall x :: x !in GroupNames(r);
    }
  }

  lemma GroupNamesAppend<P>(r: seq<Group<P>>, g: Group<P>)
    ensures GroupNames(r + [g]) == GroupNames(r) + {g.measurement}
  {
    forall x | x in GroupNames(r + [g]) ensures x in GroupNames(r) + {g.measurement} {
      var j :| 0 <= j < |r + [g]| && (r + [g])[j].measurement == x;
      if j < |r| {
        assert r[j].measurement == x;
      }
    }
    forall x | x in GroupNames(r) ensures x in GroupNames(r + [g]) {
      var j :| 0 <= j < |r| && r[j].measurement == x;
      assert (r + [g])[j].measurement == x;
    }
    assert (r + [g])[|r|].measurement == g.measurement;
  }

  lemma {:induction false} AmongNone<P>(ps: seq<P>, nameOf: P -> string)
    ensures Among(ps, nameOf, {}) == []
    decreases |ps|
  {
    if |ps| > 0 {
      AmongNone(ps[..|ps| - 1], nameOf);
    }
  }

  /** Every input point lands in exactly one group, so the total count is kept. */
  lemma GroupingPreservesCount<P>(r: seq<Group<P>>, input: seq<P>, nameOf: P -> string)
    requires IsGrouping(r, input, nameOf)
    ensures TotalPoints(r) == |input|
  {
    TotalIsAmong(r, input, nameOf);
    AmongAll(input, nameOf, GroupNames(r));
  }

  /** Each input point is in the group of its measurement, and only there. */
  lemma PointInOwnGroup<P>(r: seq<Group<P>>, input: seq<P>, nameOf: P -> string, k: nat)
    requires IsGrouping(r, input, nameOf) && k < |input|
    ensures exists i | 0 <= i < |r| :: r[i].measurement == nameOf(input[k]) && input[k] in r[i].points
    ensures forall i | 0 <= i < |r| && input[k] in r[i].points :: r[i].measurement == nameOf(input[k])
  {
    var m := nameOf(input[k]);
    assert m in Names(input, nameOf);
    assert m in GroupNames(r);
    var i :| 0 <= i < |r| && r[i].measurement == m;
    WithNameMembers(input, nameOf, m, input[k]);
    forall j | 0 <= j < |r| && input[k] in r[j].points
      ensures r[j].measurement == m
    {
      WithNameMembers(input, nameOf, r[j].measurement, input[k]);
    }
  }

  /** No input, no groups. */
  lemma EmptyInputNoGroups<P>(r: seq<Group<P>>, nameOf: P -> string)
    requires IsGrouping(r, [], nameOf)
    ensures r == []
  {
    GroupNamesEmpty(r);
  }

  // ---------------------------------------------------------------------
  // The loops of the source

  /** The first loop: append each point to its measurement's entry. */
  method GroupPoints<P>(input: seq<P>, nameOf: P -> string) returns (grouped: map<string, seq<P>>)
    ensures grouped == Grouped(input, nameOf)
  {
    grouped := map[];
    var i := 0;
    while i < |input|
      invariant 0 <= i <= |input|
      invariant grouped == Grouped(input[..i], nameOf)
    {
      var m := nameOf(input[i]);
      grouped := grouped[m := (if m in grouped then grouped[m] else []) + [input[i]]];
      assert input[..i + 1][..i] == input[..i];
      i := i + 1;
    }
    assert input[..i] == input;
  }

  /** What the second loop has done so far: one group for each key no
      longer in `rest`. */
  ghost predicate CopiedSoFar<P>(r: seq<Group<P>>, rest: set<string>, grouped: map<string, seq<P>>)
  {
    rest <= grouped.Keys &&
    (forall j | 0 <= j < |r| ::
      r[j].measurement in grouped && r[j].measurement !in rest && r[j].points == grouped[r[j].measurement]) &&
    (forall j, l | 0 <= j < l < |r| :: r[j].measurement != r[l].measurement) &&
    GroupNames(r) + rest == grouped.Keys
  }

  lemma CopyStep<P>(r: seq<Group<P>>, rest: set<string>, grouped: map<string, seq<P>>, k: string)
    requires CopiedSoFar(r, rest, grouped) && k in rest
    ensures CopiedSoFar(r + [Group(k, grouped[k])], rest - {k}, grouped)
  {
    var g := Group(k, grouped[k]);
    GroupNamesAppend(r, g);
    assert forall j | 0 <= j < |r| :: (r + [g])[j] == r[j];
  }

  /** The second loop: one group per map entry, in the map's iteration order. */
  method CopyGroups<P>(grouped: map<string, seq<P>>) returns (r: seq<Group<P>>)
    ensures forall j | 0 <= j < |r| :: r[j].measurement in grouped && r[j].points == grouped[r[j].measurement]
    ensures forall j, l | 0 <= j < l < |r| :: r[j].measurement != r[l].measurement
    ensures GroupNames(r) == grouped.Keys
  {
    r := [];
    var rest := grouped.Keys;
    GroupNamesEmpty(r);
    while rest != {}
      invariant CopiedSoFar(r, rest, grouped)
      decreases |rest|
    {
      var k :| k in rest;
      CopyStep(r, rest, grouped, k);
      r := r + [Group(k, grouped[k])];
      rest := rest - {k};
    }
  }

  /** Both loops of `SplitPointsByMeasurement`, for any point shape. */
  method SplitBy<P>(input: seq<P>, nameOf: P -> string) returns (r: seq<Group<P>>)
    ensures IsGrouping(r, input, nameOf)
  {
    var grouped := GroupPoints(input, nameOf);
    GroupedIsWithName(input, nameOf);
    r := CopyGroups(grouped);
  }

  /** `SplitPointsByMeasurement` of pkg/general. */
  method SplitPointsByMeasurement(input: seq<Point>) returns (r: seq<PointGroup>)
    ensures IsGrouping(r, input, PointName)
  {
    r := SplitBy(input, PointName);
  }

  /** The legacy `measurementSplitter`, on the older point shape. */
  method MeasurementSplitter(input: seq<LegacyPoint>) returns (r: seq<Group<LegacyPoint>>)
    ensures IsGrouping(r, input, LegacyName)
  {
    r := SplitBy(input, LegacyName);
  }
}
