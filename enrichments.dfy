/** pkg/enrichments/omnikeeper.go: the periodic refresh of the enrichment
    cache (retry counter, attribute flattening, per-set cache replace), the
    cache accessors and `intListToStringList`; and the two functions the
    preparation step calls but whose source is not part of this model,
    `FindEnrichmentSetByName` and `EnrichTags`, given the behaviour that
    pkg/enrichments/omnikeeper_test.go expects of them.

    The network fetch of each set's entities is not modelled: its outcome,
    one per configured set in order, is an input of the refresh. */
module Enrichments {
  import opened Errors
  import opened Text
  import opened Config

  /** AttributeValue of the trait response: only the array flag and the
      values are read. */
  datatype AttributeValue = AttributeValue(isArray: bool, values: seq<string>)

  /** One entity's trait attributes, by attribute name. */
  type Entity = map<string, AttributeValue>

  /** What one `getCisByTraitV2` call yields: entities by CI id, or an error. */
  datatype Fetch = Fetched(result: map<string, Entity>) | FetchFailed(reason: string)

  /** Flattened attributes of one set: CI id to attribute name to value. */
  type SetItems = map<string, map<string, string>>

  /** The whole cache: set name to that set's items. */
  type CacheItems = map<string, SetItems>

  /** The attribute that is never copied into the cache. */
  const CiidAttribute := "ciid"

  /** `v.Value.Values[0]` on an empty slice: the flattening panics. */
  predicate Panics(e: Entity)
  {
    exists k | k in e && k != CiidAttribute :: !e[k].isArray && |e[k].values| == 0
  }

  predicate AnyPanics(res: map<string, Entity>)
  {
    exists key | key in res :: Panics(res[key])
  }

  /** The flattening of one entity: every attribute but `ciid` whose value is
      not an array, mapped to its first value. */
  function Flattened(e: Entity): (r: Result<map<string, string>>)
    ensures r.Err? <==> Panics(e)
    ensures r.Ok? ==> CiidAttribute !in r.value
    ensures r.Ok? ==> forall k | k in r.value :: k in e && !e[k].isArray && r.value[k] == e[k].values[0]
    ensures r.Ok? ==> forall k | k in e && k != CiidAttribute && !e[k].isArray :: k in r.value
  {
    if Panics(e) then Err(Panic("index out of range"))
    else Ok(map k | k in e && k != CiidAttribute && !e[k].isArray :: e[k].values[0])
  }

  /** The flattening of a whole fetch result: a panic in any entity ends it. */
  function FlattenedResult(res: map<string, Entity>): (r: Result<SetItems>)
    ensures r.Err? <==> AnyPanics(res)
    ensures r.Ok? ==> r.value.Keys == res.Keys
    ensures r.Ok? ==> forall key | key in res :: Ok(r.value[key]) == Flattened(res[key])
  {
    if AnyPanics(res) then Err(Panic("index out of range"))
    else Ok(map key | key in res :: Flattened(res[key]).value)
  }

  /** What the refresh reads and writes: the global retry counter, the cache,
      and whether the process has died (`logrus.Fatalf`, or a panic). */
  datatype RefreshState = RefreshState(retryCount: int, cache: CacheItems, died: bool)

  /** One iteration of the loop over the configured sets. */
  function Step(st: RefreshState, s: EnrichmentSet, fetch: Fetch, limit: int): RefreshState
  {
    if st.died then st
    else match fetch
      case FetchFailed(_) =>
        if st.retryCount == limit then st.(died := true)
        else st.(retryCount := st.retryCount + 1)
      case Fetched(res) =>
        match FlattenedResult(res)
        case Err(_) => st.(died := true)
        case Ok(items) => st.(cache := st.cache[s.name := items])
  }

  /** The refresh over the first sets, one fetch outcome per set. */
  function Refreshed(st: RefreshState, sets: seq<EnrichmentSet>, fetches: seq<Fetch>, limit: int): RefreshState
    requires |sets| == |fetches|
  {
    if |sets| == 0 then st
    else
      Step(Refreshed(st, sets[..|sets| - 1], fetches[..|fetches| - 1], limit),
        sets[|sets| - 1], fetches[|fetches| - 1], limit)
  }

  predicate AllFail(fetches: seq<Fetch>)
  {
    forall i | 0 <= i < |fetches| :: fetches[i].FetchFailed?
  }

  // ---------------------------------------------------------------------
  // Properties of the refresh

  /** Once the process has died, nothing it would have done later happens. */
  lemma {:induction false} DiedStays(st: RefreshState, sets: seq<EnrichmentSet>, fetches: seq<Fetch>, limit: int, i: nat)
    requires |sets| == |fetches| && i <= |sets|
    requires Refreshed(st, sets[..i], fetches[..i], limit).died
    ensures Refreshed(st, sets, fetches, limit) == Refreshed(st, sets[..i], fetches[..i], limit)
    decreases |sets|
  {
    if i < |sets| {
      var n := |sets| - 1;
      assert sets[..n][..i] == sets[..i] && fetches[..n][..i] == fetches[..i];
      DiedStays(st, sets[..n], fetches[..n], limit, i);
    } else {
      assert sets[..i] == sets && fetches[..i] == fetches;
    }
  }

  /** `retryCount` is never reset: it only grows. */
  lemma {:induction false} RetryNeverDecreases(st: RefreshState, sets: seq<EnrichmentSet>, fetches: seq<Fetch>, limit: int)
    requires |sets| == |fetches|
    ensures Refreshed(st, sets, fetches, limit).retryCount >= st.retryCount
    decreases |sets|
  {
    if |sets| > 0 {
      RetryNeverDecreases(st, sets[..|sets| - 1], fetches[..|fetches| - 1], limit);
    }
  }

  /** Starting at or below the configured count, the counter never passes it. */
  lemma {:induction false} RetryWithinLimit(st: RefreshState, sets: seq<EnrichmentSet>, fetches: seq<Fetch>, limit: int)
    requires |sets| == |fetches| && st.retryCount <= limit
    ensures Refreshed(st, sets, fetches, limit).retryCount <= limit
    decreases |sets|
  {
    if |sets| > 0 {
      RetryWithinLimit(st, sets[..|sets| - 1], fetches[..|fetches| - 1], limit);
    }
  }

  /** Failed fetches below the limit are each counted and skipped. */
  lemma {:induction false} FailuresCounted(st: RefreshState, sets: seq<EnrichmentSet>, fetches: seq<Fetch>, limit: int)
    requires |sets| == |fetches| && AllFail(fetches) && !st.died
    requires st.retryCount + |sets| <= limit
    ensures Refreshed(st, sets, fetches, limit) == st.(retryCount := st.retryCount + |sets|)
    decreases |sets|
  {
    if |sets| > 0 {
      FailuresCounted(st, sets[..|sets| - 1], fetches[..|fetches| - 1], limit);
    }
  }

  /** A failure that finds the counter at the configured count ends the process. */
  lemma {:induction false} ExhaustedRetriesDie(st: RefreshState, sets: seq<EnrichmentSet>, fetches: seq<Fetch>, limit: int)
    requires |sets| == |fetches| && AllFail(fetches) && !st.died
    requires st.retryCount <= limit < st.retryCount + |sets|
    ensures Refreshed(st, sets, fetches, limit).died
    ensures Refreshed(st, sets, fetches, limit).retryCount == limit
    ensures Refreshed(st, sets, fetches, limit).cache == st.cache
    decreases |sets|
  {
    var n := |sets| - 1;
    if st.retryCount + n <= limit {
      FailuresCounted(st, sets[..n], fetches[..n], limit);
    } else {
      ExhaustedRetriesDie(st, sets[..n], fetches[..n], limit);
    }
  }

  /** Cache entries of names that are not being refreshed are untouched. */
  lemma {:induction false} OtherEntriesUntouched(st: RefreshState, sets: seq<EnrichmentSet>, fetches: seq<Fetch>, limit: int, key: string)
    requires |sets| == |fetches|
    requires forall i | 0 <= i < |sets| :: sets[i].name != key
    ensures var c := Refreshed(st, sets, fetches, limit).cache;
      (key in c <==> key in st.cache) && (key in c ==> c[key] == st.cache[key])
    decreases |sets|
  {
    if |sets| > 0 {
      OtherEntriesUntouched(st, sets[..|sets| - 1], fetches[..|fetches| - 1], limit, key);
    }
  }

  /** A failing set does not stop the others: when the process survives,
      every set whose fetch succeeded holds its flattened result (unless a
      later set of the same name overwrote it). */
  lemma {:induction false} SuccessfulSetsCached(st: RefreshState, sets: seq<EnrichmentSet>, fetches: seq<Fetch>, limit: int, j: nat)
    requires |sets| == |fetches| && j < |sets| && fetches[j].Fetched?
    requires forall l | j < l < |sets| :: sets[l].name != sets[j].name
    requires !Refreshed(st, sets, fetches, limit).died
    ensures FlattenedResult(fetches[j].result).Ok?
    ensures var c := Refreshed(st, sets, fetches, limit).cache;
      sets[j].name in c && c[sets[j].name] == FlattenedResult(fetches[j].result).value
    decreases |sets|
  {
    var n := |sets| - 1;
    var prev := Refreshed(st, sets[..n], fetches[..n], limit);
    assert !prev.died;
    if j < n {
      SuccessfulSetsCached(st, sets[..n], fetches[..n], limit, j);
    }
  }

  // ---------------------------------------------------------------------
  // The loops of the source

  /** The loop over one entity's attributes, in map order. */
  method FlattenAttributes(e: Entity) returns (r: Result<map<string, string>>)
    ensures r == Flattened(e)
  {
    var item: map<string, string> := map[];
    var rest := e.Keys;
    while rest != {}
      invariant rest <= e.Keys
      invariant forall k | k in e && k !in rest && k != CiidAttribute :: e[k].isArray || |e[k].values| > 0
      invariant item == map k | k in e && k !in rest && k != CiidAttribute && !e[k].isArray :: e[k].values[0]
      decreases |rest|
    {
      var k :| k in rest;
      rest := rest - {k};
      if k == CiidAttribute {
        continue;
      }
      if !e[k].isArray {
        if |e[k].values| == 0 {
          return Err(Panic("index out of range"));
        }
        item := item[k := e[k].values[0]];
      }
    }
    assert !Panics(e);
    assert item == map k | k in e && k != CiidAttribute && !e[k].isArray :: e[k].values[0];
    return Ok(item);
  }

  /** The loop over a fetch result's entities, in map order. */
  method FlattenResult(res: map<string, Entity>) returns (r: Result<SetItems>)
    ensures r == FlattenedResult(res)
  {
    var items: SetItems := map[];
    var rest := res.Keys;
    assert FlattenedOutside(res, rest) == map[];
    while rest != {}
      invariant rest <= res.Keys
      invariant forall key | key in res && key !in rest :: !Panics(res[key])
      invariant items == FlattenedOutside(res, rest)
      decreases |rest|
    {
      var key :| key in rest;
      var flat := FlattenAttributes(res[key]);
      if flat.Err? {
        return Err(flat.error);
      }
      FlattenedOutsideStep(res, rest, key);
      items := items[key := flat.value];
      rest := rest - {key};
    }
    FlattenedAll(res, rest);
    return Ok(items);
  }

  /** The flattened entities whose keys are not in `rest`. */
  function FlattenedOutside(res: map<string, Entity>, rest: set<string>): SetItems
  {
    map key | key in res && key !in rest && !Panics(res[key]) :: Flattened(res[key]).value
  }

  lemma FlattenedOutsideStep(res: map<string, Entity>, rest: set<string>, key: string)
    requires key in rest && rest <= res.Keys && !Panics(res[key])
    ensures FlattenedOutside(res, rest)[key := Flattened(res[key]).value] == FlattenedOutside(res, rest - {key})
  {
  }

  lemma FlattenedAll(res: map<string, Entity>, rest: set<string>)
    requires rest == {} && forall key | key in res && key !in rest :: !Panics(res[key])
    ensures FlattenedResult(res) == Ok(FlattenedOutside(res, rest))
  {
    assert !AnyPanics(res);
    var m := map key | key in res :: Flattened(res[key]).value;
    assert FlattenedOutside(res, rest).Keys == m.Keys;
    assert FlattenedOutside(res, rest) == m;
  }

  /** The package's global state: `retryCount` and `enrichmentsCache`. */
  class EnrichmentCache {
    var retryCount: int
    var items: CacheItems

    constructor ()
      ensures retryCount == 0 && items == map[]
    {
      retryCount := 0;
      items := map[];
    }

    /** The live cache. */
    function GetEnrichmentsCache(): CacheItems
      reads this
    {
      items
    }

    /** Replaces one set's entry wholesale. */
    method SetEnrichmentsCacheValues(key: string, values: SetItems)
      modifies this
      ensures GetEnrichmentsCache() == old(GetEnrichmentsCache())[key := values]
      ensures retryCount == old(retryCount)
    {
      items := items[key := values];
    }

    /** `EnrichMetrics`, given the fetch outcome of each configured set.  It
        returns whether the process died. */
    method EnrichMetrics(cfg: Enrichment, fetches: seq<Fetch>) returns (died: bool)
      requires |fetches| == |cfg.sets|
      modifies this
      ensures RefreshState(retryCount, items, died) ==
        Refreshed(RefreshState(old(retryCount), old(items), false), cfg.sets, fetches, cfg.retryCount)
    {
      ghost var st0 := RefreshState(retryCount, items, false);
      var sets := cfg.sets;
      var i := 0;
      while i < |sets|
        invariant 0 <= i <= |sets|
        invariant RefreshState(retryCount, items, false) == Refreshed(st0, sets[..i], fetches[..i], cfg.retryCount)
      {
        assert sets[..i + 1][..i] == sets[..i] && fetches[..i + 1][..i] == fetches[..i];
        match fetches[i] {
          case FetchFailed(_) =>
            if retryCount == cfg.retryCount {
              DiedStays(st0, sets, fetches, cfg.retryCount, i + 1);
              return true;
            }
            retryCount := retryCount + 1;
          case Fetched(res) =>
            var flat := FlattenResult(res);
            if flat.Err? {
              DiedStays(st0, sets, fetches, cfg.retryCount, i + 1);
              return true;
            }
            SetEnrichmentsCacheValues(sets[i].name, flat.value);
        }
        i := i + 1;
      }
      assert sets[..i] == sets && fetches[..i] == fetches;
      return false;
    }
  }

  /** `intListToStringList`: each layer id in decimal, in order. */
  method IntListToStringList(a: seq<int>) returns (b: seq<string>)
    requires forall i | 0 <= i < |a| :: MinInt64 <= a[i] <= MaxInt64
    ensures |b| == |a|
    ensures forall i | 0 <= i < |b| :: Atoi(b[i]) == Some(a[i])
  {
    b := [];
    var i := 0;
    while i < |a|
      invariant 0 <= i <= |a|
      invariant |b| == i
      invariant forall j | 0 <= j < i :: Atoi(b[j]) == Some(a[j])
    {
      AtoiOfIntToString(a[i]);
      b := b + [IntToString(a[i])];
      i := i + 1;
    }
  }

  // ---------------------------------------------------------------------
  // The functions the preparation step calls

  /** `FindEnrichmentSetByName`: the first configured set of that name. */
  function FindEnrichmentSetByName(name: string, sets: seq<EnrichmentSet>): (r: Result<EnrichmentSet>)
    ensures r.Ok? <==> exists i | 0 <= i < |sets| :: sets[i].name == name
    ensures r.Ok? ==> r.value in sets && r.value.name == name
    ensures r.Err? ==> r.error == UnknownEnrichment(name)
  {
    if |sets| == 0 then Err(UnknownEnrichment(name))
    else if sets[0].name == name then Ok(sets[0])
    else
      var r := FindEnrichmentSetByName(name, sets[1..]);
      assert forall i | 0 <= i < |sets| - 1 :: sets[1..][i] == sets[i + 1];
      r
  }

  /** The cached item a point's lookup tag selects, if any. */
  function LookedUp(tags: map<string, string>, s: EnrichmentSet, cache: CacheItems): Option<map<string, string>>
  {
    if s.name in cache && s.lookupTag in tags && tags[s.lookupTag] in cache[s.name]
    then Some(cache[s.name][tags[s.lookupTag]])
    else None
  }

  /** `EnrichTags`: the tags, plus the allow-listed attributes of the cached
      item the lookup tag selects.  A set missing from the cache is an error. */
  function EnrichTags(tags: map<string, string>, s: EnrichmentSet, cache: CacheItems): (r: Result<map<string, string>>)
    ensures r.Err? <==> s.name !in cache
    ensures r.Ok? ==> forall k | k in tags :: k in r.value && r.value[k] == tags[k]
    ensures r.Ok? && LookedUp(tags, s, cache).Some? ==>
      var item := LookedUp(tags, s, cache).value;
      forall a | a in item && a in s.traitAttributeList && a !in tags :: a in r.value && r.value[a] == item[a]
    ensures r.Ok? ==> forall k | k in r.value ::
      k in tags || (LookedUp(tags, s, cache).Some? && k in LookedUp(tags, s, cache).value && k in s.traitAttributeList)
  {
    if s.name !in cache then Err(EnrichmentUnavailable(s.name))
    else match LookedUp(tags, s, cache)
      case None => Ok(tags)
      case Some(item) =>
        Ok(map k | k in tags.Keys + (set a | a in item && a in s.traitAttributeList) ::
          if k in tags then tags[k] else item[k])
  }

  /** The behaviour pkg/enrichments/omnikeeper_test.go checks. */
  lemma BasicEnrichment()
    ensures
      var s := EnrichmentSet("Test-Enrichmentset", "Test-Traitname", "Test-Lookupattribute",
        ["test"], ["0", "1", "2"], "Test-Lookuptag", false);
      var cache := map["Test-Enrichmentset" := map["123" := map["test" := "foo"], "456" := map["test" := "bar"]]];
      var before := map["Test-Lookuptag" := "123", "present-tag" := "present-tag-value"];
      EnrichTags(before, s, cache) ==
        Ok(map["Test-Lookuptag" := "123", "present-tag" := "present-tag-value", "test" := "foo"])
  {
    var s := EnrichmentSet("Test-Enrichmentset", "Test-Traitname", "Test-Lookupattribute",
      ["test"], ["0", "1", "2"], "Test-Lookuptag", false);
    var cache := map["Test-Enrichmentset" := map["123" := map["test" := "foo"], "456" := map["test" := "bar"]]];
    var before := map["Test-Lookuptag" := "123", "present-tag" := "present-tag-value"];
    var after := map["Test-Lookuptag" := "123", "present-tag" := "present-tag-value", "test" := "foo"];
    assert LookedUp(before, s, cache) == Some(map["test" := "foo"]);
    var r := EnrichTags(before, s, cache).value;
    assert "test" in s.traitAttributeList;
    assert r.Keys == after.Keys;
    assert r["test"] == "foo" && r["Test-Lookuptag"] == "123" && r["present-tag"] == "present-tag-value";
    assert r == after;
  }
}
