/**
 * Champion lookups for a chosen set, answered from a per-set cache that is
 * filled from the set's champion table the first time it is needed.
 */
module ChampionUtils {
  import opened Options
  import opened Sorting
  import opened ChampionMapping

  /** The border colour class shown for a champion of the given cost tier. */
  function DeriveBorderClass(tier: int): (c: string)
    ensures tier !in {2, 3, 4, 5} ==> c == "border-gray-400"
    ensures |c| >= 15
  {
    match tier
    case 1 => "border-gray-400"
    case 2 => "border-green-500"
    case 3 => "border-blue-500"
    case 4 => "border-purple-500"
    case 5 => "border-yellow-500"
    case _ => "border-gray-400"
  }

  /** Tiers 1 to 5 get five different colours, so the colour tells the tier. */
  lemma BorderClassIdentifiesTier(a: int, b: int)
    requires 1 <= a <= 5 && 1 <= b <= 5
    requires DeriveBorderClass(a) == DeriveBorderClass(b)
    ensures a == b
  {
    var ca, cb := DeriveBorderClass(a), DeriveBorderClass(b);
    assert ca[7] == cb[7] && ca[8] == cb[8];
  }

  /** Every champion's cost tier, keyed by name. */
  function TierTable(m: map<string, ChampionData>): (t: map<string, int>)
    ensures t.Keys == m.Keys
    ensures forall n :: n in m ==> t[n] == m[n].championTier
  {
    map n | n in m :: m[n].championTier
  }

  /** The comparison of both team sorts: tier ascending (99 when unknown), then name. */
  function ByTierThenName(tiers: map<string, int>): string -> SortKey
  {
    x => SortKey(if x in tiers then tiers[x] else 99, x)
  }

  /** `[...champions].sort(...)`: a sorted copy; the argument itself is a value and is not changed. */
  function SortByTierAndName(tiers: map<string, int>, champions: seq<string>): (r: seq<string>)
    ensures multiset(r) == multiset(champions)
    ensures SortedBy(r, ByTierThenName(tiers))
  {
    SortBySorted(champions, ByTierThenName(tiers));
    SortBy(champions, ByTierThenName(tiers))
  }

  /** Two lists holding the same champions (with multiplicity) sort to the same list. */
  lemma SortByTierAndNameIgnoresOrder(tiers: map<string, int>, a: seq<string>, b: seq<string>)
    requires multiset(a) == multiset(b)
    ensures SortByTierAndName(tiers, a) == SortByTierAndName(tiers, b)
  {
    SortByPermutation(a, b, ByTierThenName(tiers));
  }

  /** `championMapping[name]?.traits ?? []`. */
  function TraitsOf(m: map<string, ChampionData>, name: string): seq<string>
  {
    if name in m then m[name].traits else []
  }

  /** The cache of one set; a missing part is `undefined`. */
  datatype SetCache = SetCache(
    tierCache: Option<map<string, int>>,
    borderClassCache: Option<map<string, string>>,
    traitsCache: Option<map<string, seq<string>>>)

  /** The cache built from a champion table. */
  function BuiltCache(m: map<string, ChampionData>): SetCache
  {
    SetCache(
      Some(TierTable(m)),
      Some(map n | n in m :: DeriveBorderClass(m[n].championTier)),
      Some(map n | n in m :: m[n].traits))
  }

  /** The `forEach` that fills the three caches of a set from its table. */
  method FillCache(m: map<string, ChampionData>) returns (c: SetCache)
    ensures c == BuiltCache(m)
  {
    var tierCache: map<string, int> := map[];
    var borderClassCache: map<string, string> := map[];
    var traitsCache: map<string, seq<string>> := map[];
    var rest := m.Keys;
    while rest != {}
      invariant rest <= m.Keys
      invariant tierCache.Keys == borderClassCache.Keys == traitsCache.Keys == m.Keys - rest
      invariant forall n :: n in tierCache ==> tierCache[n] == m[n].championTier
      invariant forall n :: n in borderClassCache ==> borderClassCache[n] == DeriveBorderClass(m[n].championTier)
      invariant forall n :: n in traitsCache ==> traitsCache[n] == m[n].traits
      decreases rest
    {
      var name :| name in rest;
      tierCache := tierCache[name := m[name].championTier];
      borderClassCache := borderClassCache[name := DeriveBorderClass(m[name].championTier)];
      traitsCache := traitsCache[name := m[name].traits];
      rest := rest - {name};
    }
    assert tierCache == TierTable(m);
    assert borderClassCache == map n | n in m :: DeriveBorderClass(m[n].championTier);
    assert traitsCache == map n | n in m :: m[n].traits;
    c := SetCache(Some(tierCache), Some(borderClassCache), Some(traitsCache));
  }

  /** Every filled cache holds exactly what its set's table says. */
  ghost predicate CachesValid(caches: map<string, SetCache>)
  {
    forall s :: s in caches && caches[s].tierCache.Some? ==>
      caches[s] == BuiltCache(GetChampionMappingForSet(s))
  }

  /** Filling one set's cache from its own table keeps every cache valid. */
  lemma ValidAfterFill(caches: map<string, SetCache>, s: string, m: map<string, ChampionData>, c: SetCache)
    requires CachesValid(caches)
    requires m == GetChampionMappingForSet(s) && c == BuiltCache(m)
    ensures CachesValid(caches[s := c])
  {
  }


  /** The module-level `setCaches`: set identifier to cache. */
  class ChampionCaches {
    var setCaches: map<string, SetCache>

    ghost predicate Valid()
      reads this
    {
      CachesValid(setCaches)
    }

    ghost predicate Initialized(setIdentifier: string)
      reads this
    {
      setIdentifier in setCaches && setCaches[setIdentifier].tierCache.Some?
    }

    constructor ()
      ensures Valid() && setCaches == map[]
    {
      setCaches := map[];
    }

    /**
     * Fills the cache of a set unless its tier cache already exists, in which
     * case nothing is rebuilt.
     */
    method EnsureSetCacheInitialized(setIdentifier: string, championMappingForSet: map<string, ChampionData>)
      requires Valid()
      requires championMappingForSet == GetChampionMappingForSet(setIdentifier)
      modifies this
      ensures Valid() && Initialized(setIdentifier)
      ensures setCaches == if old(Initialized(setIdentifier)) then old(setCaches)
        else old(setCaches)[setIdentifier := BuiltCache(championMappingForSet)]
    {
      if setIdentifier !in setCaches || setCaches[setIdentifier].tierCache.None? {
        // An absent entry is first set to an empty cache, which is then filled.
        var built := FillCache(championMappingForSet);
        ValidAfterFill(setCaches, setIdentifier, championMappingForSet, built);
        setCaches := setCaches[setIdentifier := built];
      }
    }

    /** The champions in ascending (tier, name) order, tier 99 for unknown names. */
    method SortChampionsByTierAndName(setIdentifier: string, champions: seq<string>) returns (sorted: seq<string>)
      requires Valid()
      modifies this
      ensures Valid() && Initialized(setIdentifier)
      ensures setCaches == if old(Initialized(setIdentifier)) then old(setCaches)
        else old(setCaches)[setIdentifier := BuiltCache(GetChampionMappingForSet(setIdentifier))]
      ensures sorted == SortByTierAndName(TierTable(GetChampionMappingForSet(setIdentifier)), champions)
    {
      var mapping := GetChampionMappingForSet(setIdentifier);
      EnsureSetCacheInitialized(setIdentifier, mapping);
      var tierCache := setCaches[setIdentifier].tierCache.value;
      sorted := SortByTierAndName(tierCache, champions);
    }

    /** The champion's tier, or 1 when the set does not know the champion. */
    method GetChampionTier(setIdentifier: string, championName: string) returns (tier: int)
      requires Valid()
      modifies this
      ensures Valid() && Initialized(setIdentifier)
      ensures setCaches == if old(Initialized(setIdentifier)) then old(setCaches)
        else old(setCaches)[setIdentifier := BuiltCache(GetChampionMappingForSet(setIdentifier))]
      ensures var m := GetChampionMappingForSet(setIdentifier);
        tier == if championName in m then m[championName].championTier else 1
    {
      var mapping := GetChampionMappingForSet(setIdentifier);
      EnsureSetCacheInitialized(setIdentifier, mapping);
      var tierCache := setCaches[setIdentifier].tierCache.value;
      tier := if championName in tierCache then tierCache[championName] else 1;
    }

    /** The champion's border class, gray for a champion the set does not know. */
    method GetChampionBorderClass(setIdentifier: string, championName: string) returns (c: string)
      requires Valid()
      modifies this
      ensures Valid() && Initialized(setIdentifier)
      ensures setCaches == if old(Initialized(setIdentifier)) then old(setCaches)
        else old(setCaches)[setIdentifier := BuiltCache(GetChampionMappingForSet(setIdentifier))]
      ensures var m := GetChampionMappingForSet(setIdentifier);
        c == if championName in m then DeriveBorderClass(m[championName].championTier) else "border-gray-400"
    {
      var mapping := GetChampionMappingForSet(setIdentifier);
      EnsureSetCacheInitialized(setIdentifier, mapping);
      assert setCaches[setIdentifier] == BuiltCache(mapping);
      var borderClassCache := setCaches[setIdentifier].borderClassCache.value;
      assert forall n :: n in borderClassCache ==> |borderClassCache[n]| >= 15;
      // `||` falls back on an empty string too; no tier yields one.
      c := if championName in borderClassCache && borderClassCache[championName] != ""
        then borderClassCache[championName] else "border-gray-400";
    }

    /** The champion's traits, or none when the set does not know the champion. */
    method GetChampionTraits(setIdentifier: string, championName: string) returns (traits: seq<string>)
      requires Valid()
      modifies this
      ensures Valid() && Initialized(setIdentifier)
      ensures setCaches == if old(Initialized(setIdentifier)) then old(setCaches)
        else old(setCaches)[setIdentifier := BuiltCache(GetChampionMappingForSet(setIdentifier))]
      ensures var m := GetChampionMappingForSet(setIdentifier);
        traits == if championName in m then m[championName].traits else []
    {
      var mapping := GetChampionMappingForSet(setIdentifier);
      EnsureSetCacheInitialized(setIdentifier, mapping);
      var traitsCache := setCaches[setIdentifier].traitsCache.value;
      traits := if championName in traitsCache then traitsCache[championName]
        else TraitsOf(mapping, championName);
    }
  }
}
