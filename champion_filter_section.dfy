/**
 * The champion filter: which champions of the `units` table may appear in a
 * shown comp. Champions are grouped by cost tier, each group sorted by name;
 * one champion or a whole tier can be toggled, and reset restores the
 * default of tiers 1 to 3 enabled and 4 and 5 disabled.
 */
module ChampionFilterSection {
  import opened Sorting
  import opened Champion

  /** The champions of the table with the given tier. */
  ghost function TierChampions(units: map<string, UnitData>, tier: int): set<string>
  {
    set c | c in units && units[c].championTier == tier
  }

  /**
   * `tierMap` as built from the table: one non-empty list per tier that
   * occurs, holding exactly the champions of that tier in ascending name order.
   */
  ghost predicate IsTierMap(units: map<string, UnitData>, tierMap: map<int, seq<string>>)
  {
    && (forall t :: t in tierMap ==> StrictlySorted(tierMap[t]) && tierMap[t] != [])
    && (forall t, c :: t in tierMap ==> (c in tierMap[t] <==> c in units && units[c].championTier == t))
    && (forall c :: c in units ==> units[c].championTier in tierMap)
  }

  /**
   * Groups the champions by tier, then sorts every group by name. `tiers`
   * lists the keys of `tierMap` in the order a `for...in` loop visits them.
   */
  method BuildTierMap(units: map<string, UnitData>) returns (tierMap: map<int, seq<string>>, tiers: seq<int>)
    ensures IsTierMap(units, tierMap)
    ensures NoDup(tiers) && forall t :: t in tierMap <==> t in tiers
  {
    var groups;
    groups, tiers := GroupByTier(units);
    tierMap := SortGroups(units, groups, tiers);
  }

  /** The grouping `forEach`: every champion pushed onto the list of its tier. */
  method GroupByTier(units: map<string, UnitData>) returns (tierMap: map<int, seq<string>>, tiers: seq<int>)
    ensures NoDup(tiers) && forall t :: t in tierMap <==> t in tiers
    ensures forall t :: t in tierMap ==> NoDup(tierMap[t]) && tierMap[t] != []
    ensures forall t, c :: t in tierMap ==> (c in tierMap[t] <==> c in units && units[c].championTier == t)
    ensures forall c :: c in units ==> units[c].championTier in tierMap
  {
    tierMap := map[];
    tiers := [];
    var rest := units.Keys;
    while rest != {}
      invariant rest <= units.Keys
      invariant NoDup(tiers) && forall t :: t in tierMap <==> t in tiers
      invariant forall t :: t in tierMap ==> NoDup(tierMap[t]) && tierMap[t] != []
      invariant forall t, c :: t in tierMap ==>
        (c in tierMap[t] <==> c in units && c !in rest && units[c].championTier == t)
      invariant forall c :: c in units && c !in rest ==> units[c].championTier in tierMap
      decreases rest
    {
      var name :| name in rest;
      var tier := units[name].championTier;
      if tier !in tierMap {
        tierMap := tierMap[tier := []];
        tiers := tiers + [tier];
      }
      tierMap := tierMap[tier := tierMap[tier] + [name]];
      rest := rest - {name};
    }
  }

  /** The sorting `for...in` loop: every group sorted by name in place. */
  method SortGroups(units: map<string, UnitData>, groups: map<int, seq<string>>, tiers: seq<int>)
    returns (tierMap: map<int, seq<string>>)
    requires NoDup(tiers) && forall t :: t in groups <==> t in tiers
    requires forall t :: t in groups ==> NoDup(groups[t]) && groups[t] != []
    requires forall t, c :: t in groups ==> (c in groups[t] <==> c in units && units[c].championTier == t)
    requires forall c :: c in units ==> units[c].championTier in groups
    ensures IsTierMap(units, tierMap)
    ensures tierMap.Keys == groups.Keys
  {
    tierMap := groups;
    for k := 0 to |tiers|
      invariant tierMap.Keys == groups.Keys
      invariant forall t :: t in tierMap ==> tierMap[t] != []
      invariant forall t, c :: t in tierMap ==> (c in tierMap[t] <==> c in groups[t])
      invariant forall t :: t in tierMap && t !in tiers[..k] ==> tierMap[t] == groups[t]
      invariant forall t :: t in tierMap && t in tiers[..k] ==> StrictlySorted(tierMap[t])
    {
      var tier := tiers[k];
      assert tier !in tiers[..k];
      var group := tierMap[tier];
      SortNamesStrict(group);
      var sorted := SortBy(group, NameKey);
      assert sorted != [] by {
        assert group[0] in sorted;
      }
      tierMap := tierMap[tier := sorted];
      assert tiers[..k + 1] == tiers[..k] + [tier];
    }
    assert tiers[..|tiers|] == tiers;
  }

  /** `champs.forEach(champ => { newFilters[champ] = flag; })`. */
  method SetAll(filters: map<string, bool>, champs: seq<string>, flag: bool) returns (r: map<string, bool>)
    ensures forall c :: c in r <==> c in filters || c in champs
    ensures forall c :: c in r ==> r[c] == if c in champs then flag else filters[c]
  {
    r := filters;
    for j := 0 to |champs|
      invariant forall c :: c in r <==> c in filters || c in champs[..j]
      invariant forall c :: c in r ==> r[c] == if c in champs[..j] then flag else filters[c]
    {
      assert champs[..j + 1] == champs[..j] + [champs[j]];
      r := r[champs[j] := flag];
    }
    assert champs[..|champs|] == champs;
  }

  /** The order in which the table lists its entries does not matter: there is only one tier map. */
  lemma TierMapUnique(units: map<string, UnitData>, a: map<int, seq<string>>, b: map<int, seq<string>>)
    requires IsTierMap(units, a) && IsTierMap(units, b)
    ensures a == b
  {
    forall t | t in a
      ensures t in b && a[t] == b[t]
    {
      var c := a[t][0];
      assert c in units && units[c].championTier == t;
      assert t in b;
      forall x
        ensures x in a[t] <==> x in b[t]
      {
        assert x in a[t] <==> x in units && units[x].championTier == t;
        assert x in b[t] <==> x in units && units[x].championTier == t;
      }
      StrictlySortedUnique(a[t], b[t]);
    }
    forall t | t in b
      ensures t in a
    {
      var c := b[t][0];
      assert c in units && units[c].championTier == t;
    }
  }

  /** The default flags: tiers 1 to 3 enabled, other tiers disabled. */
  function DefaultFilters(units: map<string, UnitData>): (defaults: map<string, bool>)
    ensures defaults.Keys == units.Keys
    ensures forall c :: c in defaults ==> (defaults[c] <==> units[c].championTier <= 3)
  {
    map c | c in units :: units[c].championTier <= 3
  }

  /** Reset: a fresh record giving every champion of `tierMap` the flag `tier <= 3`. */
  method ResetChampionFilters(units: map<string, UnitData>) returns (newFilters: map<string, bool>)
    ensures newFilters == DefaultFilters(units)
  {
    var tierMap, tiers := BuildTierMap(units);
    newFilters := map[];
    for k := 0 to |tiers|
      invariant forall c :: c in newFilters <==> c in units && units[c].championTier in tiers[..k]
      invariant forall c :: c in newFilters ==> newFilters[c] == (units[c].championTier <= 3)
    {
      var tier := tiers[k];
      newFilters := SetAll(newFilters, tierMap[tier], tier <= 3);
      assert tiers[..k + 1] == tiers[..k] + [tier];
    }
    assert tiers[..|tiers|] == tiers;
  }

  /** On mount: the defaults, but only when no flag has been set yet. */
  method InitialChampionFilters(units: map<string, UnitData>, championFilters: map<string, bool>)
    returns (filters: map<string, bool>)
    ensures |championFilters| == 0 ==> filters == DefaultFilters(units)
    ensures |championFilters| != 0 ==> filters == championFilters
  {
    if |championFilters| == 0 {
      filters := ResetChampionFilters(units);
    } else {
      filters := championFilters;
    }
  }

  /** `{...prev, [champion]: !prev[champion]}`: a missing flag reads as false and becomes true. */
  function ToggleChampion(prev: map<string, bool>, champion: string): (next: map<string, bool>)
    ensures next.Keys == prev.Keys + {champion}
    ensures next[champion] == !(champion in prev && prev[champion])
    ensures forall c :: c in prev && c != champion ==> next[c] == prev[c]
  {
    prev[champion := !(champion in prev && prev[champion])]
  }

  /** Toggling a champion twice restores a set flag, and turns a missing one into false. */
  lemma ToggleChampionTwice(prev: map<string, bool>, champion: string)
    ensures champion in prev ==> ToggleChampion(ToggleChampion(prev, champion), champion) == prev
    ensures champion !in prev ==> ToggleChampion(ToggleChampion(prev, champion), champion) == prev[champion := false]
  {
    var once := ToggleChampion(prev, champion);
    var twice := ToggleChampion(once, champion);
    if champion in prev {
      assert twice.Keys == prev.Keys;
    }
  }

  /** `championFilters[champ] !== false`: a missing flag counts as enabled here. */
  predicate Enabled(filters: map<string, bool>, champion: string)
  {
    champion !in filters || filters[champion]
  }

  /** Every champion of the tier is enabled. */
  ghost predicate TierEnabled(units: map<string, UnitData>, filters: map<string, bool>, tier: int)
  {
    forall c :: c in units && units[c].championTier == tier ==> Enabled(filters, c)
  }

  /** What toggling a tier gives, stated on values. */
  ghost function TierToggled(units: map<string, UnitData>, filters: map<string, bool>, tier: int): map<string, bool>
  {
    var v := !TierEnabled(units, filters, tier);
    map c | c in filters.Keys + TierChampions(units, tier) :: if c in TierChampions(units, tier) then v else filters[c]
  }

  /** Toggle a tier: all of its champions off when all are enabled, otherwise all on. */
  method ToggleTier(units: map<string, UnitData>, championFilters: map<string, bool>, tier: int)
    returns (newFilters: map<string, bool>)
    ensures newFilters == TierToggled(units, championFilters, tier)
  {
    var tierMap, _ := BuildTierMap(units);
    var champs := if tier in tierMap then tierMap[tier] else [];
    assert forall c :: c in champs <==> c in TierChampions(units, tier);
    var allEnabled := forall c :: c in champs ==> Enabled(championFilters, c);
    assert allEnabled == TierEnabled(units, championFilters, tier);
    newFilters := SetAll(championFilters, champs, !allEnabled);
    TierToggledFrom(units, championFilters, tier, newFilters);
  }

  /** A record that writes `!TierEnabled` over exactly the tier's champions is the toggled record. */
  lemma TierToggledFrom(units: map<string, UnitData>, filters: map<string, bool>, tier: int, r: map<string, bool>)
    requires forall c :: c in r <==> c in filters || c in TierChampions(units, tier)
    requires forall c :: c in r ==>
      r[c] == if c in TierChampions(units, tier) then !TierEnabled(units, filters, tier) else filters[c]
    ensures r == TierToggled(units, filters, tier)
  {
  }

  /** After a tier toggle every champion of the tier has the same flag, and no other flag changes. */
  lemma TierToggledUniform(units: map<string, UnitData>, filters: map<string, bool>, tier: int)
    ensures var next := TierToggled(units, filters, tier);
      && (forall c, d :: c in units && d in units && units[c].championTier == tier && units[d].championTier == tier
            ==> c in next && d in next && next[c] == next[d])
      && (forall c :: !(c in units && units[c].championTier == tier) ==>
            (c in next <==> c in filters) && (c in filters ==> next[c] == filters[c]))
  {
  }

  /** From a fully enabled tier, two toggles give a fully enabled tier again, with every flag set to true. */
  lemma ToggleTierTwice(units: map<string, UnitData>, filters: map<string, bool>, tier: int)
    requires TierEnabled(units, filters, tier)
    ensures var twice := TierToggled(units, TierToggled(units, filters, tier), tier);
      && TierEnabled(units, twice, tier)
      && (forall c :: c in units && units[c].championTier == tier ==> c in twice && twice[c])
      && (forall c :: !(c in units && units[c].championTier == tier) ==>
            (c in twice <==> c in filters) && (c in filters ==> twice[c] == filters[c]))
  {
    var once := TierToggled(units, filters, tier);
    if c :| c in units && units[c].championTier == tier {
      assert c in TierChampions(units, tier);
      assert !Enabled(once, c);
    }
  }

  /** Reset gives every flag the default of its tier, whatever the tier map's order. */
  lemma DefaultsByTier(units: map<string, UnitData>, c: string)
    requires c in units
    ensures c in DefaultFilters(units)
    ensures DefaultFilters(units)[c] <==> units[c].championTier <= 3
  {
  }
}
