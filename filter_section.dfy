/**
 * The emblem filter: a sparse record from trait name to the number of
 * emblems of that trait, edited with "+" and "−" buttons. Every edit is
 * clamped to the trait's cap, a count that drops to zero deletes its key,
 * and the buttons are disabled so that the total stays at most 4.
 */
module FilterSection {
  import opened Options
  import opened Records
  import ChampionMapping

  /** The traits that get a pair of buttons, in display order. */
  const EligibleBonusTraits: seq<string> := [
    "Anima Squad", "BoomBot", "Divinicorp", "Exotech", "Golden Ox", "Street Demon",
    "Syndicate", "Bastion", "Bruiser", "Dynamo", "Executioner", "Marksman",
    "Rapidfire", "Slayer", "Strategist", "Techie", "Vanguard"
  ]

  /** The most emblems of each trait that count. */
  const MaxBonusMap: map<string, int> := map[
    "Anima Squad" := 2, "BoomBot" := 2, "Divinicorp" := 1, "Exotech" := 2,
    "Golden Ox" := 2, "Street Demon" := 2, "Syndicate" := 2, "Bastion" := 2,
    "Bruiser" := 2, "Dynamo" := 2, "Executioner" := 2, "Marksman" := 2,
    "Rapidfire" := 2, "Slayer" := 2, "Strategist" := 2, "Techie" := 2,
    "Vanguard" := 2
  ]

  /** The most emblems in total that the "+" guard lets through. */
  const MaxTotalBonus: int := 4

  /** `Object.values(filters).reduce((acc, val) => acc + val, 0)`. */
  function TotalBonus(filters: Record<int>): (total: int)
    ensures (forall i :: 0 <= i < |filters| ==> filters[i].1 >= 0) ==> total >= 0
    ensures (forall i :: 0 <= i < |filters| ==> filters[i].1 > 0) ==> total >= |filters|
  {
    if filters == [] then 0 else filters[0].1 + TotalBonus(filters[1..])
  }

  /** `filters[trait] ?? 0`, which is also `filters[trait] || 0` on numbers. */
  function Count(filters: Record<int>, t: string): int
  {
    Get(filters, t).GetOr(0)
  }

  /**
   * `Math.min(Math.max(current + delta, 0), MAX_BONUS_MAP[trait])`. For a
   * trait without a cap the minimum is `NaN`, which is modelled as None.
   */
  function NewValue(filters: Record<int>, t: string, delta: int): (v: Option<int>)
    ensures v.Some? <==> t in MaxBonusMap
    ensures v.Some? ==> 0 <= v.value || MaxBonusMap[t] < 0
    ensures v.Some? ==> v.value <= MaxBonusMap[t]
    ensures v.Some? && 0 <= Count(filters, t) + delta <= MaxBonusMap[t] ==> v.value == Count(filters, t) + delta
    ensures v.Some? && Count(filters, t) + delta > MaxBonusMap[t] ==> v.value == MaxBonusMap[t]
    ensures v.Some? && Count(filters, t) + delta < 0 <= MaxBonusMap[t] ==> v.value == 0
  {
    var raised := if Count(filters, t) + delta > 0 then Count(filters, t) + delta else 0;
    if t in MaxBonusMap then Some(if raised < MaxBonusMap[t] then raised else MaxBonusMap[t])
    else None
  }

  /** The record after one button press: a positive value is stored, anything else (0 or `NaN`) deletes the key. */
  function UpdateFilter(prev: Record<int>, t: string, delta: int): (next: Record<int>)
    ensures NewValue(prev, t, delta).Some? && NewValue(prev, t, delta).value > 0 ==>
      Get(next, t) == Some(NewValue(prev, t, delta).value)
    ensures !(NewValue(prev, t, delta).Some? && NewValue(prev, t, delta).value > 0) ==> Get(next, t) == None
    ensures forall k :: k != t ==> Get(next, k) == Get(prev, k)
    ensures Keyed(prev) ==> Keyed(next)
  {
    var v := NewValue(prev, t, delta);
    if v.Some? && v.value > 0 then Put(prev, t, v.value) else Remove(prev, t)
  }

  /** The record after "reset". */
  function ResetFilters(): (r: Record<int>)
    ensures forall k :: Get(r, k) == None
    ensures TotalBonus(r) == 0
  {
    []
  }

  /** "−" is enabled unless the count is 0. */
  predicate CanDecrement(filters: Record<int>, t: string)
  {
    Count(filters, t) != 0
  }

  /** "+" is disabled at the trait's cap and once the total reaches 4. */
  predicate CanIncrement(filters: Record<int>, t: string)
  {
    !((t in MaxBonusMap && Count(filters, t) == MaxBonusMap[t]) || TotalBonus(filters) >= MaxTotalBonus)
  }

  /** Every stored value is positive: the record never keeps a 0. */
  ghost predicate Sparse(filters: Record<int>)
  {
    forall i :: 0 <= i < |filters| ==> filters[i].1 > 0
  }

  /** What the buttons maintain: distinct capped traits, each with 1 to cap emblems, at most 4 in total. */
  ghost predicate WithinBounds(filters: Record<int>)
  {
    && Keyed(filters)
    && (forall i :: 0 <= i < |filters| ==> filters[i].0 in MaxBonusMap && 1 <= filters[i].1 <= MaxBonusMap[filters[i].0])
    && TotalBonus(filters) <= MaxTotalBonus
  }

  /** An update keeps the record free of zeros. */
  lemma UpdateKeepsSparse(prev: Record<int>, t: string, delta: int)
    requires Sparse(prev)
    ensures Sparse(UpdateFilter(prev, t, delta))
  {
    var next := UpdateFilter(prev, t, delta);
    var v := NewValue(prev, t, delta);
    forall i | 0 <= i < |next|
      ensures next[i].1 > 0
    {
      if v.Some? && v.value > 0 {
        assert next[i] == (t, v.value) || next[i] in prev;
      } else {
        assert next[i] in prev;
      }
    }
  }

  /** Storing `v` under `k` changes the total by `v` minus the old count. */
  lemma {:induction false} TotalAfterPut(r: Record<int>, k: string, v: int)
    requires Keyed(r)
    ensures TotalBonus(Put(r, k, v)) == TotalBonus(r) - Count(r, k) + v
  {
    if r != [] && r[0].0 != k {
      TotalAfterPut(r[1..], k, v);
      assert Put(r, k, v) == [r[0]] + Put(r[1..], k, v);
      assert ([r[0]] + Put(r[1..], k, v))[1..] == Put(r[1..], k, v);
    } else if r != [] {
      assert ([(k, v)] + r[1..])[1..] == r[1..];
    }
  }

  /** Deleting `k` lowers the total by its count. */
  lemma {:induction false} TotalAfterRemove(r: Record<int>, k: string)
    requires Keyed(r)
    ensures TotalBonus(Remove(r, k)) == TotalBonus(r) - Count(r, k)
  {
    if r != [] {
      TotalAfterRemove(r[1..], k);
      if r[0].0 != k {
        assert ([r[0]] + Remove(r[1..], k))[1..] == Remove(r[1..], k);
      }
    }
  }

  /** The count of a trait in a record within bounds is between 0 and its cap. */
  lemma CountWithinCap(filters: Record<int>, t: string)
    requires WithinBounds(filters)
    ensures 0 <= Count(filters, t)
    ensures t !in MaxBonusMap ==> Count(filters, t) == 0
    ensures t in MaxBonusMap ==> Count(filters, t) <= MaxBonusMap[t]
  {
    if Get(filters, t).Some? {
      var j :| 0 <= j < |filters| && filters[j].0 == t;
      assert Get(filters, t) == Some(filters[j].1);
    }
  }

  /** A "+" press the guard allows keeps the record within bounds. */
  lemma GuardedIncrementKeepsBounds(filters: Record<int>, t: string)
    requires WithinBounds(filters)
    requires CanIncrement(filters, t)
    ensures WithinBounds(UpdateFilter(filters, t, 1))
  {
    AnyUpdateKeepsEntriesCapped(filters, t, 1);
    CountWithinCap(filters, t);
    var v := NewValue(filters, t, 1);
    if v.Some? && v.value > 0 {
      TotalAfterPut(filters, t, v.value);
    } else {
      TotalAfterRemove(filters, t);
    }
  }

  /** A "−" press keeps the record within bounds (the guard is not even needed for this). */
  lemma DecrementKeepsBounds(filters: Record<int>, t: string)
    requires WithinBounds(filters)
    ensures WithinBounds(UpdateFilter(filters, t, -1))
  {
    AnyUpdateKeepsEntriesCapped(filters, t, -1);
    CountWithinCap(filters, t);
    var v := NewValue(filters, t, -1);
    if v.Some? && v.value > 0 {
      TotalAfterPut(filters, t, v.value);
    } else {
      TotalAfterRemove(filters, t);
    }
  }

  /** Any update keeps every entry a capped trait with a count from 1 to its cap. */
  lemma AnyUpdateKeepsEntriesCapped(filters: Record<int>, t: string, delta: int)
    requires WithinBounds(filters)
    ensures var next := UpdateFilter(filters, t, delta);
      Keyed(next) && forall i :: 0 <= i < |next| ==> next[i].0 in MaxBonusMap && 1 <= next[i].1 <= MaxBonusMap[next[i].0]
  {
    var next := UpdateFilter(filters, t, delta);
    var v := NewValue(filters, t, delta);
    forall i | 0 <= i < |next|
      ensures next[i].0 in MaxBonusMap && 1 <= next[i].1 <= MaxBonusMap[next[i].0]
    {
      if v.Some? && v.value > 0 {
        assert next[i] == (t, v.value) || next[i] in filters;
      } else {
        assert next[i] in filters;
      }
    }
  }

  /** A button press; a disabled button does nothing. */
  datatype Press = Plus(t: string) | Minus(t: string)

  function Apply(filters: Record<int>, p: Press): Record<int>
  {
    match p
    case Plus(t) => if CanIncrement(filters, t) then UpdateFilter(filters, t, 1) else filters
    case Minus(t) => if CanDecrement(filters, t) then UpdateFilter(filters, t, -1) else filters
  }

  function Run(filters: Record<int>, presses: seq<Press>): Record<int>
    decreases |presses|
  {
    if presses == [] then filters else Run(Apply(filters, presses[0]), presses[1..])
  }

  /** Any sequence of presses, starting anywhere within bounds, stays within bounds. */
  lemma {:induction false} RunKeepsBounds(filters: Record<int>, presses: seq<Press>)
    requires WithinBounds(filters)
    ensures WithinBounds(Run(filters, presses))
    decreases |presses|
  {
    if presses != [] {
      match presses[0] {
        case Plus(t) =>
          if CanIncrement(filters, t) { GuardedIncrementKeepsBounds(filters, t); }
        case Minus(t) =>
          if CanDecrement(filters, t) { DecrementKeepsBounds(filters, t); }
      }
      RunKeepsBounds(Apply(filters, presses[0]), presses[1..]);
    }
  }

  /** From the empty record, every value stays in [1, cap] and the total at most 4. */
  lemma RunFromEmpty(presses: seq<Press>)
    ensures var f := Run([], presses);
      && Keyed(f)
      && (forall i :: 0 <= i < |f| ==> f[i].0 in MaxBonusMap && 1 <= f[i].1 <= MaxBonusMap[f[i].0])
      && TotalBonus(f) <= 4
  {
    RunKeepsBounds([], presses);
  }

  /** Divinicorp is the one trait capped at 1; every other capped trait allows 2. */
  lemma CapIsOneOnlyForDivinicorp(t: string)
    requires t in MaxBonusMap
    ensures MaxBonusMap[t] == (if t == "Divinicorp" then 1 else 2)
  {
  }

  /** The traits with buttons are exactly the capped ones, and exactly the set-14 emblem traits. */
  lemma EligibleTraitsAgree()
    ensures forall t :: t in EligibleBonusTraits <==> t in MaxBonusMap
    ensures ChampionMapping.GetSetConfig("TFTSet14").Some?
    ensures ChampionMapping.GetSetConfig("TFTSet14").value.eligibleEmblemTraits == Some(EligibleBonusTraits)
    ensures ChampionMapping.GetSetConfig("TFTSet14").value.singleActivationEmblemTraits == Some(["Divinicorp"])
  {
  }
}
