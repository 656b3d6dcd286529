/**
 * Trait activation: counts the traits of the selected champions, adds the
 * emblem bonuses of the filter and keeps the traits that reach their
 * threshold, in ascending name order. The units and threshold tables of the
 * traits data file are parameters.
 */
module Traits {
  import opened Options
  import opened Records
  import opened Sorting
  import opened Champion

  /** How often `t` occurs in `s`. */
  function Occurrences(s: seq<string>, t: string): (n: nat)
    ensures n <= |s|
    ensures n > 0 <==> t in s
  {
    if s == [] then 0
    else Occurrences(s[..|s| - 1], t) + (if s[|s| - 1] == t then 1 else 0)
  }

  /** How many times `t` is carried by the selected champions the table knows: the final `traitCount[t]`. */
  function TraitCount(units: map<string, UnitData>, selected: seq<string>, t: string): nat
  {
    if selected == [] then 0
    else
      var last := selected[|selected| - 1];
      TraitCount(units, selected[..|selected| - 1], t)
        + (if last in units then Occurrences(units[last].traits, t) else 0)
  }

  /** `filters[trait] || 0`. */
  function Bonus(filters: Record<int>, t: string): int
  {
    Get(filters, t).GetOr(0)
  }

  /**
   * The trait is counted at least once and its count plus bonus reaches its
   * threshold; a trait without a threshold compares with `undefined` and fails.
   */
  predicate IsActivated(units: map<string, UnitData>, thresholds: map<string, int>,
                        selected: seq<string>, filters: Record<int>, t: string)
  {
    TraitCount(units, selected, t) > 0 && t in thresholds
      && TraitCount(units, selected, t) + Bonus(filters, t) >= thresholds[t]
  }

  /** The inner `forEach`: adds one to the count of each of the champion's traits. */
  method AddTraits(traitCount: map<string, nat>, traits: seq<string>, ghost base: string -> nat)
    returns (counts: map<string, nat>)
    requires forall t :: t in traitCount <==> base(t) > 0
    requires forall t :: t in traitCount ==> traitCount[t] == base(t)
    ensures forall t :: t in counts <==> base(t) + Occurrences(traits, t) > 0
    ensures forall t :: t in counts ==> counts[t] == base(t) + Occurrences(traits, t)
  {
    counts := traitCount;
    for j := 0 to |traits|
      invariant forall t :: t in counts <==> base(t) + Occurrences(traits[..j], t) > 0
      invariant forall t :: t in counts ==> counts[t] == base(t) + Occurrences(traits[..j], t)
    {
      var name := traits[j];
      assert traits[..j + 1][..j] == traits[..j];
      counts := counts[name := (if name in counts then counts[name] else 0) + 1];
    }
    assert traits[..|traits|] == traits;
  }

  /** The counting loop: every trait the known selected champions carry, with its count. */
  method CountTraits(units: map<string, UnitData>, selectedChampions: seq<string>)
    returns (traitCount: map<string, nat>)
    ensures forall t :: t in traitCount <==> TraitCount(units, selectedChampions, t) > 0
    ensures forall t :: t in traitCount ==> traitCount[t] == TraitCount(units, selectedChampions, t)
  {
    traitCount := map[];
    for i := 0 to |selectedChampions|
      invariant forall t :: t in traitCount <==> TraitCount(units, selectedChampions[..i], t) > 0
      invariant forall t :: t in traitCount ==> traitCount[t] == TraitCount(units, selectedChampions[..i], t)
    {
      var champion := selectedChampions[i];
      assert selectedChampions[..i + 1][..i] == selectedChampions[..i];
      if champion in units {
        traitCount := AddTraits(traitCount, units[champion].traits, t => TraitCount(units, selectedChampions[..i], t));
      }
    }
    assert selectedChampions[..|selectedChampions|] == selectedChampions;
  }

  /** The second loop: the counted traits whose count plus bonus reaches the threshold, in any order. */
  method SelectActivated(units: map<string, UnitData>, thresholds: map<string, int>,
                         selectedChampions: seq<string>, filters: Record<int>, traitCount: map<string, nat>)
    returns (found: seq<string>)
    requires forall t :: t in traitCount <==> TraitCount(units, selectedChampions, t) > 0
    requires forall t :: t in traitCount ==> traitCount[t] == TraitCount(units, selectedChampions, t)
    ensures NoDup(found)
    ensures forall t :: t in found <==> IsActivated(units, thresholds, selectedChampions, filters, t)
  {
    found := [];
    var rest := traitCount.Keys;
    while rest != {}
      invariant rest <= traitCount.Keys
      invariant NoDup(found)
      invariant forall t :: t in found <==>
        t in traitCount && t !in rest && IsActivated(units, thresholds, selectedChampions, filters, t)
      decreases rest
    {
      var name :| name in rest;
      var bonus := Bonus(filters, name);
      var total := traitCount[name] + bonus;
      if name in thresholds && total >= thresholds[name] {
        found := found + [name];
      }
      rest := rest - {name};
    }
  }

  method GetActivatedTraits(units: map<string, UnitData>, thresholds: map<string, int>,
                            selectedChampions: seq<string>, filters: Record<int>)
    returns (activated: seq<string>)
    ensures StrictlySorted(activated)
    ensures forall t :: t in activated <==> IsActivated(units, thresholds, selectedChampions, filters, t)
  {
    var traitCount := CountTraits(units, selectedChampions);
    var found := SelectActivated(units, thresholds, selectedChampions, filters, traitCount);
    SortNamesStrict(found);
    activated := SortBy(found, NameKey);
  }

  /** Only what is activated matters: two results with the same activated traits are identical. */
  lemma ResultDeterminedByActivation(a: seq<string>, b: seq<string>,
                                     units: map<string, UnitData>, thresholds: map<string, int>,
                                     selected: seq<string>, filters: Record<int>,
                                     selected': seq<string>, filters': Record<int>)
    requires StrictlySorted(a) && StrictlySorted(b)
    requires forall t :: t in a <==> IsActivated(units, thresholds, selected, filters, t)
    requires forall t :: t in b <==> IsActivated(units, thresholds, selected', filters', t)
    requires forall t :: IsActivated(units, thresholds, selected, filters, t)
                    <==> IsActivated(units, thresholds, selected', filters', t)
    ensures a == b
  {
    StrictlySortedUnique(a, b);
  }

  /** The known champions among the selection. */
  function Known(units: map<string, UnitData>, selected: seq<string>): (r: seq<string>)
    ensures forall c :: c in r <==> c in selected && c in units
  {
    if selected == [] then []
    else
      var last := selected[|selected| - 1];
      Known(units, selected[..|selected| - 1]) + (if last in units then [last] else [])
  }

  /** Champions the units table does not know contribute nothing. */
  lemma {:induction false} UnknownChampionsIgnored(units: map<string, UnitData>, selected: seq<string>, t: string)
    ensures TraitCount(units, selected, t) == TraitCount(units, Known(units, selected), t)
  {
    if selected != [] {
      var init, last := selected[..|selected| - 1], selected[|selected| - 1];
      UnknownChampionsIgnored(units, init, t);
      if last in units {
        assert Known(units, selected) == Known(units, init) + [last];
        TraitCountAppend(units, Known(units, init), [last], t);
        assert [last][..0] == [];
      } else {
        assert TraitCount(units, selected, t) == TraitCount(units, init, t);
        assert Known(units, selected) == Known(units, init) + [] == Known(units, init);
      }
    }
  }

  /** A trait that no selected known champion carries has count 0, so no bonus can activate it. */
  lemma {:induction false} BonusAloneNeverActivates(units: map<string, UnitData>, thresholds: map<string, int>,
                                                    selected: seq<string>, filters: Record<int>, t: string)
    requires forall c :: c in selected && c in units ==> t !in units[c].traits
    ensures TraitCount(units, selected, t) == 0
    ensures !IsActivated(units, thresholds, selected, filters, t)
  {
    if selected != [] {
      var init := selected[..|selected| - 1];
      assert forall c :: c in init ==> c in selected;
      BonusAloneNeverActivates(units, thresholds, init, filters, t);
    }
  }

  /** A trait without a threshold entry is never activated. */
  lemma NoThresholdNeverActivates(units: map<string, UnitData>, thresholds: map<string, int>,
                                  selected: seq<string>, filters: Record<int>, t: string)
    requires t !in thresholds
    ensures !IsActivated(units, thresholds, selected, filters, t)
  {
  }

  /** Raising bonuses never removes an activated trait. */
  lemma BonusMonotone(units: map<string, UnitData>, thresholds: map<string, int>,
                      selected: seq<string>, filters: Record<int>, filters': Record<int>, t: string)
    requires Bonus(filters, t) <= Bonus(filters', t)
    requires IsActivated(units, thresholds, selected, filters, t)
    ensures IsActivated(units, thresholds, selected, filters', t)
  {
  }

  /** Counting over a concatenation adds the counts of its parts. */
  lemma {:induction false} TraitCountAppend(units: map<string, UnitData>, a: seq<string>, b: seq<string>, t: string)
    ensures TraitCount(units, a + b, t) == TraitCount(units, a, t) + TraitCount(units, b, t)
  {
    if b != [] {
      var b0 := b[..|b| - 1];
      assert (a + b)[..|a + b| - 1] == a + b0;
      TraitCountAppend(units, a, b0, t);
    } else {
      assert a + b == a;
    }
  }

  /** Taking the element at `k` out of a list. */
  lemma RemoveAtMultiset(b: seq<string>, k: nat)
    requires k < |b|
    ensures multiset(b[..k] + b[k + 1..]) == multiset(b) - multiset{b[k]}
  {
    assert b == b[..k] + [b[k]] + b[k + 1..];
  }

  /** The count of a list is the count of its element at `k` plus the count of the rest. */
  lemma TraitCountRemoveAt(units: map<string, UnitData>, b: seq<string>, k: nat, t: string)
    requires k < |b|
    ensures TraitCount(units, b, t) == TraitCount(units, [b[k]], t) + TraitCount(units, b[..k] + b[k + 1..], t)
  {
    assert b == b[..k] + [b[k]] + b[k + 1..];
    TraitCountAppend(units, b[..k] + [b[k]], b[k + 1..], t);
    TraitCountAppend(units, b[..k], [b[k]], t);
    TraitCountAppend(units, b[..k], b[k + 1..], t);
  }

  /** The counts depend only on which champions are selected how often, not on their order. */
  lemma {:induction false} TraitCountIgnoresOrder(units: map<string, UnitData>, a: seq<string>, b: seq<string>, t: string)
    requires multiset(a) == multiset(b)
    ensures TraitCount(units, a, t) == TraitCount(units, b, t)
  {
    if a != [] {
      var k := PositionIn(b, a[0]);
      var restA, restB := a[..0] + a[1..], b[..k] + b[k + 1..];
      RemoveAtMultiset(a, 0);
      RemoveAtMultiset(b, k);
      TraitCountIgnoresOrder(units, restA, restB, t);
      TraitCountRemoveAt(units, a, 0, t);
      TraitCountRemoveAt(units, b, k, t);
    } else {
      assert |b| == |multiset(b)| == 0;
    }
  }

  /** A position at which an element of the list occurs. */
  lemma PositionIn(b: seq<string>, x: string) returns (k: nat)
    requires x in multiset(b)
    ensures k < |b| && b[k] == x
  {
    k :| 0 <= k < |b| && b[k] == x;
  }

  /** Reordering the selected champions activates the same traits. */
  lemma ActivationIgnoresOrder(units: map<string, UnitData>, thresholds: map<string, int>,
                               a: seq<string>, b: seq<string>, filters: Record<int>, t: string)
    requires multiset(a) == multiset(b)
    ensures IsActivated(units, thresholds, a, filters, t) <==> IsActivated(units, thresholds, b, filters, t)
  {
    TraitCountIgnoresOrder(units, a, b, t);
  }
}
