/**
 * The home page's data flow: the emblem filter becomes the lookup key of the
 * precomputed comps, the champion flags decide which solutions are shown,
 * and in compact view a solution that differs from an earlier shown one by a
 * single swapped champion is listed as a variant of it.
 */
module Page {
  import opened Options
  import opened Records
  import opened Sorting
  import opened ChampionMapping

  // ---------------------------------------------------------------------
  // The lookup key of an emblem filter
  // ---------------------------------------------------------------------

  /** The entries with a positive value, in their order. */
  function Positive(filters: Record<int>): (p: Record<int>)
    ensures forall i :: 0 <= i < |p| ==> p[i] in filters && p[i].1 > 0
    ensures forall i :: 0 <= i < |filters| && filters[i].1 > 0 ==> filters[i] in p
    ensures Keyed(filters) ==> Keyed(p)
  {
    if filters == [] then []
    else (if filters[0].1 > 0 then [filters[0]] else []) + Positive(filters[1..])
  }

  /** Entries are sorted by trait name only. */
  function EntryKey(e: (string, int)): SortKey
  {
    NameKey(e.0)
  }

  function Digit(d: nat): (c: char)
    requires d < 10
    ensures '0' <= c <= '9' && DigitValue(c) == d
  {
    ('0' as int + d) as char
  }

  /** The number a decimal digit stands for. */
  function DigitValue(c: char): int
  {
    c as int - '0' as int
  }

  /** The number a string of decimal digits stands for, most significant digit first. */
  function DecimalValue(s: string): int
  {
    if s == [] then 0 else 10 * DecimalValue(s[..|s| - 1]) + DigitValue(s[|s| - 1])
  }

  /** The decimal digits of `n`, as a template literal writes an integer. */
  function NatToString(n: nat): (s: string)
    ensures |s| >= 1
    ensures forall k :: 0 <= k < |s| ==> '0' <= s[k] <= '9'
    ensures DecimalValue(s) == n
  {
    if n < 10 then [Digit(n)] else
    var s := NatToString(n / 10) + [Digit(n % 10)];
    assert s[..|s| - 1] == NatToString(n / 10);
    s
  }

  /** Different numbers are written differently. */
  lemma NatToStringInjective(a: nat, b: nat)
    requires NatToString(a) == NatToString(b)
    ensures a == b
  {
    assert DecimalValue(NatToString(a)) == a;
  }

  function IntToString(i: int): string
  {
    if i < 0 then "-" + NatToString(-i) else NatToString(i)
  }

  /** One item of the key: `${k}:${v}`. */
  function RenderEntry(e: (string, int)): string
  {
    e.0 + ":" + IntToString(e.1)
  }

  /** The items joined by ",". */
  function JoinEntries(items: Record<int>): (s: string)
    requires items != []
    ensures ':' in s
  {
    var first := RenderEntry(items[0]);
    assert first[|items[0].0|] == ':';
    if |items| == 1 then first else first + "," + JoinEntries(items[1..])
  }

  /** The positive entries in ascending trait-name order. */
  function SortedPositive(filters: Record<int>): (items: Record<int>)
    ensures SortedBy(items, EntryKey)
    ensures multiset(items) == multiset(Positive(filters))
  {
    SortBySorted(Positive(filters), EntryKey);
    SortBy(Positive(filters), EntryKey)
  }

  function BonusDictToKey(filters: Record<int>): (key: string)
    ensures key == "none" <==> SortedPositive(filters) == []
    ensures key != "none" ==> ':' in key
  {
    var items := SortedPositive(filters);
    if |items| == 0 then "none" else
    var joined := JoinEntries(items);
    assert forall k :: 0 <= k < 4 ==> "none"[k] != ':';
    joined
  }

  /** No entry is positive exactly when there is nothing to list. */
  lemma NoItemsIffNoPositive(filters: Record<int>)
    ensures SortedPositive(filters) == [] <==> forall i :: 0 <= i < |filters| ==> filters[i].1 <= 0
  {
    var p, items := Positive(filters), SortedPositive(filters);
    assert |items| == |multiset(items)| == |multiset(p)| == |p|;
    if p != [] {
      var i :| 0 <= i < |filters| && filters[i] == p[0];
      assert filters[i].1 > 0;
    }
  }

  /** The key is "none" exactly when no entry is positive (empty, zero or negative values only). */
  lemma NoneIffNoPositive(filters: Record<int>)
    ensures BonusDictToKey(filters) == "none" <==> forall i :: 0 <= i < |filters| ==> filters[i].1 <= 0
  {
    NoItemsIffNoPositive(filters);
  }

  /** The listed items are exactly the positive entries. */
  lemma SortedPositiveMembers(filters: Record<int>)
    ensures forall e :: e in SortedPositive(filters) <==> e in filters && e.1 > 0
  {
    var items, p := SortedPositive(filters), Positive(filters);
    forall e
      ensures e in items <==> e in filters && e.1 > 0
    {
      assert e in items <==> e in multiset(p);
      if e in filters && e.1 > 0 {
        var i :| 0 <= i < |filters| && filters[i] == e;
        assert e in p;
      }
      if e in p {
        var i :| 0 <= i < |p| && p[i] == e;
      }
    }
  }

  /** In a record with distinct keys, the listed trait names strictly ascend. */
  lemma SortedPositiveNamesAscend(filters: Record<int>)
    requires Keyed(filters)
    ensures var items := SortedPositive(filters);
      forall i, j :: 0 <= i < j < |items| ==> StrLe(items[i].0, items[j].0) && items[i].0 != items[j].0
  {
    var items := SortedPositive(filters);
    forall i, j | 0 <= i < j < |items|
      ensures StrLe(items[i].0, items[j].0) && items[i].0 != items[j].0
    {
      NamesAscendAt(filters, i, j);
    }
  }

  /** One pair of listed items: the earlier name is smaller. */
  lemma NamesAscendAt(filters: Record<int>, i: nat, j: nat)
    requires Keyed(filters)
    requires i < j < |SortedPositive(filters)|
    ensures var items := SortedPositive(filters);
      StrLe(items[i].0, items[j].0) && items[i].0 != items[j].0
  {
    var items := SortedPositive(filters);
    assert KeyLe(EntryKey(items[i]), EntryKey(items[j]));
    PositiveNoDup(filters);
    DistinctNames(items, Positive(filters), i, j);
  }

  /** A permutation of a duplicate-free list whose names tell entries apart repeats no name. */
  lemma DistinctNames(items: Record<int>, p: Record<int>, i: nat, j: nat)
    requires multiset(items) == multiset(p)
    requires NoDup(p) && KeyInjective(p, EntryKey)
    requires i < j < |items|
    ensures items[i].0 != items[j].0
  {
    if items[i].0 == items[j].0 {
      NoDupMultiset(p);
      assert items[i] in multiset(p) && items[j] in multiset(p);
      var a :| 0 <= a < |p| && p[a] == items[i];
      var b :| 0 <= b < |p| && p[b] == items[j];
      assert EntryKey(p[a]) == EntryKey(p[b]);
      CountTwo(items, i, j);
    }
  }

  /** A non-"none" key lists every positive entry once, trait names strictly ascending. */
  lemma KeyListsPositiveEntriesByName(filters: Record<int>)
    requires Keyed(filters)
    ensures var items := SortedPositive(filters);
      && (forall e :: e in items <==> e in filters && e.1 > 0)
      && (forall i, j :: 0 <= i < j < |items| ==> StrLe(items[i].0, items[j].0) && items[i].0 != items[j].0)
      && (items != [] ==> BonusDictToKey(filters) == JoinEntries(items))
  {
    SortedPositiveMembers(filters);
    SortedPositiveNamesAscend(filters);
  }

  /** Two duplicate-free records: the positive entries of a record are duplicate-free too. */
  lemma PositiveNoDup(filters: Record<int>)
    requires Keyed(filters)
    ensures NoDup(Positive(filters))
    ensures KeyInjective(Positive(filters), EntryKey)
  {
  }

  /**
   * The key depends only on the positive (trait, value) pairs, not on the
   * order in which traits were added nor on entries with value 0 or less.
   */
  lemma KeyIgnoresOrder(a: Record<int>, b: Record<int>)
    requires Keyed(a) && Keyed(b)
    requires forall e :: (e in a && e.1 > 0) <==> (e in b && e.1 > 0)
    ensures BonusDictToKey(a) == BonusDictToKey(b)
  {
    var pa, pb := Positive(a), Positive(b);
    PositiveNoDup(a);
    PositiveNoDup(b);
    forall e
      ensures e in pa <==> e in pb
    {
      if e in pa {
        var i :| 0 <= i < |pa| && pa[i] == e;
        var j :| 0 <= j < |b| && b[j] == e;
      }
      if e in pb {
        var i :| 0 <= i < |pb| && pb[i] == e;
        var j :| 0 <= j < |a| && a[j] == e;
      }
    }
    NoDupSameSet(pa, pb);
    SortByPermutation(pa, pb, EntryKey);
  }

  // ---------------------------------------------------------------------
  // Champion flags and the shown solutions
  // ---------------------------------------------------------------------

  /** The flag of one champion: its override when there is one, otherwise `tier <= 3`. */
  function EffectiveFlag(mapping: map<string, ChampionData>, overrides: map<string, bool>, name: string): bool
    requires name in mapping
  {
    if name in overrides then overrides[name] else mapping[name].championTier <= 3
  }

  /** The `championFilters` memo: a flag for every champion of the table. */
  method ChampionFilters(mapping: map<string, ChampionData>, championOverrides: map<string, bool>)
    returns (flags: map<string, bool>)
    ensures flags.Keys == mapping.Keys
    ensures forall n :: n in mapping ==> flags[n] == EffectiveFlag(mapping, championOverrides, n)
  {
    flags := map[];
    var rest := mapping.Keys;
    while rest != {}
      invariant rest <= mapping.Keys
      invariant flags.Keys == mapping.Keys - rest
      invariant forall n :: n in flags ==> flags[n] == EffectiveFlag(mapping, championOverrides, n)
      decreases rest
    {
      var name :| name in rest;
      var defaultEnabled := mapping[name].championTier <= 3;
      flags := flags[name := if name in championOverrides then championOverrides[name] else defaultEnabled];
      rest := rest - {name};
    }
  }

  /** Without overrides the flags are the tier defaults; an override always wins. */
  lemma EffectiveFlagDefaults(mapping: map<string, ChampionData>, overrides: map<string, bool>, name: string)
    requires name in mapping
    ensures name !in overrides ==> (EffectiveFlag(mapping, overrides, name) <==> mapping[name].championTier <= 3)
    ensures name in overrides ==> EffectiveFlag(mapping, overrides, name) == overrides[name]
  {
  }

  datatype CompData = CompData(selectedChampions: seq<string>)

  /** One entry of the precomputed comps; `solutions` may be missing. */
  datatype CompEntry = CompEntry(solutions: Option<seq<CompData>>)

  /** `comps[lookupKey]?.solutions ?? comps["none"]?.solutions ?? []`. */
  function SourceSolutions(comps: map<string, CompEntry>, lookupKey: string): (all: seq<CompData>)
    ensures lookupKey in comps && comps[lookupKey].solutions.Some? ==> all == comps[lookupKey].solutions.value
    ensures !(lookupKey in comps && comps[lookupKey].solutions.Some?) && "none" in comps && comps["none"].solutions.Some?
      ==> all == comps["none"].solutions.value
    ensures !(lookupKey in comps && comps[lookupKey].solutions.Some?) && !("none" in comps && comps["none"].solutions.Some?)
      ==> all == []
  {
    if lookupKey in comps && comps[lookupKey].solutions.Some? then comps[lookupKey].solutions.value
    else if "none" in comps && comps["none"].solutions.Some? then comps["none"].solutions.value
    else []
  }

  /** Every champion of the solution is flagged true; a champion without a flag is off. */
  predicate Kept(flags: map<string, bool>, sol: CompData)
  {
    forall c :: c in sol.selectedChampions ==> c in flags && flags[c]
  }

  /** `all.filter(sol => sol.selected_champions.every(c => championFilters[c]))`. */
  function FilteredSolutions(all: seq<CompData>, flags: map<string, bool>): (shown: seq<CompData>)
    ensures |shown| <= |all|
    ensures forall s :: s in shown ==> s in all && Kept(flags, s)
  {
    if all == [] then [] else
    var last := all[|all| - 1];
    FilteredSolutions(all[..|all| - 1], flags) + (if Kept(flags, last) then [last] else [])
  }

  /** The indices of the kept solutions, ascending. */
  ghost function KeptIndices(all: seq<CompData>, flags: map<string, bool>): seq<nat>
  {
    if all == [] then [] else
    KeptIndices(all[..|all| - 1], flags) + (if Kept(flags, all[|all| - 1]) then [|all| - 1] else [])
  }

  ghost predicate Increasing(s: seq<nat>)
  {
    forall a, b :: 0 <= a < b < |s| ==> s[a] < s[b]
  }

  /** The kept indices ascend, stay below `|all|`, and match the shown solutions one for one. */
  lemma {:induction false} FilteredAtKeptIndices(all: seq<CompData>, flags: map<string, bool>)
    ensures var r, idx := FilteredSolutions(all, flags), KeptIndices(all, flags);
      && |idx| == |r|
      && Increasing(idx)
      && (forall k :: 0 <= k < |idx| ==> idx[k] < |all| && r[k] == all[idx[k]])
  {
    if all != [] {
      var init, last := all[..|all| - 1], all[|all| - 1];
      FilteredAtKeptIndices(init, flags);
      var r0, idx0 := FilteredSolutions(init, flags), KeptIndices(init, flags);
      var r, idx := FilteredSolutions(all, flags), KeptIndices(all, flags);
      assert r == r0 + (if Kept(flags, last) then [last] else []);
      assert idx == idx0 + (if Kept(flags, last) then [|all| - 1] else []);
      assert forall k :: 0 <= k < |idx0| ==> idx[k] == idx0[k] && r[k] == r0[k] && all[idx0[k]] == init[idx0[k]];
    }
  }

  /** An index is kept exactly when its solution is. */
  lemma {:induction false} KeptIndicesExact(all: seq<CompData>, flags: map<string, bool>)
    ensures forall i :: 0 <= i < |all| ==> (i in KeptIndices(all, flags) <==> Kept(flags, all[i]))
    ensures forall i :: i in KeptIndices(all, flags) ==> i < |all|
  {
    if all != [] {
      var init, last := all[..|all| - 1], all[|all| - 1];
      KeptIndicesExact(init, flags);
      var idx0, idx := KeptIndices(init, flags), KeptIndices(all, flags);
      assert idx == idx0 + (if Kept(flags, last) then [|all| - 1] else []);
      assert forall i :: i in idx <==> i in idx0 || (Kept(flags, last) && i == |all| - 1);
      assert forall i :: 0 <= i < |init| ==> all[i] == init[i];
    }
  }

  /**
   * The shown solutions are exactly the kept ones in their original order:
   * the `k`-th shown is the solution at the `k`-th ascending kept index.
   */
  lemma FilteredIsKeptSubsequence(all: seq<CompData>, flags: map<string, bool>)
    ensures var r, idx := FilteredSolutions(all, flags), KeptIndices(all, flags);
      && |idx| == |r|
      && Increasing(idx)
      && (forall k :: 0 <= k < |idx| ==> idx[k] < |all| && r[k] == all[idx[k]])
      && (forall i :: 0 <= i < |all| ==> (i in idx <==> Kept(flags, all[i])))
  {
    FilteredAtKeptIndices(all, flags);
    KeptIndicesExact(all, flags);
  }

  /** Shown solutions are all kept, and shown means kept. */
  lemma FilteredSolutionsSound(all: seq<CompData>, flags: map<string, bool>)
    ensures forall s :: s in FilteredSolutions(all, flags) <==> s in all && Kept(flags, s)
  {
    FilteredIsKeptSubsequence(all, flags);
    var r, idx := FilteredSolutions(all, flags), KeptIndices(all, flags);
    forall s
      ensures s in r <==> s in all && Kept(flags, s)
    {
      if s in r {
        var k :| 0 <= k < |r| && r[k] == s;
        assert all[idx[k]] == s && idx[k] in idx;
      }
      if s in all && Kept(flags, s) {
        var i :| 0 <= i < |all| && all[i] == s;
        assert i in idx;
        var k :| 0 <= k < |idx| && idx[k] == i;
        assert r[k] == s;
      }
    }
  }

  // ---------------------------------------------------------------------
  // Compact view: grouping one-swap variants under a base solution
  // ---------------------------------------------------------------------

  /** A champion swap of a variant: what only the base has, and what only the variant has. */
  datatype Variant = Variant(baseOnly: string, variant: string)

  /** A shown group; `variants` is undefined when there are none. */
  datatype Group = Group(base: CompData, variants: Option<seq<Variant>>)

  /** `a.filter(x => !setB.has(x))`. */
  function Diff(a: seq<string>, b: seq<string>): (d: seq<string>)
    ensures |d| <= |a|
    ensures forall x :: x in d ==> x in a && x !in b
  {
    if a == [] then [] else (if a[0] !in b then [a[0]] else []) + Diff(a[1..], b)
  }

  /** What only `a` has: its elements not in `b`, in order, duplicates kept. */
  lemma {:induction false} DiffMembers(a: seq<string>, b: seq<string>)
    ensures forall x :: x in Diff(a, b) <==> x in a && x !in b
    ensures |Diff(a, b)| <= |a|
    ensures forall x :: multiset(Diff(a, b))[x] == if x in b then 0 else multiset(a)[x]
  {
    if a != [] {
      DiffMembers(a[1..], b);
      assert a == [a[0]] + a[1..];
    }
  }

  /** Same size, and exactly one champion on each side not in the other. */
  predicate OneSwap(a: CompData, b: CompData)
  {
    && |b.selectedChampions| == |a.selectedChampions|
    && |Diff(a.selectedChampions, b.selectedChampions)| == 1
    && |Diff(b.selectedChampions, a.selectedChampions)| == 1
  }

  function VariantOf(a: CompData, b: CompData): Variant
    requires OneSwap(a, b)
  {
    Variant(Diff(a.selectedChampions, b.selectedChampions)[0], Diff(b.selectedChampions, a.selectedChampions)[0])
  }

  ghost predicate SwapsOf(sols: seq<CompData>, base: nat, ms: seq<nat>)
  {
    base < |sols| && forall k :: 0 <= k < |ms| ==> ms[k] < |sols| && OneSwap(sols[base], sols[ms[k]])
  }

  /** The variants recorded for the members `ms` of the group of `base`. */
  function VariantsOf(sols: seq<CompData>, base: nat, ms: seq<nat>): (vs: seq<Variant>)
    requires SwapsOf(sols, base, ms)
    ensures |vs| == |ms|
  {
    if ms == [] then []
    else VariantsOf(sols, base, ms[..|ms| - 1]) + [VariantOf(sols[base], sols[ms[|ms| - 1]])]
  }

  /** Claiming one more member appends its variant. */
  lemma VariantsOfAppend(sols: seq<CompData>, base: nat, ms: seq<nat>, j: nat)
    requires SwapsOf(sols, base, ms) && j < |sols| && OneSwap(sols[base], sols[j])
    ensures SwapsOf(sols, base, ms + [j])
    ensures VariantsOf(sols, base, ms + [j]) == VariantsOf(sols, base, ms) + [VariantOf(sols[base], sols[j])]
  {
    assert (ms + [j])[..|ms|] == ms;
  }

  /** How many variants the groups list. */
  function VariantCount(groups: seq<Group>): nat
  {
    if groups == [] then 0
    else
      var g := groups[|groups| - 1];
      VariantCount(groups[..|groups| - 1]) + (if g.variants.Some? then |g.variants.value| else 0)
  }

  ghost function SumLengths(ms: seq<seq<nat>>): nat
  {
    if ms == [] then 0 else SumLengths(ms[..|ms| - 1]) + |ms[|ms| - 1]|
  }

  /**
   * Every solution index belongs to exactly one group (`owner` names it):
   * as the group's base, or as one of its members, which come after the
   * base in ascending order. Bases ascend; a group records its base and as
   * many variants as members, or none at all.
   */
  ghost predicate Partition(sols: seq<CompData>, groups: seq<Group>, bases: seq<nat>, members: seq<seq<nat>>, owner: seq<int>)
  {
    && |groups| == |bases| == |members| && |owner| == |sols|
    && Increasing(bases)
    && (forall g :: 0 <= g < |bases| ==> bases[g] < |sols| && owner[bases[g]] == g && groups[g].base == sols[bases[g]])
    && (forall g :: 0 <= g < |members| ==> Increasing(members[g]))
    && (forall g, k :: 0 <= g < |members| && 0 <= k < |members[g]| ==>
          bases[g] < members[g][k] < |sols| && owner[members[g][k]] == g)
    && (forall x :: 0 <= x < |sols| ==> 0 <= owner[x] < |groups| && (x == bases[owner[x]] || x in members[owner[x]]))
    && (forall g :: 0 <= g < |groups| ==> (groups[g].variants.None? <==> members[g] == []))
    && (forall g :: 0 <= g < |groups| && groups[g].variants.Some? ==> |groups[g].variants.value| == |members[g]|)
  }

  /**
   * The greedy claiming of compact view: every member is a one-swap of its
   * base and yields the recorded variant; no base is a one-swap of an
   * earlier base; and no member is a one-swap of a base earlier than its own.
   */
  ghost predicate GreedyGroups(sols: seq<CompData>, groups: seq<Group>, bases: seq<nat>, members: seq<seq<nat>>)
    requires |groups| == |bases| == |members|
    requires forall g :: 0 <= g < |bases| ==> bases[g] < |sols|
  {
    && (forall g :: 0 <= g < |members| ==> SwapsOf(sols, bases[g], members[g]))
    && (forall g :: 0 <= g < |groups| && members[g] != [] ==>
          groups[g].variants == Some(VariantsOf(sols, bases[g], members[g])))
    && (forall g, h :: 0 <= g < h < |bases| ==> !OneSwap(sols[bases[g]], sols[bases[h]]))
    && (forall g, h, k :: 0 <= h < g < |members| && 0 <= k < |members[g]| && members[g][k] < |sols| ==>
          !OneSwap(sols[bases[h]], sols[members[g][k]]))
  }

  /** The inner loop's state before solution `j` is looked at. */
  ghost predicate ClaimsUpTo(sols: seq<CompData>, i: nat, seen: seq<bool>, claimed: seq<nat>, j: nat)
  {
    && i < j <= |sols| && |seen| == |sols|
    && Increasing(claimed)
    && (forall k :: 0 <= k < |claimed| ==> i < claimed[k] < j && !seen[claimed[k]])
    && (forall x :: i < x < j && !seen[x] && OneSwap(sols[i], sols[x]) ==> x in claimed)
    && SwapsOf(sols, i, claimed)
  }

  /** Solution `j` is passed over: visited before, or not a one-swap of `i`. */
  lemma ClaimSkip(sols: seq<CompData>, i: nat, seen: seq<bool>, claimed: seq<nat>, j: nat)
    requires ClaimsUpTo(sols, i, seen, claimed, j) && j < |sols|
    requires seen[j] || !OneSwap(sols[i], sols[j])
    ensures ClaimsUpTo(sols, i, seen, claimed, j + 1)
  {
  }

  /** Solution `j` is claimed. */
  lemma ClaimTake(sols: seq<CompData>, i: nat, seen: seq<bool>, claimed: seq<nat>, j: nat)
    requires ClaimsUpTo(sols, i, seen, claimed, j) && j < |sols|
    requires !seen[j] && OneSwap(sols[i], sols[j])
    ensures ClaimsUpTo(sols, i, seen, claimed + [j], j + 1)
    ensures VariantsOf(sols, i, claimed + [j]) == VariantsOf(sols, i, claimed) + [VariantOf(sols[i], sols[j])]
  {
    VariantsOfAppend(sols, i, claimed, j);
    AppendBounded(claimed, i, j, seen);
    AppendKeepsClaimed(sols, i, seen, claimed, j);
  }

  /** Appending an index above every claimed one keeps the list ascending, bounded and unvisited. */
  lemma AppendBounded(claimed: seq<nat>, i: nat, j: nat, seen: seq<bool>)
    requires Increasing(claimed) && j < |seen| && i < j && !seen[j]
    requires forall k :: 0 <= k < |claimed| ==> i < claimed[k] < j && !seen[claimed[k]]
    ensures Increasing(claimed + [j])
    ensures forall k :: 0 <= k < |claimed + [j]| ==> i < (claimed + [j])[k] < j + 1 && !seen[(claimed + [j])[k]]
  {
    var c := claimed + [j];
    assert forall k :: 0 <= k < |claimed| ==> c[k] == claimed[k];
    assert c[|claimed|] == j;
  }

  /** Every unvisited one-swap below `j + 1` is claimed once `j` is. */
  lemma AppendKeepsClaimed(sols: seq<CompData>, i: nat, seen: seq<bool>, claimed: seq<nat>, j: nat)
    requires j < |sols| == |seen|
    requires forall x :: i < x < j && !seen[x] && OneSwap(sols[i], sols[x]) ==> x in claimed
    ensures forall x :: i < x < j + 1 && !seen[x] && OneSwap(sols[i], sols[x]) ==> x in claimed + [j]
  {
    assert forall x :: x in claimed ==> x in claimed + [j];
    assert j in claimed + [j];
  }

  /** The visited flags after `claimed` are marked. */
  ghost function Marked(seen: seq<bool>, claimed: seq<nat>): (r: seq<bool>)
    ensures |r| == |seen|
    ensures forall x :: 0 <= x < |seen| ==> r[x] == (seen[x] || x in claimed)
  {
    seq(|seen|, x requires 0 <= x < |seen| => seen[x] || x in claimed)
  }

  lemma MarkedAppend(seen: seq<bool>, claimed: seq<nat>, j: nat)
    requires j < |seen|
    ensures Marked(seen, claimed + [j]) == Marked(seen, claimed)[j := true]
  {
    assert forall x :: x in claimed + [j] <==> x in claimed || x == j;
  }

  /**
   * The inner loop: claims, in ascending order, every later unvisited
   * solution that is a one-swap of solution `i`, and marks it visited.
   */
  method ClaimVariants(sols: seq<CompData>, i: nat, visited: array<bool>)
    returns (variants: seq<Variant>, ghost claimed: seq<nat>)
    requires visited.Length == |sols| && i < |sols|
    modifies visited
    ensures Claims(sols, i, old(visited[..]), claimed)
    ensures visited[..] == Marked(old(visited[..]), claimed)
    ensures variants == VariantsOf(sols, i, claimed)
  {
    var solA := sols[i];
    ghost var seen := visited[..];
    variants := [];
    claimed := [];
    for j := i + 1 to |sols|
      invariant ClaimsUpTo(sols, i, seen, claimed, j)
      invariant visited[..] == Marked(seen, claimed)
      invariant variants == VariantsOf(sols, i, claimed)
    {
      assert j !in claimed;
      assert visited[j] == visited[..][j] == seen[j];
      if visited[j] {
        ClaimSkip(sols, i, seen, claimed, j);
        continue;
      }
      var solB := sols[j];
      if |solB.selectedChampions| != |solA.selectedChampions| {
        ClaimSkip(sols, i, seen, claimed, j);
        continue;
      }
      var diffA := Diff(solA.selectedChampions, solB.selectedChampions);
      var diffB := Diff(solB.selectedChampions, solA.selectedChampions);
      if |diffA| == 1 && |diffB| == 1 {
        ClaimTake(sols, i, seen, claimed, j);
        MarkedAppend(seen, claimed, j);
        variants := variants + [Variant(diffA[0], diffB[0])];
        ghost var pre := visited[..];
        visited[j] := true;
        assert visited[..] == pre[j := true];
        claimed := claimed + [j];
      } else {
        ClaimSkip(sols, i, seen, claimed, j);
      }
    }
  }

  /** `owner` after group `g` takes solution `i` as its base and `claimed` as its members. */
  ghost function Claim(owner: seq<int>, i: nat, claimed: seq<nat>, g: nat): (r: seq<int>)
    ensures |r| == |owner|
    ensures forall x :: 0 <= x < |owner| ==> r[x] == if x == i || x in claimed then g else owner[x]
  {
    seq(|owner|, x requires 0 <= x < |owner| => if x == i || x in claimed then g else owner[x])
  }

  /** Visited means owned by a group, and every solution before `i` is visited. */
  ghost predicate OwnedSoFar(sols: seq<CompData>, i: nat, vis: seq<bool>, bases: seq<nat>, members: seq<seq<nat>>, owner: seq<int>)
  {
    && i <= |sols| && |vis| == |sols| && |owner| == |sols| && |bases| == |members|
    && (forall x :: 0 <= x < |sols| ==> (vis[x] <==> owner[x] >= 0) && owner[x] < |bases|)
    && (forall x :: 0 <= x < i ==> vis[x])
    && (forall x :: 0 <= x < |sols| && owner[x] >= 0 ==> x == bases[owner[x]] || x in members[owner[x]])
    && (forall g :: 0 <= g < |bases| ==> bases[g] < |sols| && owner[bases[g]] == g)
    && (forall g, k :: 0 <= g < |members| && 0 <= k < |members[g]| ==>
          members[g][k] < |sols| && owner[members[g][k]] == g)
  }

  /** The groups so far: ascending bases before `i`, members after their base, the variants they yield. */
  ghost predicate GroupsSoFar(sols: seq<CompData>, i: nat, groups: seq<Group>, bases: seq<nat>, members: seq<seq<nat>>)
  {
    && i <= |sols| && |groups| == |bases| == |members|
    && Increasing(bases)
    && (forall g :: 0 <= g < |bases| ==> bases[g] < i && groups[g].base == sols[bases[g]])
    && (forall g :: 0 <= g < |members| ==> Increasing(members[g]) && SwapsOf(sols, bases[g], members[g]))
    && (forall g, k :: 0 <= g < |members| && 0 <= k < |members[g]| ==> bases[g] < members[g][k])
    && (forall g :: 0 <= g < |groups| ==>
          groups[g].variants == if members[g] == [] then None else Some(VariantsOf(sols, bases[g], members[g])))
  }

  /** Greedy: nothing a base could have claimed was left to a later group or left unvisited. */
  ghost predicate GreedySoFar(sols: seq<CompData>, i: nat, vis: seq<bool>, bases: seq<nat>, members: seq<seq<nat>>)
    requires |vis| == |sols| && |bases| == |members|
    requires forall g :: 0 <= g < |bases| ==> bases[g] < |sols|
    requires forall g, k :: 0 <= g < |members| && 0 <= k < |members[g]| ==> members[g][k] < |sols|
  {
    && (forall g, h :: 0 <= g < h < |bases| ==> !OneSwap(sols[bases[g]], sols[bases[h]]))
    && (forall g, h, k :: 0 <= h < g < |members| && 0 <= k < |members[g]| ==>
          !OneSwap(sols[bases[h]], sols[members[g][k]]))
    && (forall j, g :: i <= j < |sols| && !vis[j] && 0 <= g < |bases| ==> !OneSwap(sols[bases[g]], sols[j]))
  }

  /** The outer loop's state before solution `i` is looked at; `vis` is the visited array. */
  ghost predicate GroupedSoFar(sols: seq<CompData>, i: nat, vis: seq<bool>, groups: seq<Group>,
                               bases: seq<nat>, members: seq<seq<nat>>, owner: seq<int>)
  {
    && OwnedSoFar(sols, i, vis, bases, members, owner)
    && GroupsSoFar(sols, i, groups, bases, members)
    && GreedySoFar(sols, i, vis, bases, members)
  }

  /** A visited solution is skipped. */
  lemma SkipVisited(sols: seq<CompData>, i: nat, vis: seq<bool>, groups: seq<Group>,
                    bases: seq<nat>, members: seq<seq<nat>>, owner: seq<int>)
    requires GroupedSoFar(sols, i, vis, groups, bases, members, owner)
    requires i < |sols| && vis[i]
    ensures GroupedSoFar(sols, i + 1, vis, groups, bases, members, owner)
  {
  }

  /** What the inner loop claims for base `i`: the later unvisited one-swaps of `i`, ascending. */
  ghost predicate Claims(sols: seq<CompData>, i: nat, seen: seq<bool>, claimed: seq<nat>)
  {
    && i < |sols| && |seen| == |sols|
    && Increasing(claimed)
    && (forall k :: 0 <= k < |claimed| ==> i < claimed[k] < |sols| && !seen[claimed[k]])
    && (forall j :: i < j < |sols| && !seen[j] && OneSwap(sols[i], sols[j]) ==> j in claimed)
    && SwapsOf(sols, i, claimed)
  }

  /** After the inner loop and `visited[i] = true`: base `i` and its members are visited, nothing else changed. */
  ghost predicate ClaimedBy(sols: seq<CompData>, i: nat, seen: seq<bool>, vis: seq<bool>, claimed: seq<nat>)
  {
    && Claims(sols, i, seen, claimed) && !seen[i] && |vis| == |sols|
    && (forall j :: 0 <= j < |sols| ==> vis[j] == (seen[j] || j in claimed || j == i))
  }

  /** Marking base `i` after its members leaves what `ClaimedBy` describes. */
  lemma MarkBase(sols: seq<CompData>, i: nat, seen: seq<bool>, claimed: seq<nat>)
    requires Claims(sols, i, seen, claimed) && !seen[i]
    ensures ClaimedBy(sols, i, seen, Marked(seen, claimed)[i := true], claimed)
  {
  }

  lemma NewGroupOwned(sols: seq<CompData>, i: nat, seen: seq<bool>, vis: seq<bool>,
                      bases: seq<nat>, members: seq<seq<nat>>, owner: seq<int>, claimed: seq<nat>)
    requires OwnedSoFar(sols, i, seen, bases, members, owner)
    requires ClaimedBy(sols, i, seen, vis, claimed)
    ensures OwnedSoFar(sols, i + 1, vis, bases + [i], members + [claimed], Claim(owner, i, claimed, |bases|))
  {
    var g := |bases|;
    var bases', members', owner' := bases + [i], members + [claimed], Claim(owner, i, claimed, g);
    forall x | 0 <= x < |sols| && owner[x] >= 0
      ensures owner'[x] == owner[x] && x != i && x !in claimed
    {
      assert forall k :: 0 <= k < |claimed| ==> claimed[k] != x;
    }
    forall x | 0 <= x < |sols| && owner'[x] >= 0
      ensures x == bases'[owner'[x]] || x in members'[owner'[x]]
    {
      if owner[x] >= 0 {
        assert bases'[owner[x]] == bases[owner[x]] && members'[owner[x]] == members[owner[x]];
      }
    }
    forall h, k | 0 <= h < g && 0 <= k < |members[h]|
      ensures owner'[members[h][k]] == h
    {
    }
  }

  lemma NewGroupGroups(sols: seq<CompData>, i: nat, seen: seq<bool>, vis: seq<bool>, groups: seq<Group>,
                       bases: seq<nat>, members: seq<seq<nat>>, variants: seq<Variant>, claimed: seq<nat>)
    requires GroupsSoFar(sols, i, groups, bases, members)
    requires ClaimedBy(sols, i, seen, vis, claimed)
    requires variants == VariantsOf(sols, i, claimed)
    ensures GroupsSoFar(sols, i + 1, groups + [Group(sols[i], if |variants| > 0 then Some(variants) else None)],
      bases + [i], members + [claimed])
  {
  }

  lemma NewGroupGreedy(sols: seq<CompData>, i: nat, seen: seq<bool>, vis: seq<bool>,
                       bases: seq<nat>, members: seq<seq<nat>>, claimed: seq<nat>)
    requires |bases| == |members| && i < |sols|
    requires forall g :: 0 <= g < |bases| ==> bases[g] < i
    requires forall g, k :: 0 <= g < |members| && 0 <= k < |members[g]| ==> members[g][k] < |sols|
    requires ClaimedBy(sols, i, seen, vis, claimed)
    requires GreedySoFar(sols, i, seen, bases, members)
    ensures GreedySoFar(sols, i + 1, vis, bases + [i], members + [claimed])
  {
    var bases', members' := bases + [i], members + [claimed];
    forall j, h | i + 1 <= j < |sols| && !vis[j] && 0 <= h < |bases'|
      ensures !OneSwap(sols[bases'[h]], sols[j])
    {
    }
  }

  /** An unvisited solution becomes the base of a new group with the members it claimed. */
  lemma NewGroup(sols: seq<CompData>, i: nat, seen: seq<bool>, vis: seq<bool>, groups: seq<Group>,
                 bases: seq<nat>, members: seq<seq<nat>>, owner: seq<int>,
                 variants: seq<Variant>, claimed: seq<nat>)
    requires GroupedSoFar(sols, i, seen, groups, bases, members, owner)
    requires ClaimedBy(sols, i, seen, vis, claimed)
    requires variants == VariantsOf(sols, i, claimed)
    ensures GroupedSoFar(sols, i + 1, vis,
      groups + [Group(sols[i], if |variants| > 0 then Some(variants) else None)],
      bases + [i], members + [claimed], Claim(owner, i, claimed, |groups|))
  {
    NewGroupOwned(sols, i, seen, vis, bases, members, owner, claimed);
    NewGroupGroups(sols, i, seen, vis, groups, bases, members, variants, claimed);
    NewGroupGreedy(sols, i, seen, vis, bases, members, claimed);
  }

  /** After the last solution, the groups partition the solutions greedily. */
  lemma GroupedAll(sols: seq<CompData>, vis: seq<bool>, groups: seq<Group>,
                   bases: seq<nat>, members: seq<seq<nat>>, owner: seq<int>)
    requires GroupedSoFar(sols, |sols|, vis, groups, bases, members, owner)
    ensures Partition(sols, groups, bases, members, owner)
    ensures GreedyGroups(sols, groups, bases, members)
  {
  }

  /**
   * Grouping is greedy, not transitive: in a chain where A and B differ by one
   * swap, B and C differ by one swap, and A and C by two, B joins A's group
   * and C starts a group of its own, although B and C are one swap apart.
   */
  lemma ChainKeepsPairApart(groups: seq<Group>, bases: seq<nat>, members: seq<seq<nat>>, owner: seq<int>)
    requires Partition(Chain, groups, bases, members, owner) && GreedyGroups(Chain, groups, bases, members)
    ensures OneSwap(Chain[0], Chain[1]) && OneSwap(Chain[1], Chain[2]) && !OneSwap(Chain[0], Chain[2])
    ensures owner[1] == owner[0] && owner[2] != owner[1]
  {
    var sols := Chain;
    ChainSwaps();
    // solution 0 is not a member (members come after their base), so it is the first base
    var g0 := owner[0];
    assert forall k :: 0 <= k < |members[g0]| ==> members[g0][k] > 0;
    assert 0 == bases[g0];
    assert bases[0] <= bases[g0];
    assert bases[0] == 0;
    // solution 1 is a one-swap of base 0, so it is no later base but a member of group 0
    var g1 := owner[1];
    assert OneSwap(sols[bases[0]], sols[1]);
    assert forall h :: 0 < h < |bases| ==> !OneSwap(sols[bases[0]], sols[bases[h]]);
    assert bases[g1] != 1;
    assert 1 in members[g1] && bases[g1] < 1;
    assert owner[bases[g1]] == g1 && g1 == g0;
    // solution 2 is not in group 0: it is neither its base nor a one-swap of it
    var base0, third := sols[bases[g0]], sols[2];
    assert 2 in members[g0] ==> OneSwap(base0, third);
    assert 2 != bases[g0] && 2 !in members[g0];
  }

  /** A ~ B ~ C with A and C two swaps apart. */
  const Chain: seq<CompData> := [CompData(["Ahri", "Jinx"]), CompData(["Ahri", "Vi"]), CompData(["Ekko", "Vi"])]

  /** Which solutions of `Chain` are one swap apart. */
  lemma ChainSwaps()
    ensures OneSwap(Chain[0], Chain[1]) && OneSwap(Chain[1], Chain[2]) && !OneSwap(Chain[0], Chain[2])
  {
    DiffTwo("Ahri", "Jinx", "Ahri", "Vi");
    DiffTwo("Ahri", "Vi", "Ahri", "Jinx");
    DiffTwo("Ahri", "Vi", "Ekko", "Vi");
    DiffTwo("Ekko", "Vi", "Ahri", "Vi");
    DiffTwo("Ahri", "Jinx", "Ekko", "Vi");
  }

  /** What only the first of two pairs has. */
  lemma DiffTwo(x: string, y: string, z: string, w: string)
    ensures Diff([x, y], [z, w]) == (if x != z && x != w then [x] else []) + (if y != z && y != w then [y] else [])
  {
    assert [x, y][1..] == [y];
    assert [y][1..] == [];
  }

  /** Non-compact view: one group per solution, without variants. */
  method ListSolutions(sols: seq<CompData>)
    returns (groups: seq<Group>, ghost bases: seq<nat>, ghost members: seq<seq<nat>>, ghost owner: seq<int>)
    ensures |groups| == |sols| && forall k :: 0 <= k < |sols| ==> groups[k] == Group(sols[k], None)
    ensures Partition(sols, groups, bases, members, owner)
  {
    var n := |sols|;
    groups, bases, members, owner := [], [], [], seq(n, _ => -1);
    for i := 0 to n
      invariant |groups| == |bases| == |members| == i && |owner| == n
      invariant forall k :: 0 <= k < i ==> groups[k] == Group(sols[k], None) && bases[k] == k && members[k] == []
      invariant forall x :: 0 <= x < n ==> owner[x] == if x < i then x else -1
    {
      groups := groups + [Group(sols[i], None)];
      bases := bases + [i];
      members := members + [[]];
      owner := owner[i := i];
    }
  }

  /** The `displayGroups` memo. */
  method DisplayGroups(sols: seq<CompData>, compactView: bool)
    returns (groups: seq<Group>, ghost bases: seq<nat>, ghost members: seq<seq<nat>>, ghost owner: seq<int>)
    ensures !compactView ==> |groups| == |sols| && forall k :: 0 <= k < |sols| ==> groups[k] == Group(sols[k], None)
    ensures Partition(sols, groups, bases, members, owner)
    ensures compactView ==> GreedyGroups(sols, groups, bases, members)
    ensures |groups| + VariantCount(groups) == |sols|
  {
    if !compactView {
      groups, bases, members, owner := ListSolutions(sols);
      PartitionCount(sols, groups, bases, members, owner);
      return;
    }
    var n := |sols|;
    groups, bases, members, owner := [], [], [], seq(n, _ => -1);
    var visited := new bool[n](_ => false);
    for i := 0 to n
      invariant visited.Length == n
      invariant GroupedSoFar(sols, i, visited[..], groups, bases, members, owner)
    {
      if visited[i] {
        SkipVisited(sols, i, visited[..], groups, bases, members, owner);
        continue;
      }
      var solA := sols[i];
      ghost var seen := visited[..];
      var variants, claimed := ClaimVariants(sols, i, visited);
      visited[i] := true;
      ghost var vis := visited[..];
      assert vis == Marked(seen, claimed)[i := true];
      MarkBase(sols, i, seen, claimed);
      NewGroup(sols, i, seen, vis, groups, bases, members, owner, variants, claimed);
      owner := Claim(owner, i, claimed, |groups|);
      groups := groups + [Group(solA, if |variants| > 0 then Some(variants) else None)];
      bases := bases + [i];
      members := members + [claimed];
    }
    GroupedAll(sols, visited[..], groups, bases, members, owner);
    PartitionCount(sols, groups, bases, members, owner);
  }

  // ---------------------------------------------------------------------
  // Counting: the bases and the variants together cover every solution once
  // ---------------------------------------------------------------------

  ghost function Indices(n: nat): (s: seq<nat>)
    ensures |s| == n && forall k :: 0 <= k < n ==> s[k] == k
  {
    seq(n, k => k)
  }

  ghost function Range(n: nat): set<nat>
  {
    Elems(Indices(n))
  }

  lemma RangeSize(n: nat)
    ensures |Range(n)| == n
    ensures forall x: nat :: x in Range(n) <==> x < n
  {
    IncreasingSetSize(Indices(n));
    forall x: nat | x < n
      ensures x in Range(n)
    {
      assert Indices(n)[x] == x;
    }
  }

  ghost function Elems(s: seq<nat>): set<nat>
  {
    set x | x in s
  }

  lemma {:induction false} IncreasingSetSize(s: seq<nat>)
    requires Increasing(s)
    ensures |Elems(s)| == |s|
  {
    if s != [] {
      var init, last := s[..|s| - 1], s[|s| - 1];
      assert s == init + [last];
      assert Increasing(init) by {
        forall a, b | 0 <= a < b < |init|
          ensures init[a] < init[b]
        {
          assert init[a] == s[a] && init[b] == s[b];
        }
      }
      IncreasingSetSize(init);
      assert last !in init by {
        forall k | 0 <= k < |init|
          ensures init[k] != last
        {
          assert init[k] == s[k];
        }
      }
      assert Elems(s) == Elems(init) + {last};
    }
  }

  /** The solutions owned by the first `m` groups. */
  ghost function OwnedBy(owner: seq<int>, m: int): set<nat>
  {
    set x: nat | x < |owner| && 0 <= owner[x] < m
  }

  /** Who owns what: group `g` owns its base and its members, and nothing else. */
  ghost predicate Owns(bases: seq<nat>, members: seq<seq<nat>>, owner: seq<int>)
  {
    && |bases| == |members|
    && (forall g :: 0 <= g < |bases| ==> bases[g] < |owner| && owner[bases[g]] == g)
    && (forall g :: 0 <= g < |members| ==> Increasing(members[g]))
    && (forall g, k :: 0 <= g < |members| && 0 <= k < |members[g]| ==>
          bases[g] < members[g][k] < |owner| && owner[members[g][k]] == g)
    && (forall x :: 0 <= x < |owner| && 0 <= owner[x] < |bases| ==> x == bases[owner[x]] || x in members[owner[x]])
  }

  /** The solutions of group `g`: its base and its members. */
  ghost function GroupElems(bases: seq<nat>, members: seq<seq<nat>>, g: nat): set<nat>
    requires g < |bases| == |members|
  {
    {bases[g]} + Elems(members[g])
  }

  lemma GroupElemsSize(bases: seq<nat>, members: seq<seq<nat>>, g: nat)
    requires g < |bases| == |members|
    requires Increasing(members[g])
    requires forall k :: 0 <= k < |members[g]| ==> bases[g] < members[g][k]
    ensures |GroupElems(bases, members, g)| == 1 + |members[g]|
  {
    IncreasingSetSize(members[g]);
    assert bases[g] !in Elems(members[g]);
  }

  /** A group owns one solution more than it has members. */
  lemma OwnedGroupSize(bases: seq<nat>, members: seq<seq<nat>>, owner: seq<int>, g: nat)
    requires Owns(bases, members, owner)
    requires g < |bases|
    ensures |GroupElems(bases, members, g)| == 1 + |members[g]|
  {
    assert Increasing(members[g]);
    assert forall k :: 0 <= k < |members[g]| ==> bases[g] < members[g][k];
    GroupElemsSize(bases, members, g);
  }

  lemma OwnedStep(bases: seq<nat>, members: seq<seq<nat>>, owner: seq<int>, m: nat)
    requires Owns(bases, members, owner)
    requires 0 < m <= |bases|
    ensures OwnedBy(owner, m) == OwnedBy(owner, m - 1) + GroupElems(bases, members, m - 1)
    ensures OwnedBy(owner, m - 1) !! GroupElems(bases, members, m - 1)
  {
    var g := m - 1;
    forall x | x in GroupElems(bases, members, g)
      ensures x < |owner| && owner[x] == g
    {
      if x != bases[g] {
        var k :| 0 <= k < |members[g]| && members[g][k] == x;
      }
    }
  }

  lemma {:induction false} OwnedSize(bases: seq<nat>, members: seq<seq<nat>>, owner: seq<int>, m: nat)
    requires Owns(bases, members, owner)
    requires m <= |bases|
    ensures |OwnedBy(owner, m)| == m + SumLengths(members[..m])
  {
    if m > 0 {
      OwnedSize(bases, members, owner, m - 1);
      OwnedStep(bases, members, owner, m);
      OwnedGroupSize(bases, members, owner, m - 1);
      CountStep(OwnedBy(owner, m - 1), GroupElems(bases, members, m - 1), OwnedBy(owner, m), members, m);
    }
  }

  /** Adding a group disjoint from the first `m - 1` adds its size to the count. */
  lemma CountStep(before: set<nat>, added: set<nat>, all: set<nat>, members: seq<seq<nat>>, m: nat)
    requires 0 < m <= |members|
    requires all == before + added && before !! added
    requires |before| == m - 1 + SumLengths(members[..m - 1])
    requires |added| == 1 + |members[m - 1]|
    ensures |all| == m + SumLengths(members[..m])
  {
    assert |before + added| == |before| + |added|;
    assert members[..m][..m - 1] == members[..m - 1];
  }

  lemma {:induction false} VariantCountIsSumLengths(groups: seq<Group>, members: seq<seq<nat>>)
    requires |groups| == |members|
    requires forall g :: 0 <= g < |groups| ==> (groups[g].variants.None? <==> members[g] == [])
    requires forall g :: 0 <= g < |groups| && groups[g].variants.Some? ==> |groups[g].variants.value| == |members[g]|
    ensures VariantCount(groups) == SumLengths(members)
  {
    if groups != [] {
      VariantCountIsSumLengths(groups[..|groups| - 1], members[..|members| - 1]);
    }
  }

  /** Each solution is counted once, as a base or as a variant: the groups plus their variants number n. */
  lemma PartitionCount(sols: seq<CompData>, groups: seq<Group>, bases: seq<nat>, members: seq<seq<nat>>, owner: seq<int>)
    requires Partition(sols, groups, bases, members, owner)
    ensures |groups| + VariantCount(groups) == |sols|
  {
    assert Owns(bases, members, owner);
    OwnedSize(bases, members, owner, |groups|);
    RangeSize(|sols|);
    assert OwnedBy(owner, |groups|) == Range(|sols|);
    assert members[..|groups|] == members;
    VariantCountIsSumLengths(groups, members);
  }
}
