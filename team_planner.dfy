/**
 * The team-planner code: the selected champions sorted by (tier, name),
 * padded to ten slots with "Blank", each written as its 3-character code
 * ("000" when the table does not know it) after the "02" prefix, followed
 * by the set identifier. The champion table is a parameter.
 */
module TeamPlanner {
  import opened Sorting
  import opened ChampionMapping
  import opened ChampionUtils

  const Prefix: string := "02"
  const TargetSlots: nat := 10
  const Filler: string := "Blank"
  const Missing: string := "000"

  /** The code of one slot. */
  function CodeOf(mapping: map<string, ChampionData>, champion: string): string
  {
    if champion in mapping then mapping[champion].teamPlannerCode else Missing
  }

  /** The slots written one after another. */
  function Codes(mapping: map<string, ChampionData>, slots: seq<string>): string
  {
    if slots == [] then []
    else Codes(mapping, slots[..|slots| - 1]) + CodeOf(mapping, slots[|slots| - 1])
  }

  /** The list filled up to the target number of slots; a longer list is kept whole. */
  function Padded(s: seq<string>): (r: seq<string>)
    ensures |r| == if |s| < TargetSlots then TargetSlots else |s|
    ensures r[..|s|] == s
    ensures forall i :: |s| <= i < |r| ==> r[i] == Filler
  {
    s + seq(if |s| < TargetSlots then TargetSlots - |s| else 0, _ => Filler)
  }

  /** What the code of a selection is, stated on values. */
  function PlannerCode(mapping: map<string, ChampionData>, selected: seq<string>, setIdentifier: string): string
  {
    Prefix + Codes(mapping, Padded(SortByTierAndName(TierTable(mapping), selected))) + setIdentifier
  }

  /** `Padded(s)` is the only list of its length that extends `s` with fillers. */
  lemma PaddedUnique(s: seq<string>, p: seq<string>)
    requires |p| == if |s| < TargetSlots then TargetSlots else |s|
    requires |s| <= |p| && p[..|s|] == s
    requires forall i :: |s| <= i < |p| ==> p[i] == Filler
    ensures p == Padded(s)
  {
    var r := Padded(s);
    forall i | 0 <= i < |p|
      ensures p[i] == r[i]
    {
      if i < |s| {
        assert p[i] == p[..|s|][i] && r[i] == r[..|s|][i];
      }
    }
  }

  /** The `while` loop that pushes fillers until there are ten slots. */
  method PadSlots(sortedChampions: seq<string>) returns (paddedChampions: seq<string>)
    ensures paddedChampions == Padded(sortedChampions)
  {
    paddedChampions := sortedChampions;
    while |paddedChampions| < TargetSlots
      invariant |sortedChampions| <= |paddedChampions| <= if |sortedChampions| < TargetSlots then TargetSlots else |sortedChampions|
      invariant paddedChampions[..|sortedChampions|] == sortedChampions
      invariant forall i :: |sortedChampions| <= i < |paddedChampions| ==> paddedChampions[i] == Filler
      decreases TargetSlots - |paddedChampions|
    {
      paddedChampions := paddedChampions + [Filler];
    }
    PaddedUnique(sortedChampions, paddedChampions);
  }

  /** Writing one more slot appends its code. */
  lemma CodesStep(mapping: map<string, ChampionData>, slots: seq<string>, i: nat)
    requires i < |slots|
    ensures Codes(mapping, slots[..i + 1]) == Codes(mapping, slots[..i]) + CodeOf(mapping, slots[i])
  {
    assert slots[..i + 1][..i] == slots[..i];
  }

  /** The `for` loop that appends the code of every slot. */
  method AppendSlotCodes(mapping: map<string, ChampionData>, start: string, paddedChampions: seq<string>)
    returns (code: string)
    ensures code == start + Codes(mapping, paddedChampions)
  {
    code := start;
    for i := 0 to |paddedChampions|
      invariant code == start + Codes(mapping, paddedChampions[..i])
    {
      CodesStep(mapping, paddedChampions, i);
      ghost var done := Codes(mapping, paddedChampions[..i]);
      var next := CodeOf(mapping, paddedChampions[i]);
      assert start + done + next == start + (done + next);
      code := code + next;
    }
    assert paddedChampions[..|paddedChampions|] == paddedChampions;
  }

  method BuildTeamPlannerCode(mapping: map<string, ChampionData>, selectedChampions: seq<string>, setIdentifier: string)
    returns (code: string)
    ensures code == PlannerCode(mapping, selectedChampions, setIdentifier)
  {
    code := Prefix;
    var sortedChampions := SortByTierAndName(TierTable(mapping), selectedChampions);
    var paddedChampions := PadSlots(sortedChampions);
    code := AppendSlotCodes(mapping, code, paddedChampions);
    code := code + setIdentifier;
  }

  /** Every champion of the table has a 3-character code. */
  ghost predicate ThreeCharCodes(mapping: map<string, ChampionData>)
  {
    forall c :: c in mapping ==> |mapping[c].teamPlannerCode| == 3
  }

  lemma {:induction false} CodesLength(mapping: map<string, ChampionData>, slots: seq<string>)
    requires ThreeCharCodes(mapping)
    ensures |Codes(mapping, slots)| == 3 * |slots|
  {
    if slots != [] {
      CodesLength(mapping, slots[..|slots| - 1]);
    }
  }

  /** The code of slot `i` sits at characters 3i to 3i+3. */
  lemma {:induction false} CodesSlot(mapping: map<string, ChampionData>, slots: seq<string>, i: nat)
    requires ThreeCharCodes(mapping)
    requires i < |slots|
    ensures |Codes(mapping, slots)| == 3 * |slots|
    ensures Codes(mapping, slots)[3 * i..3 * i + 3] == CodeOf(mapping, slots[i])
  {
    CodesLength(mapping, slots);
    var init := slots[..|slots| - 1];
    CodesLength(mapping, init);
    if i < |init| {
      CodesSlot(mapping, init, i);
      assert Codes(mapping, slots)[3 * i..3 * i + 3] == Codes(mapping, init)[3 * i..3 * i + 3];
    } else {
      assert Codes(mapping, slots)[3 * i..3 * i + 3] == CodeOf(mapping, slots[|slots| - 1]);
    }
  }

  /** The code starts with "02" and ends with the set identifier. */
  lemma PlannerCodeFrame(mapping: map<string, ChampionData>, selected: seq<string>, setIdentifier: string)
    ensures var code := PlannerCode(mapping, selected, setIdentifier);
      |code| >= 2 + |setIdentifier| && code[..2] == "02" && code[|code| - |setIdentifier|..] == setIdentifier
  {
  }

  /** Ten slots for up to ten champions, one slot each beyond that: nothing is truncated. */
  lemma PlannerCodeLength(mapping: map<string, ChampionData>, selected: seq<string>, setIdentifier: string)
    requires ThreeCharCodes(mapping)
    ensures |PlannerCode(mapping, selected, setIdentifier)|
      == 2 + 3 * (if |selected| < 10 then 10 else |selected|) + |setIdentifier|
  {
    CodesLength(mapping, Padded(SortByTierAndName(TierTable(mapping), selected)));
  }

  /**
   * Slot `i` holds the code of the `i`-th champion in ascending (tier, name)
   * order, or "000" when that champion is unknown.
   */
  lemma PlannerCodeSlot(mapping: map<string, ChampionData>, selected: seq<string>, setIdentifier: string, i: nat)
    requires ThreeCharCodes(mapping)
    requires i < |selected|
    ensures var sorted := SortByTierAndName(TierTable(mapping), selected);
      var code := PlannerCode(mapping, selected, setIdentifier);
      2 + 3 * i + 3 <= |code| && code[2 + 3 * i..2 + 3 * i + 3] == CodeOf(mapping, sorted[i])
  {
    var sorted := SortByTierAndName(TierTable(mapping), selected);
    var padded := Padded(sorted);
    assert padded[i] == sorted[i];
    CodesSlot(mapping, padded, i);
    FrameSlice(Codes(mapping, padded), setIdentifier, i);
  }

  /** Three characters at offset 3i of the codes sit at offset 2 + 3i of the whole code. */
  lemma FrameSlice(codes: string, setIdentifier: string, i: nat)
    requires 3 * i + 3 <= |codes|
    ensures var code := Prefix + codes + setIdentifier;
      2 + 3 * i + 3 <= |code| && code[2 + 3 * i..2 + 3 * i + 3] == codes[3 * i..3 * i + 3]
  {
  }

  /** A champion the table does not know is written as "000". */
  lemma UnknownChampionCode(mapping: map<string, ChampionData>, champion: string)
    requires champion !in mapping
    ensures CodeOf(mapping, champion) == "000"
  {
  }

  /** The slots after the champions are "Blank", written as "000" when the table has no such champion. */
  lemma PlannerCodeBlankSlot(mapping: map<string, ChampionData>, selected: seq<string>, setIdentifier: string, i: nat)
    requires ThreeCharCodes(mapping)
    requires Filler !in mapping
    requires |selected| <= i < 10
    ensures var code := PlannerCode(mapping, selected, setIdentifier);
      2 + 3 * i + 3 <= |code| && code[2 + 3 * i..2 + 3 * i + 3] == "000"
  {
    var sorted := SortByTierAndName(TierTable(mapping), selected);
    var padded := Padded(sorted);
    CodesSlot(mapping, padded, i);
    FrameSlice(Codes(mapping, padded), setIdentifier, i);
  }

  /** The selection's order does not matter: any permutation yields the same code. */
  lemma PlannerCodeIgnoresOrder(mapping: map<string, ChampionData>, a: seq<string>, b: seq<string>, setIdentifier: string)
    requires multiset(a) == multiset(b)
    ensures PlannerCode(mapping, a, setIdentifier) == PlannerCode(mapping, b, setIdentifier)
  {
    SortByTierAndNameIgnoresOrder(TierTable(mapping), a, b);
  }

  /** The fixed prefix and slot count agree with the configuration of every known set. */
  lemma PlannerConstantsMatchSetConfigs(setIdentifier: string)
    requires GetSetConfig(setIdentifier).Some?
    ensures GetSetConfig(setIdentifier).value.teamPlannerCodePrefix == Prefix
    ensures GetSetConfig(setIdentifier).value.targetSlots == TargetSlots
  {
    SetConfigsConsistent();
  }
}
