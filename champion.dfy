/**
 * Single-set champion lookups over the `units` table of the traits data file:
 * champion name to its traits and cost tier. The table is a parameter.
 */
module Champion {
  import ChampionUtils

  /** One entry of the `units` table. */
  datatype UnitData = UnitData(traits: seq<string>, championTier: int)

  /** The tier of a known champion, 1 for an unknown one. */
  function GetChampionTier(units: map<string, UnitData>, championName: string): (tier: int)
    ensures championName in units ==> tier == units[championName].championTier
    ensures championName !in units ==> tier == 1
  {
    if championName in units then units[championName].championTier else 1
  }

  /** The border class of the champion's tier, through the same tier-to-colour switch as the per-set cache. */
  function GetChampionBorderClass(units: map<string, UnitData>, championName: string): (c: string)
    ensures championName !in units ==> c == "border-gray-400"
    ensures championName in units ==> c == ChampionUtils.DeriveBorderClass(units[championName].championTier)
  {
    ChampionUtils.DeriveBorderClass(GetChampionTier(units, championName))
  }

  /** The traits of a known champion, none for an unknown one. */
  function GetChampionTraits(units: map<string, UnitData>, championName: string): (traits: seq<string>)
    ensures championName in units ==> traits == units[championName].traits
    ensures championName !in units ==> traits == []
  {
    if championName in units then units[championName].traits else []
  }

  /** Two champions of the table with tiers in 1..5 share a border class only when they share a tier. */
  lemma BorderClassTellsTier(units: map<string, UnitData>, a: string, b: string)
    requires a in units && b in units
    requires 1 <= units[a].championTier <= 5 && 1 <= units[b].championTier <= 5
    requires GetChampionBorderClass(units, a) == GetChampionBorderClass(units, b)
    ensures GetChampionTier(units, a) == GetChampionTier(units, b)
  {
    ChampionUtils.BorderClassIdentifiesTier(units[a].championTier, units[b].championTier);
  }
}
