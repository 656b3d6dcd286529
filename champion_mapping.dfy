/**
 * The per-set data tables: champions (traits, cost tier, team-planner code),
 * trait activation thresholds and set configuration, with their lookups.
 */
module ChampionMapping {
  import opened Options

  datatype ChampionData = ChampionData(traits: seq<string>, championTier: int, teamPlannerCode: string)

  datatype SetConfig = SetConfig(
    targetSlots: int,
    teamPlannerCodePrefix: string,
    eligibleEmblemTraits: Option<seq<string>>,
    singleActivationEmblemTraits: Option<seq<string>>)

  /**
   * The champion table of TFTSet10, in alphabetical blocks of at most
   * twenty entries (each block is checked on its own).
   */
  const Set10Champions: map<string, ChampionData> := Set10Block0 + Set10Block1 + Set10Block2

  const Set10Block0: map<string, ChampionData> := map[
    "Ahri" := ChampionData(["K/DA", "Spellweaver"], 4, "24b"),
    "Akali (K/DA)" := ChampionData(["Breakout", "Executioner", "K/DA"], 4, "24d"),
    "Akali (True Damage)" := ChampionData(["Breakout", "Executioner", "True Damage"], 4, "24c"),
    "Amumu" := ChampionData(["Emo", "Guardian"], 3, "24e"),
    "Annie" := ChampionData(["Emo", "Spellweaver"], 1, "24f"),
    "Aphelios" := ChampionData(["Heartsteel", "Rapidfire"], 2, "250"),
    "Bard" := ChampionData(["Dazzler", "Jazz"], 2, "251"),
    "Blitzcrank" := ChampionData(["Disco", "Sentinel"], 4, "252"),
    "Caitlyn" := ChampionData(["8-bit", "Rapidfire"], 4, "253"),
    "Corki" := ChampionData(["8-bit", "Big Shot"], 1, "254"),
    "Ekko" := ChampionData(["Sentinel", "Spellweaver", "True Damage"], 3, "255"),
    "Evelynn" := ChampionData(["Crowd Diver", "K/DA"], 1, "256"),
    "Ezreal" := ChampionData(["Big Shot", "Heartsteel"], 4, "257"),
    "Garen" := ChampionData(["8-bit", "Sentinel"], 2, "258"),
    "Gnar" := ChampionData(["Mosher", "Pentakill", "Superfan"], 2, "259"),
    "Gragas" := ChampionData(["Bruiser", "Disco", "Spellweaver"], 2, "25b"),
    "Illaoi" := ChampionData(["Bruiser", "ILLBEATS"], 5, "25c"),
    "Jax" := ChampionData(["EDM", "Mosher"], 2, "25e"),
    "Jhin" := ChampionData(["Big Shot", "Maestro"], 5, "25f"),
    "Jinx" := ChampionData(["Punk", "Rapidfire"], 1, "260")
  ]

  const Set10Block1: map<string, ChampionData> := map[
    "K'Sante" := ChampionData(["Heartsteel", "Sentinel"], 1, "267"),
    "Kai'Sa" := ChampionData(["Big Shot", "K/DA"], 2, "261"),
    "Karthus" := ChampionData(["Executioner", "Pentakill"], 4, "262"),
    "Katarina" := ChampionData(["Country", "Crowd Diver"], 2, "263"),
    "Kayle" := ChampionData(["Edgelord", "Pentakill"], 2, "264"),
    "Kayn" := ChampionData(["Edgelord", "Heartsteel", "Wildcard"], 5, "265"),
    "Kennen" := ChampionData(["Guardian", "Superfan", "True Damage"], 1, "266"),
    "Lillia" := ChampionData(["K/DA", "Sentinel", "Superfan"], 1, "268"),
    "Lucian" := ChampionData(["Jazz", "Rapidfire"], 5, "269"),
    "Lulu" := ChampionData(["Hyperpop", "Spellweaver"], 3, "26a"),
    "Lux" := ChampionData(["Dazzler", "EDM"], 3, "26c"),
    "Miss Fortune" := ChampionData(["Big Shot", "Jazz"], 3, "26d"),
    "Mordekaiser" := ChampionData(["Pentakill", "Sentinel"], 3, "26e"),
    "Nami" := ChampionData(["Dazzler", "Disco"], 1, "26f"),
    "Neeko" := ChampionData(["Guardian", "K/DA", "Superfan"], 3, "270"),
    "Olaf" := ChampionData(["Bruiser", "Pentakill"], 1, "271"),
    "Pantheon" := ChampionData(["Guardian", "Punk"], 2, "272"),
    "Poppy" := ChampionData(["Emo", "Mosher"], 4, "273"),
    "Qiyana" := ChampionData(["Crowd Diver", "True Damage"], 5, "274"),
    "Riven" := ChampionData(["8-bit", "Edgelord"], 3, "275")
  ]

  const Set10Block2: map<string, ChampionData> := map[
    "Samira" := ChampionData(["Country", "Executioner"], 3, "276"),
    "Senna" := ChampionData(["Rapidfire", "True Damage"], 2, "277"),
    "Seraphine" := ChampionData(["K/DA", "Spellweaver"], 2, "278"),
    "Sett" := ChampionData(["Bruiser", "Heartsteel", "Mosher"], 3, "279"),
    "Sona" := ChampionData(["Mixmaster", "Spellweaver"], 5, "27a"),
    "Tahm Kench" := ChampionData(["Bruiser", "Country"], 1, "27b"),
    "Taric" := ChampionData(["Disco", "Guardian"], 1, "27c"),
    "Thresh" := ChampionData(["Country", "Guardian"], 4, "27d"),
    "Twisted Fate" := ChampionData(["Dazzler", "Disco"], 4, "27e"),
    "Twitch" := ChampionData(["Executioner", "Punk"], 2, "27f"),
    "Urgot" := ChampionData(["Country", "Mosher"], 3, "280"),
    "Vex" := ChampionData(["Emo", "Executioner"], 3, "281"),
    "Vi" := ChampionData(["Mosher", "Punk"], 1, "282"),
    "Viego" := ChampionData(["Edgelord", "Pentakill"], 4, "283"),
    "Yasuo" := ChampionData(["Edgelord", "True Damage"], 1, "284"),
    "Yone" := ChampionData(["Crowd Diver", "Edgelord", "Heartsteel"], 3, "285"),
    "Yorick" := ChampionData(["Guardian", "Mosher", "Pentakill"], 5, "286"),
    "Zac" := ChampionData(["Bruiser", "EDM"], 4, "287"),
    "Zed" := ChampionData(["Crowd Diver", "EDM"], 4, "288"),
    "Ziggs" := ChampionData(["Dazzler", "Hyperpop"], 5, "289")
  ]


  /**
   * The champion table of TFTSet14, in alphabetical blocks of at most
   * twenty entries (each block is checked on its own).
   */
  const Set14Champions: map<string, ChampionData> := Set14Block0 + Set14Block1 + Set14Block2

  const Set14Block0: map<string, ChampionData> := map[
    "Alistar" := ChampionData(["Bruiser", "Golden Ox"], 1, "312"),
    "Annie" := ChampionData(["A.M.P", "Golden Ox"], 4, "316"),
    "Aphelios" := ChampionData(["Golden Ox", "Marksman"], 4, "71a"),
    "Aurora" := ChampionData(["Anima Squad", "Dynamo"], 5, "30d"),
    "Brand" := ChampionData(["Street Demon", "Techie"], 4, "2e1"),
    "Braum" := ChampionData(["Syndicate", "Vanguard"], 3, "2f8"),
    "Cho'Gath" := ChampionData(["BoomBot", "Bruiser"], 4, "30a"),
    "Darius" := ChampionData(["Bruiser", "Syndicate"], 2, "2e2"),
    "Dr. Mundo" := ChampionData(["Bruiser", "Slayer", "Street Demon"], 1, "2e3"),
    "Draven" := ChampionData(["Cypher", "Rapidfire"], 3, "31c"),
    "Ekko" := ChampionData(["Strategist", "Street Demon"], 2, "31f"),
    "Elise" := ChampionData(["Dynamo", "Nitro"], 3, "2e4"),
    "Fiddlesticks" := ChampionData(["BoomBot", "Techie"], 3, "2e5"),
    "Galio" := ChampionData(["Bastion", "Cypher"], 3, "2e6"),
    "Gragas" := ChampionData(["Bruiser", "Divinicorp"], 3, "302"),
    "Graves" := ChampionData(["Executioner", "Golden Ox"], 2, "315"),
    "Illaoi" := ChampionData(["Anima Squad", "Bastion"], 2, "2fd"),
    "Jarvan IV" := ChampionData(["Golden Ox", "Slayer", "Vanguard"], 3, "314"),
    "Jax" := ChampionData(["Bastion", "Exotech"], 1, "305"),
    "Jhin" := ChampionData(["Dynamo", "Exotech", "Marksman"], 2, "300")
  ]

  const Set14Block1: map<string, ChampionData> := map[
    "Jinx" := ChampionData(["Marksman", "Street Demon"], 3, "31e"),
    "Kindred" := ChampionData(["Marksman", "Nitro", "Rapidfire"], 1, "2fb"),
    "Kobuko" := ChampionData(["Bruiser", "Cyberboss"], 5, "306"),
    "Kog'Maw" := ChampionData(["BoomBot", "Rapidfire"], 1, "303"),
    "LeBlanc" := ChampionData(["Cypher", "Strategist"], 2, "2e8"),
    "Leona" := ChampionData(["Anima Squad", "Vanguard"], 4, "30f"),
    "Miss Fortune" := ChampionData(["Dynamo", "Syndicate"], 4, "2e9"),
    "Mordekaiser" := ChampionData(["Bruiser", "Exotech", "Techie"], 3, "311"),
    "Morgana" := ChampionData(["Divinicorp", "Dynamo"], 1, "2ea"),
    "Naafiri" := ChampionData(["A.M.P", "Exotech"], 2, "301"),
    "Neeko" := ChampionData(["Strategist", "Street Demon"], 4, "2eb"),
    "Nidalee" := ChampionData(["A.M.P", "Nitro"], 1, "2f9"),
    "Poppy" := ChampionData(["Bastion", "Cyberboss"], 1, "308"),
    "Renekton" := ChampionData(["Bastion", "Divinicorp", "Overlord"], 5, "2ec"),
    "Rengar" := ChampionData(["Executioner", "Street Demon"], 3, "2ed"),
    "Rhaast" := ChampionData(["Divinicorp", "Vanguard"], 2, "317"),
    "Samira" := ChampionData(["A.M.P", "Street Demon"], 5, "2ee"),
    "Sejuani" := ChampionData(["Bastion", "Exotech"], 4, "307"),
    "Senna" := ChampionData(["Divinicorp", "Slayer"], 3, "2ef"),
    "Seraphine" := ChampionData(["Anima Squad", "Techie"], 1, "2fe")
  ]

  const Set14Block2: map<string, ChampionData> := map[
    "Shaco" := ChampionData(["Slayer", "Syndicate"], 1, "2f0"),
    "Shyvana" := ChampionData(["Bastion", "Nitro", "Techie"], 2, "2fa"),
    "Skarner" := ChampionData(["BoomBot", "Vanguard"], 2, "304"),
    "Sylas" := ChampionData(["Anima Squad", "Vanguard"], 1, "30c"),
    "Twisted Fate" := ChampionData(["Rapidfire", "Syndicate"], 2, "2f1"),
    "Urgot" := ChampionData(["BoomBot", "Executioner"], 5, "30b"),
    "Varus" := ChampionData(["Executioner", "Exotech"], 3, "2f2"),
    "Vayne" := ChampionData(["Anima Squad", "Slayer"], 2, "30e"),
    "Veigar" := ChampionData(["Cyberboss", "Techie"], 2, "2f3"),
    "Vex" := ChampionData(["Divinicorp", "Executioner"], 4, "2f4"),
    "Vi" := ChampionData(["Cypher", "Vanguard"], 1, "310"),
    "Viego" := ChampionData(["Golden Ox", "Soul Killer", "Techie"], 5, "313"),
    "Xayah" := ChampionData(["Anima Squad", "Marksman"], 4, "2ff"),
    "Yuumi" := ChampionData(["A.M.P", "Anima Squad", "Strategist"], 3, "2fc"),
    "Zed" := ChampionData(["Cypher", "Slayer"], 4, "2f5"),
    "Zeri" := ChampionData(["Exotech", "Rapidfire"], 4, "2f6"),
    "Ziggs" := ChampionData(["Cyberboss", "Strategist"], 4, "309"),
    "Zyra" := ChampionData(["Street Demon", "Techie"], 1, "2f7")
  ]


  /** The trait thresholds of TFTSet10. */
  const Set10Thresholds: map<string, int> := map[
    "8-bit" := 2,
    "Big Shot" := 2,
    "Bruiser" := 2,
    "Country" := 3,
    "Crowd Diver" := 2,
    "Dazzler" := 2,
    "Disco" := 3,
    "EDM" := 2,
    "Edgelord" := 3,
    "Emo" := 2,
    "Executioner" := 2,
    "Guardian" := 2,
    "Heartsteel" := 3,
    "Hyperpop" := 1,
    "Jazz" := 2,
    "K/DA" := 3,
    "Mosher" := 2,
    "Pentakill" := 3,
    "Punk" := 2,
    "Rapidfire" := 2,
    "Sentinel" := 2,
    "Spellweaver" := 3,
    "Superfan" := 3,
    "True Damage" := 2
  ]

  /** The trait thresholds of TFTSet14. */
  const Set14Thresholds: map<string, int> := map[
    "A.M.P" := 2,
    "Anima Squad" := 3,
    "Bastion" := 2,
    "BoomBot" := 2,
    "Bruiser" := 2,
    "Cyberboss" := 2,
    "Cypher" := 3,
    "Divinicorp" := 1,
    "Dynamo" := 2,
    "Executioner" := 2,
    "Exotech" := 3,
    "Golden Ox" := 2,
    "Marksman" := 2,
    "Nitro" := 3,
    "Rapidfire" := 2,
    "Slayer" := 2,
    "Strategist" := 2,
    "Street Demon" := 3,
    "Syndicate" := 3,
    "Techie" := 2,
    "Vanguard" := 2
  ]

  const ChampionDataBySet: map<string, map<string, ChampionData>> :=
    map["TFTSet10" := Set10Champions, "TFTSet14" := Set14Champions]

  const TraitThresholdsBySet: map<string, map<string, int>> :=
    map["TFTSet10" := Set10Thresholds, "TFTSet14" := Set14Thresholds]

  const SetConfigs: map<string, SetConfig> := map[
    "TFTSet10" := SetConfig(10, "02", Some(["K/DA", "Spellweaver", "True Damage", "Executioner", "Emo", "Guardian", "Heartsteel", "Rapidfire", "Jazz", "Dazzler", "Disco", "Sentinel", "8-bit", "Big Shot", "Crowd Diver", "Pentakill", "Superfan", "Mosher", "Bruiser", "Country", "Edgelord", "Hyperpop", "Punk"]), Some(["Hyperpop"])),
    "TFTSet14" := SetConfig(10, "02", Some(["Anima Squad", "BoomBot", "Divinicorp", "Exotech", "Golden Ox", "Street Demon", "Syndicate", "Bastion", "Bruiser", "Dynamo", "Executioner", "Marksman", "Rapidfire", "Slayer", "Strategist", "Techie", "Vanguard"]), Some(["Divinicorp"]))
  ]

  /** The champion table of a set; an unknown set has an empty one. */
  function GetChampionMappingForSet(setIdentifier: string): (m: map<string, ChampionData>)
    ensures setIdentifier in ChampionDataBySet ==> m == ChampionDataBySet[setIdentifier]
    ensures setIdentifier !in ChampionDataBySet ==> m == map[]
  {
    if setIdentifier in ChampionDataBySet then ChampionDataBySet[setIdentifier] else map[]
  }

  /** The trait thresholds of a set; an unknown set has none. */
  function GetTraitThresholdsForSet(setIdentifier: string): (m: map<string, int>)
    ensures setIdentifier in TraitThresholdsBySet ==> m == TraitThresholdsBySet[setIdentifier]
    ensures setIdentifier !in TraitThresholdsBySet ==> m == map[]
  {
    if setIdentifier in TraitThresholdsBySet then TraitThresholdsBySet[setIdentifier] else map[]
  }

  /** The configuration of a set, or None (`undefined`) for an unknown set. */
  function GetSetConfig(setIdentifier: string): (c: Option<SetConfig>)
    ensures c.Some? <==> setIdentifier in SetConfigs
    ensures c.Some? ==> c.value == SetConfigs[setIdentifier]
  {
    if setIdentifier in SetConfigs then Some(SetConfigs[setIdentifier]) else None
  }

  /** `pat` occurs in `s` starting at index `i`. */
  ghost predicate OccursAt(s: string, pat: string, i: int)
  {
    0 <= i && i + |pat| <= |s| && s[i..i + |pat|] == pat
  }

  /** `s.indexOf(pat, from)`: the first occurrence at or after `from`. */
  function IndexOfFrom(s: string, pat: string, from: nat): (r: Option<nat>)
    ensures r.Some? ==> from <= r.value && OccursAt(s, pat, r.value)
    ensures forall i :: from <= i && (r.None? || i < r.value) ==> !OccursAt(s, pat, i)
    decreases |s| - from
  {
    if from + |pat| > |s| then None
    else if s[from..from + |pat|] == pat then Some(from)
    else IndexOfFrom(s, pat, from + 1)
  }

  /** `s.replace(pat, rep)` with a string pattern: only the first occurrence is replaced. */
  function ReplaceFirst(s: string, pat: string, rep: string): (r: string)
    ensures (forall i :: !OccursAt(s, pat, i)) ==> r == s
    ensures forall i :: OccursAt(s, pat, i) && (forall j :: 0 <= j < i ==> !OccursAt(s, pat, j)) ==>
      r == s[..i] + rep + s[i + |pat|..]
  {
    match IndexOfFrom(s, pat, 0)
    case None => s
    case Some(i) => s[..i] + rep + s[i + |pat|..]
  }

  /** The set number: the identifier with its first "TFTSet" removed. */
  function GetSetNumber(setIdentifier: string): (r: string)
    ensures (forall i :: !OccursAt(setIdentifier, "TFTSet", i)) ==> r == setIdentifier
    ensures forall i :: OccursAt(setIdentifier, "TFTSet", i) && (forall j :: 0 <= j < i ==> !OccursAt(setIdentifier, "TFTSet", j)) ==>
      r == setIdentifier[..i] + setIdentifier[i + 6..]
  {
    ReplaceFirst(setIdentifier, "TFTSet", "")
  }

  lemma GetSetNumberOfPrefixed(rest: string)
    ensures GetSetNumber("TFTSet" + rest) == rest
  {
    var s := "TFTSet" + rest;
    assert OccursAt(s, "TFTSet", 0) by { assert s[0..6] == "TFTSet"; }
    assert s[6..] == rest;
  }

  lemma GetSetNumberExample()
    ensures GetSetNumber("TFTSet14") == "14"
  {
    GetSetNumberOfPrefixed("14");
    assert "TFTSet" + "14" == "TFTSet14";
  }

  /** Every entry of a champion table has a tier in 1..5 and a 3-character code. */
  ghost predicate ValidChampionTable(m: map<string, ChampionData>)
  {
    forall n :: n in m ==> 1 <= m[n].championTier <= 5 && |m[n].teamPlannerCode| == 3
  }

  /** A table made of two valid tables is valid. */
  lemma UnionValid(a: map<string, ChampionData>, b: map<string, ChampionData>)
    requires ValidChampionTable(a) && ValidChampionTable(b)
    ensures ValidChampionTable(a + b)
  {
  }

  lemma Set10Block0Valid()
    ensures ValidChampionTable(Set10Block0)
  {
  }

  lemma Set10Block1Valid()
    ensures ValidChampionTable(Set10Block1)
  {
  }

  lemma Set10Block2Valid()
    ensures ValidChampionTable(Set10Block2)
  {
  }

  lemma Set10TableValid()
    ensures ValidChampionTable(Set10Champions)
  {
    Set10Block0Valid();
    Set10Block1Valid();
    Set10Block2Valid();
    UnionValid(Set10Block0, Set10Block1);
    UnionValid(Set10Block0 + Set10Block1, Set10Block2);
  }

  lemma Set14Block0Valid()
    ensures ValidChampionTable(Set14Block0)
  {
  }

  lemma Set14Block1Valid()
    ensures ValidChampionTable(Set14Block1)
  {
  }

  lemma Set14Block2Valid()
    ensures ValidChampionTable(Set14Block2)
  {
  }

  lemma Set14TableValid()
    ensures ValidChampionTable(Set14Champions)
  {
    Set14Block0Valid();
    Set14Block1Valid();
    Set14Block2Valid();
    UnionValid(Set14Block0, Set14Block1);
    UnionValid(Set14Block0 + Set14Block1, Set14Block2);
  }

  lemma ChampionTablesValid()
    ensures forall s :: s in ChampionDataBySet ==> ValidChampionTable(ChampionDataBySet[s])
  {
    Set10TableValid();
    Set14TableValid();
  }

  lemma SetConfigsConsistent()
    ensures forall s :: s in SetConfigs ==>
      && SetConfigs[s].targetSlots == 10
      && SetConfigs[s].teamPlannerCodePrefix == "02"
      && SetConfigs[s].eligibleEmblemTraits.Some?
      && SetConfigs[s].singleActivationEmblemTraits.Some?
      && forall t :: t in SetConfigs[s].singleActivationEmblemTraits.value ==> t in SetConfigs[s].eligibleEmblemTraits.value
  {
  }

  lemma UnknownSetNoChampions(setIdentifier: string)
    requires setIdentifier != "TFTSet10" && setIdentifier != "TFTSet14"
    ensures setIdentifier !in ChampionDataBySet
  {
  }

  lemma UnknownSetNoThresholds(setIdentifier: string)
    requires setIdentifier != "TFTSet10" && setIdentifier != "TFTSet14"
    ensures setIdentifier !in TraitThresholdsBySet
  {
  }

  lemma UnknownSetNoConfig(setIdentifier: string)
    requires setIdentifier != "TFTSet10" && setIdentifier != "TFTSet14"
    ensures setIdentifier !in SetConfigs
  {
  }

  lemma UnknownSetLookups(setIdentifier: string)
    requires setIdentifier != "TFTSet10" && setIdentifier != "TFTSet14"
    ensures GetChampionMappingForSet(setIdentifier) == map[]
    ensures GetTraitThresholdsForSet(setIdentifier) == map[]
    ensures GetSetConfig(setIdentifier) == None
  {
    UnknownSetNoChampions(setIdentifier);
    UnknownSetNoThresholds(setIdentifier);
    UnknownSetNoConfig(setIdentifier);
  }
}
