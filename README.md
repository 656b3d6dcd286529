# TFT trait tracker: a verified model of its rules

The trait tracker is a web page for looking up precomputed Teamfight Tactics team compositions. This project models in Dafny the rules that decide what the page looks up and what it shows.

- **The lookup key.** The emblem filter (trait name to number of emblems) becomes the key of the precomputed comps: `"none"`, or `trait:value` items sorted by trait name and joined by `,`.
- **Champion flags and solution filtering.** Each champion's flag is its override or, failing that, `tier <= 3`. A solution is shown only when all of its champions are flagged on.
- **Compact-view grouping.** The shown solutions are walked once with a `visited` array. A later unvisited solution of the same size that swaps exactly one champion is attached to the current base as a variant.
- **The emblem-filter editor.** Its "+" and "−" buttons, the clamping to each trait's cap, the deletion of zeros, reset, and the guards that keep the total at most 4.
- **The champion-filter editor.** It groups champions by tier, toggles one champion or a whole tier, resets to the defaults, and installs the defaults when nothing is set yet.
- **Trait activation.** It counts traits over the selected champions, adds emblem bonuses, and compares the totals with the thresholds.
- **The team-planner code.** `"02"`, then ten or more 3-character slot codes in (tier, name) order, then the set identifier.
- **Lookups.** Champion tier, border colour and traits, both per set with a lazily filled cache and over a single table. The per-set tables and configurations, the set number, and display-name shortening.

There is one module per source file, and each takes the form of the code it models:

- Pure code becomes functions and lemmas: the lookup key, filtering, the emblem-filter updates, the lookups and display names.
- Loops become methods with loop invariants, proved against specification functions or predicates:
  - the `championFilters` memo;
  - `displayGroups`, which keeps its `visited` array;
  - trait counting and selection;
  - the tier map, tier toggles and reset;
  - the team-planner padding and code building;
  - the cache fill.
- The module-level `setCaches` of `championUtils.ts` becomes the class `ChampionCaches`, with a `map` field that its methods update.

JavaScript objects that `Object.entries` walks in order are modelled as the `Record` type: entry lists in insertion order, with `Get`, `Put` and `Remove`. The emblem filter is one of these. Objects that are only looked up in and assigned to are Dafny maps.

The champion table, the traits table (`units`) and the threshold table are parameters. `ChampionMapping` holds the concrete set-10 and set-14 tables as constants, which are one instance of them.

Two solutions one swap apart need not share a group:

- The grouping pass is greedy. In a chain A ~ B ~ C, where A and C differ by two champions, B joins A's group and C starts a group of its own, although B and C are one swap apart.
- `Page.ChainKeepsPairApart` proves this on a three-solution example.

One detail of the code itself:

- `toggleChampion` reads a missing flag as false, so toggling it once turns it on.
- `toggleTier` counts a missing flag as enabled (`!== false`).
- The model keeps both readings.

## Model

| member | source | states |
|---|---|---|
| Records.Get | src/components/FilterSection.tsx:74 | `prev[trait]` finds a value exactly when the key is present, and in a record without duplicate keys it is that key's value |
| Records.Put | src/components/FilterSection.tsx:79-81 | storing a value changes the lookup of that key only, replaces or appends one entry, and keeps keys distinct |
| Records.Remove | src/components/FilterSection.tsx:84 | `delete` makes the key absent, keeps every other entry, and keeps keys distinct |
| Sorting.SortBy | src/app/page.tsx:29 | a sort returns a permutation of its input |
| Sorting.SortBySorted | src/app/page.tsx:29 | the sorted list ascends by its key |
| Sorting.SortByPermutation | src/utils/teamPlanner.ts:11-16 | two permutations of one list sort to the same list when the key tells elements apart |
| Sorting.StrictlySortedUnique | src/utils/traits.ts:49 | two strictly ascending name lists with the same members are equal |
| Sorting.SortNamesStrict | src/utils/traits.ts:49 | sorting a duplicate-free name list gives a strictly ascending list with the same members |
| Page.Positive | src/app/page.tsx:27-28 | keeps exactly the entries with a positive value, and distinct keys stay distinct |
| Page.NatToString | src/app/page.tsx:32 | the value is written as one or more decimal digits whose decimal value is the number itself |
| Page.NatToStringInjective | src/app/page.tsx:32 | different counts are written differently, so the key tells them apart |
| Page.JoinEntries | src/app/page.tsx:32 | a joined non-empty list of `k:v` items contains `:`, so it is never `"none"` |
| Page.BonusDictToKey | src/app/page.tsx:26-33 | the key is `"none"` exactly when there are no positive entries to list, and otherwise contains `:` |
| Page.SortedPositive | src/app/page.tsx:27-29 | the positive entries, as a permutation sorted by trait name |
| Page.NoItemsIffNoPositive | src/app/page.tsx:28-30 | there is nothing to list exactly when no value is positive |
| Page.NoneIffNoPositive | src/app/page.tsx:27-31 | the key is `"none"` if and only if no entry is positive (empty, zeros or negatives) |
| Page.SortedPositiveMembers | src/app/page.tsx:27-29 | the listed items are exactly the entries with a positive value |
| Page.SortedPositiveNamesAscend | src/app/page.tsx:29 | the listed trait names strictly ascend |
| Page.NamesAscendAt | src/app/page.tsx:29 | any two listed items are in strictly ascending name order |
| Page.KeyListsPositiveEntriesByName | src/app/page.tsx:29-32 | a non-`"none"` key joins every positive entry once, by ascending trait name |
| Page.PositiveNoDup | src/app/page.tsx:27-28 | the positive entries of an object have distinct trait names |
| Page.KeyIgnoresOrder | src/app/page.tsx:26-33 | two filters with the same positive (trait, value) pairs give the same key, whatever the insertion order and the non-positive entries |
| Page.ChampionFilters | src/app/page.tsx:51-58 | builds a flag for every champion of the table and no other, each the override if one exists, else `tier <= 3` |
| Page.EffectiveFlag | src/app/page.tsx:54-55 | one champion's flag: its override when there is one, otherwise `tier <= 3`; `EffectiveFlagDefaults` states both cases |
| Page.EffectiveFlagDefaults | src/app/page.tsx:54-55 | without an override the flag is `tier <= 3`, and an override always wins |
| Page.SourceSolutions | src/app/page.tsx:91 | the solutions of the key, else those of `"none"`, else none |
| Page.Kept | src/app/page.tsx:92-94 | a solution passes the filter exactly when every champion of it has a flag and that flag is true |
| Page.FilteredSolutions | src/app/page.tsx:92-94 | the shown solutions are no more than the source list, and every one of them is in it and passes the filter |
| Page.FilteredAtKeptIndices | src/app/page.tsx:92-94 | the shown solutions are the solutions at an ascending list of indices |
| Page.KeptIndicesExact | src/app/page.tsx:92-94 | an index is among them exactly when every champion of its solution is flagged true |
| Page.FilteredIsKeptSubsequence | src/app/page.tsx:92-94 | the shown solutions are the kept ones in their original order, and a champion without a flag counts as off |
| Page.FilteredSolutionsSound | src/app/page.tsx:92-94 | a solution is shown if and only if it is in the source list and all its champions are on |
| Page.Diff | src/app/page.tsx:126-131 | the filtered list is no longer than `a`, and holds only champions of `a` that `b` lacks |
| Page.OneSwap | src/app/page.tsx:120-132 | two solutions are variants of each other when they have the same size and each has exactly one champion the other lacks |
| Page.DiffMembers | src/app/page.tsx:126-131 | `diffA` holds the champions of A not in B, in order, no longer than A |
| Page.VariantsOfAppend | src/app/page.tsx:133-136 | claiming one more one-swap appends its (baseOnly, variant) pair |
| Page.ClaimSkip | src/app/page.tsx:118-124 | a visited solution, or one that is not a one-swap of the base, is passed over and the claims stay complete |
| Page.ClaimTake | src/app/page.tsx:132-137 | an unvisited one-swap is claimed in ascending order, and its variant is appended |
| Page.ClaimVariants | src/app/page.tsx:115-139 | the inner loop claims, in ascending order, exactly the later unvisited one-swaps of the base; marks exactly those visited; and records one variant per claim |
| Page.SkipVisited | src/app/page.tsx:113 | skipping a visited solution keeps the grouping invariant |
| Page.MarkBase | src/app/page.tsx:140 | after `visited[i] = true`, the visited flags are the old ones plus the base and its claims |
| Page.NewGroupOwned | src/app/page.tsx:140-144 | a new group owns its base and its claims, and no solution changes group |
| Page.NewGroupGroups | src/app/page.tsx:141-144 | the new group has the base and its variants, or `undefined` when there are none |
| Page.NewGroupGreedy | src/app/page.tsx:117-139 | after the new group no unvisited later solution is a one-swap of any base so far |
| Page.NewGroup | src/app/page.tsx:112-145 | one outer iteration keeps the whole grouping invariant |
| Page.GroupedAll | src/app/page.tsx:112-146 | after the loop the groups partition the solutions and the claiming is greedy |
| Page.ChainKeepsPairApart | src/app/page.tsx:112-145 | with A ~ B ~ C and A, C two swaps apart, B joins A's group and C does not, so grouping is not transitive |
| Page.ListSolutions | src/app/page.tsx:103-107 | non-compact view: one group per solution, in order, without variants |
| Page.DisplayGroups | src/app/page.tsx:97-147 | both views partition the solutions (each index once, ascending bases, members after their base, `variants` non-empty or `undefined`); compact view claims greedily; groups plus variants number the solutions |
| Page.PartitionCount | src/app/page.tsx:109-145 | in a partition the bases and the variants together count every solution exactly once |
| FilterSection.TotalBonus | src/components/FilterSection.tsx:69 | the sum of the stored counts: not negative when no count is, and at least the number of traits when every count is positive |
| FilterSection.CanDecrement | src/components/FilterSection.tsx:194-195 | "−" is enabled unless the shown count is 0 |
| FilterSection.CanIncrement | src/components/FilterSection.tsx:204-205 | "+" is disabled at the trait's cap and once the total reaches 4 |
| FilterSection.NewValue | src/components/FilterSection.tsx:74-78 | the new count is `current + delta` when that lies in 0..cap, the cap when it is above, and 0 when it is below; a trait without a cap gives `NaN` |
| FilterSection.UpdateFilter | src/components/FilterSection.tsx:71-90 | a positive new count is stored, 0 or `NaN` deletes the trait, and every other trait is unchanged |
| FilterSection.ResetFilters | src/components/FilterSection.tsx:92-94 | reset gives the empty filter, with total 0 |
| FilterSection.UpdateKeepsSparse | src/components/FilterSection.tsx:80-85 | an update never stores a zero |
| FilterSection.TotalAfterPut | src/components/FilterSection.tsx:69 | the total after storing a count changes by that count minus the old one |
| FilterSection.TotalAfterRemove | src/components/FilterSection.tsx:69 | the total after deleting a trait drops by its count |
| FilterSection.CountWithinCap | src/components/FilterSection.tsx:171 | the shown count of a filter within bounds is between 0 and the trait's cap |
| FilterSection.AnyUpdateKeepsEntriesCapped | src/components/FilterSection.tsx:74-85 | any update keeps every stored trait capped and its count in 1..cap |
| FilterSection.GuardedIncrementKeepsBounds | src/components/FilterSection.tsx:204-205 | a "+" the guard allows keeps the filter within bounds, including the total of at most 4 |
| FilterSection.DecrementKeepsBounds | src/components/FilterSection.tsx:194-195 | a "−" keeps the filter within bounds |
| FilterSection.RunKeepsBounds | src/components/FilterSection.tsx:193-209 | any sequence of button presses keeps a filter within bounds |
| FilterSection.RunFromEmpty | src/components/FilterSection.tsx:193-209 | from `{}`, every value stays in 1..cap and the total at most 4 |
| FilterSection.CapIsOneOnlyForDivinicorp | src/components/FilterSection.tsx:34-52 | the cap is 1 for Divinicorp and 2 for every other trait |
| FilterSection.EligibleTraitsAgree | src/components/FilterSection.tsx:14-52 | the traits with buttons are exactly the capped traits, and the eligible and single-activation traits of set 14 |
| ChampionFilterSection.GroupByTier | src/components/ChampionFilterSection.tsx:17-22 | each tier that occurs gets a non-empty duplicate-free list of exactly its champions |
| ChampionFilterSection.SortGroups | src/components/ChampionFilterSection.tsx:23-25 | sorting every group keeps its champions and makes it strictly ascending by name |
| ChampionFilterSection.BuildTierMap | src/components/ChampionFilterSection.tsx:17-25 | the tier map partitions the champions by tier, each list sorted by name |
| ChampionFilterSection.TierMapUnique | src/components/ChampionFilterSection.tsx:17-25 | there is one tier map per table, whatever the order of its entries |
| ChampionFilterSection.SetAll | src/components/ChampionFilterSection.tsx:53-55 | the listed champions get the flag, and every other flag is kept |
| ChampionFilterSection.ResetChampionFilters | src/components/ChampionFilterSection.tsx:60-69 | reset gives every champion of the table the flag `tier <= 3` and nothing else |
| ChampionFilterSection.DefaultFilters | src/components/ChampionFilterSection.tsx:63-66 | the defaults have a flag for exactly the table's champions, on exactly for tiers 1 to 3 |
| ChampionFilterSection.DefaultsByTier | src/components/ChampionFilterSection.tsx:63-66 | each champion's default is on exactly when its tier is at most 3 |
| ChampionFilterSection.InitialChampionFilters | src/components/ChampionFilterSection.tsx:28-39 | the defaults are installed only when no flag is set, otherwise the flags are kept |
| ChampionFilterSection.ToggleChampion | src/components/ChampionFilterSection.tsx:41-46 | the champion's flag is negated, a missing one becoming true, and every other flag is kept |
| ChampionFilterSection.ToggleChampionTwice | src/components/ChampionFilterSection.tsx:41-46 | toggling twice restores a set flag, and leaves a missing one false |
| ChampionFilterSection.ToggleTier | src/components/ChampionFilterSection.tsx:49-57 | the tier's champions all become off when all were enabled (missing counts as enabled), otherwise all on; nothing else changes |
| ChampionFilterSection.TierToggledFrom | src/components/ChampionFilterSection.tsx:52-55 | writing the negated "all enabled" over exactly the tier's champions is the toggled result |
| ChampionFilterSection.TierToggledUniform | src/components/ChampionFilterSection.tsx:51-55 | after a toggle every champion of the tier has the same flag, and other flags are unchanged |
| ChampionFilterSection.ToggleTierTwice | src/components/ChampionFilterSection.tsx:51-55 | starting from all enabled, two toggles give all enabled again |
| Traits.Occurrences | src/utils/traits.ts:32-34 | a trait is counted at least once exactly when it is in the list |
| Traits.AddTraits | src/utils/traits.ts:32-34 | the inner loop adds each of the champion's trait occurrences to the counts |
| Traits.CountTraits | src/utils/traits.ts:26-36 | the counts are keyed by exactly the traits that known selected champions carry, and each is how often they are carried |
| Traits.SelectActivated | src/utils/traits.ts:38-47 | the selected traits are duplicate-free, and are exactly those whose count plus bonus reaches a threshold |
| Traits.GetActivatedTraits | src/utils/traits.ts:25-50 | the result strictly ascends, and a trait is in it if and only if it is counted, has a threshold, and count plus bonus reaches it |
| Traits.ResultDeterminedByActivation | src/utils/traits.ts:49 | two results with the same activated traits are identical |
| Traits.Known | src/utils/traits.ts:30-31 | the known champions are the selected ones the table has |
| Traits.UnknownChampionsIgnored | src/utils/traits.ts:30-35 | champions the table does not know contribute nothing |
| Traits.BonusAloneNeverActivates | src/utils/traits.ts:29-40 | a trait no known selected champion carries has count 0 and is never activated, whatever the bonus |
| Traits.NoThresholdNeverActivates | src/utils/traits.ts:43-44 | a trait without a threshold is never activated |
| Traits.BonusMonotone | src/utils/traits.ts:41-45 | raising a bonus never removes an activated trait |
| Traits.TraitCountAppend | src/utils/traits.ts:29-36 | counting over two lists one after the other adds their counts |
| Traits.TraitCountIgnoresOrder | src/utils/traits.ts:29-36 | the counts depend only on the multiset of selected champions |
| Traits.ActivationIgnoresOrder | src/utils/traits.ts:25-47 | reordering the selection activates the same traits |
| TeamPlanner.Padded | src/utils/teamPlanner.ts:19-22 | the slots are the champions followed by "Blank" up to ten; a longer list is kept whole |
| TeamPlanner.PadSlots | src/utils/teamPlanner.ts:19-22 | the `while` loop produces exactly the padded list |
| TeamPlanner.AppendSlotCodes | src/utils/teamPlanner.ts:25-30 | the `forEach` appends the code of every slot in order |
| TeamPlanner.BuildTeamPlannerCode | src/utils/teamPlanner.ts:4-35 | the code is the prefix, the codes of the sorted and padded slots, then the set identifier |
| TeamPlanner.CodesLength | src/utils/teamPlanner.ts:25-30 | with 3-character codes, the slots take three characters each |
| TeamPlanner.CodesSlot | src/utils/teamPlanner.ts:25-30 | slot `i` sits at characters 3i to 3i+3 |
| TeamPlanner.PlannerCodeFrame | src/utils/teamPlanner.ts:6-33 | the code starts with "02" and ends with the set identifier |
| TeamPlanner.PlannerCodeLength | src/utils/teamPlanner.ts:19-30 | the length is 2 + 3·max(10, n) + the identifier's length, so nothing is truncated |
| TeamPlanner.PlannerCodeSlot | src/utils/teamPlanner.ts:11-30 | slot `i` holds the code of the `i`-th champion in ascending (tier, name) order, tier 99 when unknown |
| TeamPlanner.PlannerCodeBlankSlot | src/utils/teamPlanner.ts:19-29 | the filler slots read "000" when the table has no "Blank" |
| TeamPlanner.UnknownChampionCode | src/utils/teamPlanner.ts:26-28 | a champion missing from the table is written "000" |
| TeamPlanner.PlannerCodeIgnoresOrder | src/utils/teamPlanner.ts:11 | any permutation of the selection gives the same code |
| TeamPlanner.PlannerConstantsMatchSetConfigs | src/utils/teamPlanner.ts:6-7 | the fixed prefix and slot count agree with every known set's configuration |
| ChampionUtils.DeriveBorderClass | src/utils/championUtils.ts:39-54 | tiers outside 2..5 are gray |
| ChampionUtils.BorderClassIdentifiesTier | src/utils/championUtils.ts:39-54 | tiers 1..5 have five different colours |
| ChampionUtils.TierTable | src/utils/championUtils.ts:29 | the tier cache has the table's champions, each with its tier |
| ChampionUtils.SortByTierAndName | src/utils/championUtils.ts:64-69 | a sorted permutation of the champions by (tier, name), tier 99 when unknown |
| ChampionUtils.SortByTierAndNameIgnoresOrder | src/utils/championUtils.ts:64-69 | permutations of the input sort to the same list |
| ChampionUtils.FillCache | src/utils/championUtils.ts:24-35 | the `forEach` fills the three caches with exactly the table's tiers, colours and traits |
| ChampionUtils.ValidAfterFill | src/utils/championUtils.ts:33-35 | storing a freshly built cache keeps every cache consistent with its set's table |
| ChampionUtils.ChampionCaches.constructor | src/utils/championUtils.ts:7-14 | the caches start empty and consistent |
| ChampionUtils.ChampionCaches.EnsureSetCacheInitialized | src/utils/championUtils.ts:16-37 | the set's cache is built from its table when it has no tier cache, and otherwise nothing changes |
| ChampionUtils.ChampionCaches.SortChampionsByTierAndName | src/utils/championUtils.ts:56-70 | the sorted copy by (tier, name) from the set's table; the set's cache is built if it was missing, and every other cache is kept |
| ChampionUtils.ChampionCaches.GetChampionTier | src/utils/championUtils.ts:72-79 | the champion's tier in the set, or 1; the set's cache is built if it was missing, and every other cache is kept |
| ChampionUtils.ChampionCaches.GetChampionBorderClass | src/utils/championUtils.ts:81-91 | the champion's tier colour in the set, or gray when unknown; the set's cache is built if it was missing, and every other cache is kept |
| ChampionUtils.ChampionCaches.GetChampionTraits | src/utils/championUtils.ts:93-106 | the champion's traits in the set, or none; the set's cache is built if it was missing, and every other cache is kept |
| Champion.GetChampionTier | src/utils/champion.ts:17-20 | the tier of a known champion, else 1 |
| Champion.GetChampionBorderClass | src/utils/champion.ts:22-38 | the colour of the champion's tier, gray for an unknown champion |
| Champion.GetChampionTraits | src/utils/champion.ts:40-43 | the traits of a known champion, else none |
| Champion.BorderClassTellsTier | src/utils/champion.ts:22-38 | two champions with tiers in 1..5 have the same colour only when they have the same tier |
| ChampionMapping.GetChampionMappingForSet | src/utils/championMapping.ts:199-201 | the set's champion table, or an empty one |
| ChampionMapping.GetTraitThresholdsForSet | src/utils/championMapping.ts:203-205 | the set's thresholds, or none |
| ChampionMapping.GetSetConfig | src/utils/championMapping.ts:207-209 | the set's configuration, or `undefined` |
| ChampionMapping.IndexOfFrom | src/utils/championMapping.ts:212 | the first occurrence of the pattern at or after a position, or none |
| ChampionMapping.ReplaceFirst | src/utils/championMapping.ts:212 | `replace` with a string pattern: a string without the pattern is unchanged, otherwise only its first occurrence is replaced |
| ChampionMapping.GetSetNumber | src/utils/championMapping.ts:211-213 | the first "TFTSet" is removed, and a string without one is unchanged |
| ChampionMapping.GetSetNumberOfPrefixed | src/utils/championMapping.ts:211-213 | "TFTSet" followed by anything gives that rest |
| ChampionMapping.GetSetNumberExample | src/utils/championMapping.ts:211-213 | "TFTSet14" gives "14" |
| ChampionMapping.UnionValid | src/utils/championMapping.ts:9-132 | a table merged from two valid tables is valid |
| ChampionMapping.Set10TableValid | src/utils/championMapping.ts:10-71 | every set-10 champion has a tier in 1..5 and a 3-character code |
| ChampionMapping.Set14TableValid | src/utils/championMapping.ts:72-132 | every set-14 champion has a tier in 1..5 and a 3-character code |
| ChampionMapping.ChampionTablesValid | src/utils/championMapping.ts:9-133 | every champion of every set has a tier in 1..5 and a 3-character code |
| ChampionMapping.SetConfigsConsistent | src/utils/championMapping.ts:193-196 | both sets have 10 slots, prefix "02", and single-activation traits among their eligible traits |
| ChampionMapping.UnknownSetLookups | src/utils/championMapping.ts:199-209 | an unknown set has no champions and no thresholds, and its configuration is `undefined` |
| DisplayNames.SpaceRun | src/utils/displayNames.ts:4 | the greedy `\s*` takes the longest run of white space |
| DisplayNames.ShortestBase | src/utils/displayNames.ts:4 | the lazy base group is the shortest base length with which the whole pattern matches |
| DisplayNames.Truncated | src/utils/displayNames.ts:19-23 | a name of at most 12 characters is kept; a longer one becomes 10 characters and "...", 13 in all |
| DisplayNames.GetChampionDisplayName | src/utils/displayNames.ts:1-24 | a name the pattern does not match goes through the length rule; a matched name is its shortest base, a space and its shortened variant |
| DisplayNames.ShortPlainNameUnchanged | src/utils/displayNames.ts:3-23 | a name without both parentheses, of at most 12 characters, is shown as it is |
| DisplayNames.NoClosingParenAtEnd | src/utils/displayNames.ts:3-21 | a name not ending in ")" falls through to the length rule |
| DisplayNames.LongNameTruncated | src/utils/displayNames.ts:19-21 | a long name not ending in ")" becomes its first 10 characters and "...", 13 characters |
| DisplayNames.ParentheticalVariant | src/utils/displayNames.ts:3-14 | `base (variant)` is shown as `base` and the shortened variant, without truncation |
| DisplayNames.PlainBase | src/utils/displayNames.ts:4 | a base of letters has no "(", no trailing white space and no line terminator |
| DisplayNames.TrueDamageShortened | src/utils/displayNames.ts:9-14 | `Name (True Damage)` is shown as `Name TD` |

## Left out

- Rendering: the JSX of every component, images, tooltips, modals and the header and footer are presentation only.
- React state: `useState`, `useMemo`, `useEffect` and persisted state become plain functions and methods of their inputs. Re-rendering and effect ordering are not modelled.
- Fetching and storage: fetching the comps, the API route, the database client, local storage and window-size listeners are I/O. The fetched comps are a parameter of `Page.SourceSolutions`.
- The traits data file is not part of this model. Its `units` and `trait_thresholds` tables are parameters.
- `page.tsx` and `teamPlanner.ts` import a `championMapping` that `championMapping.ts` does not export. Their champion table is a parameter.
- The component files come from different revisions:
  - `ChampionFilterSection` takes `championFilters` and `setChampionFilters`, but `page.tsx` passes `championOverrides` and `setChampionOverridesAction`;
  - `CompSection` calls the per-set lookups with one argument.
  - The model follows each function's own signature.
- String order: `localeCompare` and the default `sort()` are modelled as lexicographic order on characters. Locale rules are not modelled, and neither is UTF-16 code-unit order for characters outside the Basic Multilingual Plane. Lengths count characters, not UTF-16 code units.
- Numbers: tiers and bonuses are integers, and floating point is not modelled. `Math.min` with an `undefined` cap gives `NaN`, which is modelled as None and deletes the trait. `Number(tier)` of a tier-map key is the tier itself.
- Objects: keys inherited from `Object.prototype` (such as `constructor`) are not modelled.
  - The order in which `for...in` visits integer-like keys is not modelled. Every result that depends on it is sorted afterwards, and `TierMapUnique` and `ResultDeterminedByActivation` prove that the order does not matter.
  - The order of a map's `forEach` is any order, since the model picks keys from sets.
- Copies: sequences and maps are values, so "the input array is not mutated" holds by construction and is not stated.
- Image file names built with `replace` are UI-only.
- Page.FilteredSolutions: its own contract says only that every shown solution is in the source list and passes the filter. That every passing solution is shown, in its original order, is stated by `FilteredIsKeptSubsequence` and `FilteredSolutionsSound`.
- DisplayNames.ParentheticalVariant: proved for a base without "(" that does not end in white space. Other names are covered only by the model of the matcher (`ShortestBase`, `MatchesWithBase`).
- DisplayNames.TrueDamageShortened: proved for every base made of ASCII letters, which includes "Akali", rather than for that one literal.
- ChampionUtils.ChampionCaches.EnsureSetCacheInitialized: the empty `{}` placeholder the source stores before filling is not kept as a separate state, since it is always filled in the same call.
