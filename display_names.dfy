/**
 * Display names of champions: a parenthetical variant such as
 * "Akali (True Damage)" is shown as "Akali TD", and any other name longer
 * than 12 characters is cut to 10 characters followed by "...".
 *
 * The pattern `^(.+?)\s*\((.+?)\)$` is modelled by what a backtracking
 * matcher finds: the shortest base (of at least one character) after which
 * the longest run of white space is followed by "(", and a variant of at
 * least one character running up to a ")" that ends the name. Neither group
 * may contain a line terminator, since `.` does not match one.
 */
module DisplayNames {
  import opened Options

  /** The characters `.` does not match. */
  predicate IsLineTerminator(c: char)
  {
    c == '\n' || c == '\r' || c == '\U{2028}' || c == '\U{2029}'
  }

  /** The characters `\s` matches. */
  predicate IsRegexSpace(c: char)
  {
    || c == '\t' || c == '\n' || c == '\U{000B}' || c == '\U{000C}' || c == '\r' || c == ' '
    || c == '\U{00A0}' || c == '\U{1680}' || ('\U{2000}' <= c <= '\U{200A}')
    || c == '\U{2028}' || c == '\U{2029}' || c == '\U{202F}' || c == '\U{205F}'
    || c == '\U{3000}' || c == '\U{FEFF}'
  }

  predicate NoLineTerminator(s: string)
  {
    forall k :: 0 <= k < |s| ==> !IsLineTerminator(s[k])
  }

  /** The length of the longest run of white space starting at `i`: what the greedy `\s*` takes first. */
  function SpaceRun(s: string, i: nat): (n: nat)
    requires i <= |s|
    ensures i + n <= |s|
    ensures forall k :: i <= k < i + n ==> IsRegexSpace(s[k])
    ensures i + n == |s| || !IsRegexSpace(s[i + n])
    decreases |s| - i
  {
    if i < |s| && IsRegexSpace(s[i]) then 1 + SpaceRun(s, i + 1) else 0
  }

  /** Where the variant group starts when the base group has length `len`. */
  function VariantStart(s: string, len: nat): nat
    requires len <= |s|
  {
    len + SpaceRun(s, len) + 1
  }

  /**
   * The pattern matches with a base of length `len`. The greedy `\s*` can
   * only give back white space, which is never "(", so the longest run is
   * the only one that can be followed by "("; and `$` forces the variant to
   * run up to the last character.
   */
  predicate MatchesWithBase(s: string, len: nat)
  {
    && 1 <= len <= |s|
    && NoLineTerminator(s[..len])
    && var open := len + SpaceRun(s, len);
    && open < |s| && s[open] == '('
    && open + 1 < |s| - 1 && s[|s| - 1] == ')'
    && NoLineTerminator(s[open + 1..|s| - 1])
  }

  /** The lazy base group: the shortest length from `len` on with which the pattern matches. */
  function ShortestBase(s: string, len: nat): (r: Option<nat>)
    ensures r.Some? ==> len <= r.value && MatchesWithBase(s, r.value)
    ensures r.Some? ==> forall l :: len <= l < r.value ==> !MatchesWithBase(s, l)
    ensures r.None? ==> forall l :: len <= l ==> !MatchesWithBase(s, l)
    decreases |s| + 1 - len
  {
    if len > |s| then None
    else if MatchesWithBase(s, len) then Some(len)
    else ShortestBase(s, len + 1)
  }

  /** `variantMap[variant] || variant`. */
  function ShortVariant(variant: string): string
  {
    if variant == "True Damage" then "TD" else variant
  }

  /** The name cut to 10 characters and "..." when longer than 12 characters. */
  function Truncated(name: string): (r: string)
    ensures |name| <= 12 ==> r == name
    ensures |name| > 12 ==> r == name[..10] + "..." && |r| == 13
  {
    if |name| > 12 then name[..10] + "..." else name
  }

  /** A name the pattern matches contains both parentheses. */
  lemma MatchHasParens(s: string, len: nat)
    requires MatchesWithBase(s, len)
    ensures '(' in s && ')' in s
  {
    assert s[len + SpaceRun(s, len)] == '(' && s[|s| - 1] == ')';
  }

  /** The match with the shortest base: a base no shorter than 1 with which the pattern matches, and none shorter. */
  ghost predicate LazyMatch(s: string, len: nat)
  {
    MatchesWithBase(s, len) && forall k: nat :: 1 <= k < len ==> !MatchesWithBase(s, k)
  }

  function GetChampionDisplayName(championName: string): (shown: string)
    ensures (forall l: nat :: !MatchesWithBase(championName, l)) ==> shown == Truncated(championName)
    ensures forall l: nat :: LazyMatch(championName, l) ==>
      shown == championName[..l] + " " + ShortVariant(championName[VariantStart(championName, l)..|championName| - 1])
  {
    if '(' in championName && ')' in championName then
      match ShortestBase(championName, 1)
      case Some(len) =>
        assert forall l: nat :: LazyMatch(championName, l) ==> l == len;
        championName[..len] + " "
          + ShortVariant(championName[VariantStart(championName, len)..|championName| - 1])
      case None => Truncated(championName)
    else
      assert forall l: nat :: !MatchesWithBase(championName, l) by {
        forall l: nat | MatchesWithBase(championName, l) {
          MatchHasParens(championName, l);
        }
      }
      Truncated(championName)
  }

  /** A name without a parenthesis pair that is at most 12 characters long is shown as it is. */
  lemma ShortPlainNameUnchanged(name: string)
    requires '(' !in name || ')' !in name
    requires |name| <= 12
    ensures GetChampionDisplayName(name) == name
  {
  }

  /** The pattern needs a final ")": without one the length rule decides. */
  lemma NoClosingParenAtEnd(name: string)
    requires name == [] || name[|name| - 1] != ')'
    ensures GetChampionDisplayName(name) == Truncated(name)
  {
    if name != [] {
      assert !MatchesWithBase(name, 1);
      assert ShortestBase(name, 1).None?;
    }
  }

  /** A long name the pattern does not match becomes 10 characters and "...", 13 in all. */
  lemma LongNameTruncated(name: string)
    requires |name| > 12
    requires name[|name| - 1] != ')'
    ensures GetChampionDisplayName(name) == name[..10] + "..."
    ensures |GetChampionDisplayName(name)| == 13
  {
    NoClosingParenAtEnd(name);
  }

  /**
   * `base (variant)` is shown as `base variant`, the variant shortened, for a
   * base that has no "(" and does not end in white space and a variant of at
   * least one character; no truncation happens, whatever the length.
   */
  lemma ParentheticalVariant(base: string, variant: string)
    requires base != [] && variant != []
    requires '(' !in base && !IsRegexSpace(base[|base| - 1])
    requires NoLineTerminator(base) && NoLineTerminator(variant)
    ensures GetChampionDisplayName(base + " (" + variant + ")") == base + " " + ShortVariant(variant)
  {
    var s := base + " (" + variant + ")";
    assert s[..|base|] == base;
    assert s[|base|] == ' ' && s[|base| + 1] == '(';
    assert SpaceRun(s, |base| + 1) == 0;
    assert SpaceRun(s, |base|) == 1;
    assert s[|base| + 2..|s| - 1] == variant;
    assert MatchesWithBase(s, |base|);
    assert forall l :: 1 <= l < |base| ==> !MatchesWithBase(s, l);
    assert ShortestBase(s, 1) == Some(|base|);
  }

  /** The conditions `ParentheticalVariant` asks of a base of letters. */
  lemma PlainBase(base: string)
    requires base != []
    requires forall k :: 0 <= k < |base| ==> 'A' <= base[k] <= 'Z' || 'a' <= base[k] <= 'z'
    ensures '(' !in base && !IsRegexSpace(base[|base| - 1]) && NoLineTerminator(base)
  {
  }

  /** "Name (True Damage)" is shown as "Name TD" for a name of letters, such as "Akali". */
  lemma TrueDamageShortened(base: string)
    requires base != []
    requires forall k :: 0 <= k < |base| ==> 'A' <= base[k] <= 'Z' || 'a' <= base[k] <= 'z'
    ensures GetChampionDisplayName(base + " (" + "True Damage" + ")") == base + " TD"
  {
    PlainBase(base);
    ParentheticalVariant(base, "True Damage");
  }
}
