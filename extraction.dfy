/** `_extract_preferences` of the chat bot: six independent extractions over one message,
    matched case-insensitively. The message is lower-cased once and every pattern is written
    in lower case, which is what `re.IGNORECASE` does for ASCII text. */
module Extraction {
  import opened Wrappers
  import opened Text
  import opened Models
  import opened Patterns

  /** The preferences a conversation accumulates: a key the dictionary lacks is `None`. */
  datatype Prefs = Prefs(
    budget: Option<real>,
    usageType: Option<UsageType>,
    brandPreference: Option<string>,
    minRam: Option<nat>,
    minStorage: Option<nat>,
    preferGpu: Option<bool>)

  const NoPrefs := Prefs(None, None, None, None, None, None)

  // ------------------------------------------------------------ budget

  /** The five budget patterns, each written as the part before its amount group
      `(\d{3,5}(?:,\d{3})*)`. The first pattern's optional trailing unit
      `(?:\s*(?:dollars|USD|bucks))?` cannot make a match fail and does not touch the group,
      so it is left out. None of these prefixes can hold a digit. */
  const BudgetPatterns: seq<seq<Seg>> := [
    [OptLit(["$"])],
    [Lit(["budget"]), Spaces, OptLit(["is", "of"]), Spaces, OptLit(["$"])],
    [Lit(["spend"]), Spaces, OptLit(["up to"]), Spaces, OptLit(["$"])],
    [Lit(["under", "below", "less than"]), Spaces, OptLit(["$"])],
    [OptLit(["max", "maximum"]), Spaces, OptLit(["budget", "price"]), Spaces, OptLit(["of"]), Spaces, OptLit(["$"])]
  ]

  /** `,\d{3}` starts at `e`. */
  predicate CommaGroupAt(s: string, e: int) {
    0 <= e && e + 4 <= |s| && s[e] == ',' && ThreeDigitsAt(s, e + 1)
  }

  /** `(?:,\d{3})*`, greedily, from `e`. */
  function CommaGroups(s: string, e: nat): (f: nat)
    requires e <= |s|
    ensures e <= f <= |s|
    ensures forall k :: e <= k < f ==> IsDigit(s[k]) || s[k] == ','
    decreases |s| - e
  {
    if CommaGroupAt(s, e) then CommaGroups(s, e + 4) else e
  }

  /** The end of the `\d{3,5}` part of the amount group starting at `j`: the whole run of
      digits when it is at most five long, and otherwise its first five digits. */
  function LeadEnd(s: string, j: nat): (h: nat)
    requires ThreeDigitsAt(s, j)
    ensures j + 3 <= h <= j + 5 && h <= |s|
    ensures forall k :: j <= k < h ==> IsDigit(s[k])
    ensures h < j + 5 ==> h == |s| || !IsDigit(s[h])
  {
    var run := RunEnd(s, j);
    if run - j <= 5 then run else j + 5
  }

  /** The end of the amount group starting at `j`: three to five digits, as many as there
      are, then comma groups. */
  function AmountEnd(s: string, j: nat): (f: nat)
    requires ThreeDigitsAt(s, j)
    ensures j + 3 <= f <= |s|
    ensures forall k :: j <= k < f ==> IsDigit(s[k]) || s[k] == ','
  {
    CommaGroups(s, LeadEnd(s, j))
  }

  /** `float(match.group(1).replace(',', ''))` for the amount group starting at `j`: without
      a comma group the value of the (at most five) leading digits; with exactly one, those
      digits as thousands plus the group. */
  function AmountValue(s: string, j: nat): (v: real)
    requires ThreeDigitsAt(s, j)
    ensures v >= 0.0
    ensures AllDigits(RemoveCommas(s[j..AmountEnd(s, j)]))
    ensures v == DecimalValue(RemoveCommas(s[j..AmountEnd(s, j)])) as real
    ensures !CommaGroupAt(s, LeadEnd(s, j)) ==> v == DecimalValue(s[j..LeadEnd(s, j)]) as real
    ensures CommaGroupAt(s, LeadEnd(s, j)) && !CommaGroupAt(s, LeadEnd(s, j) + 4) ==>
              v == (DecimalValue(s[j..LeadEnd(s, j)]) * 1000
                    + DecimalValue(s[LeadEnd(s, j) + 1..LeadEnd(s, j) + 4])) as real
  {
    AmountDigits(s, j);
    var group := s[j..AmountEnd(s, j)];
    var digits := RemoveCommas(group);
    DecimalValue(digits) as real
  }

  /** Each `,ddd` group of an amount multiplies the value read so far by 1000 and adds the
      group: with the leading digits (`AmountValue`'s first case) this gives the value of an
      amount with any number of groups. */
  lemma AmountGroupStep(s: string, j: nat, e: nat)
    requires j <= e && CommaGroupAt(s, e)
    requires forall k :: j <= k < e ==> IsDigit(s[k]) || s[k] == ','
    ensures AllDigits(RemoveCommas(s[j..e])) && AllDigits(s[e + 1..e + 4])
    ensures AllDigits(RemoveCommas(s[j..e + 4]))
    ensures DecimalValue(RemoveCommas(s[j..e + 4]))
            == DecimalValue(RemoveCommas(s[j..e])) * 1000 + DecimalValue(s[e + 1..e + 4])
  {
    var front, group := s[j..e], s[e + 1..e + 4];
    assert s[j..e + 4] == front + ([','] + group);
    CommaGroupValue(front, group);
  }

  /** The digits of the amount group, in the two cases `AmountValue` states. */
  lemma AmountDigits(s: string, j: nat)
    requires ThreeDigitsAt(s, j)
    ensures var h := LeadEnd(s, j);
            !CommaGroupAt(s, h) ==> RemoveCommas(s[j..AmountEnd(s, j)]) == s[j..h]
    ensures var h := LeadEnd(s, j);
            CommaGroupAt(s, h) && !CommaGroupAt(s, h + 4) ==>
              && AllDigits(s[j..h]) && AllDigits(s[h + 1..h + 4])
              && DecimalValue(RemoveCommas(s[j..AmountEnd(s, j)]))
                 == DecimalValue(s[j..h]) * 1000 + DecimalValue(s[h + 1..h + 4])
  {
    var h := LeadEnd(s, j);
    var lead := s[j..h];
    assert AllDigits(lead);
    if CommaGroupAt(s, h) && !CommaGroupAt(s, h + 4) {
      var group := s[h + 1..h + 4];
      assert AllDigits(group);
      assert CommaGroups(s, h + 4) == h + 4;
      assert AmountEnd(s, j) == h + 4;
      assert s[j..h + 4] == lead + ([','] + group);
      RemoveCommasConcat(lead, [','] + group);
      assert ([','] + group)[1..] == group;
      assert RemoveCommas([','] + group) == group;
      DecimalValueAppend(lead, group);
      assert Pow10(3) == 1000;
    }
  }

  /** `re.search` with one budget pattern, from position `i` on: the start of the amount group
      of the leftmost match. As the prefix holds no digit, the group can only start at the
      first digit at or after the match's start. */
  function SearchBudget(prefix: seq<Seg>, s: string, i: nat): (r: Option<nat>)
    requires i <= |s|
    ensures r.Some? ==> i <= r.value && ThreeDigitsAt(s, r.value)
    decreases |s| - i
  {
    var j := NextDigit(s, i);
    if ThreeDigitsAt(s, j) && MatchSpan(prefix, s, i, j) then Some(j)
    else if i == |s| then None
    else SearchBudget(prefix, s, i + 1)
  }

  /** The first position at or after `i` where three digits follow. */
  function FirstThreeDigits(s: string, i: nat): (r: Option<nat>)
    requires i <= |s|
    ensures r.Some? ==> i <= r.value && ThreeDigitsAt(s, r.value)
    ensures r.Some? ==> forall p :: i <= p < r.value ==> !ThreeDigitsAt(s, p)
    ensures r.None? ==> forall p :: i <= p ==> !ThreeDigitsAt(s, p)
    decreases |s| - i
  {
    if ThreeDigitsAt(s, i) then Some(i)
    else if i == |s| then None
    else FirstThreeDigits(s, i + 1)
  }

  /** `\$?` spans either nothing or a single dollar sign. */
  lemma OptionalDollarSpan(s: string, i: nat, j: nat)
    requires i <= j <= |s| && MatchSpan([OptLit(["$"])], s, i, j)
    ensures j == i || (j == i + 1 && s[i] == '$')
  {
    var alts := ["$"];
    assert [OptLit(alts)][1..] == [];
    if j != i {
      assert exists k :: 0 <= k < |alts| && i + |alts[k]| <= j && StartsAt(s, i, alts[k])
                         && MatchSpan([], s, i + |alts[k]|, j);
    }
  }

  /** The first budget pattern, `\$?(\d{3,5}...)`, matches first at the first three-digit run
      of the message, wherever it is and whatever follows it. */
  lemma {:induction false} FirstBudgetPatternFindsFirstRun(s: string, i: nat)
    requires i <= |s|
    ensures SearchBudget(BudgetPatterns[0], s, i) == FirstThreeDigits(s, i)
    decreases |s| - i
  {
    var prefix := [OptLit(["$"])];
    assert BudgetPatterns[0] == prefix;
    var j := NextDigit(s, i);
    if j == i {
      assert MatchSpan(prefix, s, i, i) by {
        assert prefix[1..] == [];
      }
      if !ThreeDigitsAt(s, i) && i < |s| {
        FirstBudgetPatternFindsFirstRun(s, i + 1);
      }
    } else if ThreeDigitsAt(s, j) && MatchSpan(prefix, s, i, j) {
      OptionalDollarSpan(s, i, j);
      assert FirstThreeDigits(s, i + 1) == Some(i + 1);
    } else {
      FirstBudgetPatternFindsFirstRun(s, i + 1);
    }
  }

  /** The patterns of the budget list from index `k` on, tried in order: the amount of the
      first that finds a match. */
  function BudgetFrom(s: string, k: nat): (r: Option<real>)
    requires k <= |BudgetPatterns|
    ensures r.Some? ==> r.value >= 0.0
    decreases |BudgetPatterns| - k
  {
    if k == |BudgetPatterns| then None
    else match SearchBudget(BudgetPatterns[k], s, 0)
      case Some(j) => Some(AmountValue(s, j))
      case None => BudgetFrom(s, k + 1)
  }

  /** Every budget pattern needs three digits in a row; so when the first pattern finds
      nothing no other pattern does, and the first pattern decides the budget: the amount
      that starts at the first three-digit run of the message, or none when there is none. */
  lemma FirstBudgetPatternDecides(s: string)
    ensures FirstThreeDigits(s, 0).None? ==> BudgetFrom(s, 0).None?
    ensures FirstThreeDigits(s, 0).Some? ==> BudgetFrom(s, 0) == Some(AmountValue(s, FirstThreeDigits(s, 0).value))
  {
    FirstBudgetPatternFindsFirstRun(s, 0);
    if FirstThreeDigits(s, 0).None? {
      assert BudgetFrom(s, 1).None? by {
        assert BudgetFrom(s, 5).None?;
        assert BudgetFrom(s, 4).None?;
        assert BudgetFrom(s, 3).None?;
        assert BudgetFrom(s, 2).None?;
      }
    }
  }

  lemma ValueOf512()
    ensures DecimalValue("512") == 512
  {
    assert "512"[..2] == "51" && "51"[..1] == "5" && "5"[..0] == [];
  }

  lemma ValueOf500()
    ensures DecimalValue("500") == 500
  {
    assert "500"[..2] == "50" && "50"[..1] == "5" && "5"[..0] == [];
  }

  /** The amount group of a message that starts with "512gb" is 512. */
  lemma AmountOf512(s: string)
    requires |s| >= 5 && s[..5] == "512gb"
    ensures ThreeDigitsAt(s, 0) && AmountValue(s, 0) == 512.0
  {
    assert s[0] == '5' && s[1] == '1' && s[2] == '2' && s[3] == 'g';
    assert RunEnd(s, 3) == 3;
    assert LeadEnd(s, 0) == 3 && !CommaGroupAt(s, 3);
    assert s[0..3] == "512";
    ValueOf512();
  }

  /** A storage size is taken for the budget: "512GB SSD" sets the budget to 512. */
  lemma StorageSizeBecomesBudget(s: string)
    requires |s| >= 5 && s[..5] == "512gb"
    ensures BudgetFrom(s, 0) == Some(512.0)
  {
    AmountOf512(s);
    FirstBudgetPatternDecides(s);
  }

  /** The first three digits of "$1,500" start at its "5". */
  lemma FirstRunOf1500(s: string)
    requires |s| >= 6 && s[..6] == "$1,500"
    ensures FirstThreeDigits(s, 0) == Some(3)
  {
    assert s[0] == '$' && s[1] == '1' && s[2] == ',' && s[3] == '5' && s[4] == '0' && s[5] == '0';
    assert !ThreeDigitsAt(s, 0) && !ThreeDigitsAt(s, 1) && !ThreeDigitsAt(s, 2) && ThreeDigitsAt(s, 3);
  }

  /** The amount group of "$1,500" is its last three digits. */
  lemma AmountOf1500(s: string)
    requires |s| >= 6 && s[..6] == "$1,500"
    requires |s| == 6 || IsSpace(s[6])
    ensures ThreeDigitsAt(s, 3) && AmountValue(s, 3) == 500.0
  {
    assert s[3] == '5' && s[4] == '0' && s[5] == '0';
    assert RunEnd(s, 6) == 6;
    assert LeadEnd(s, 3) == 6 && !CommaGroupAt(s, 6);
    assert s[3..6] == "500";
    ValueOf500();
  }

  /** A thousands separator splits the number: "$1,500" sets the budget to 500, since the
      amount group needs three digits before any comma. */
  lemma ThousandsSeparatorDropsThousands(s: string)
    requires |s| >= 6 && s[..6] == "$1,500"
    requires |s| == 6 || IsSpace(s[6])
    ensures BudgetFrom(s, 0) == Some(500.0)
  {
    FirstRunOf1500(s);
    AmountOf1500(s);
    FirstBudgetPatternDecides(s);
  }

  // ------------------------------------------------------------ usage type

  /** The usage patterns in declaration order, each an alternation of lower-case keywords that
      may occur anywhere in the message ("IDE" is the keyword "ide"). General has none. */
  const UsagePatterns: seq<(UsageType, seq<seq<string>>)> := [
    (Gaming, [["gaming", "games", "gamer", "play games"],
              ["fps", "shooter", "mmo", "rpg", "strategy", "simulation"]]),
    (Business, [["business", "work", "office", "professional", "corporate"],
                ["presentations", "spreadsheets", "documents", "meetings"]]),
    (Student, [["student", "school", "college", "university", "campus", "education"],
               ["study", "studying", "coursework", "assignments", "homework"]]),
    (Creative, [["creative", "design", "art", "artist", "creator"],
                ["photo", "video", "editing", "photoshop", "illustrator", "premiere", "after effects"]]),
    (Programming, [["programming", "coding", "development", "developer", "software"],
                   ["code", "compile", "development", "ide", "programming"]])
  ]

  /** An unanchored alternation of literal keywords finds a match: some keyword occurs. */
  predicate AnyKeyword(alts: seq<string>, s: string) {
    exists k :: 0 <= k < |alts| && Contains(s, alts[k])
  }

  /** Some pattern of the category matches. */
  predicate CategoryMatches(patterns: seq<seq<string>>, s: string) {
    exists p :: 0 <= p < |patterns| && AnyKeyword(patterns[p], s)
  }

  /** The first category from index `c` on, in declaration order, with a matching pattern. */
  function UsageFrom(s: string, c: nat): (r: Option<UsageType>)
    requires c <= |UsagePatterns|
    ensures r.Some? ==> exists d :: c <= d < |UsagePatterns| && UsagePatterns[d].0 == r.value
                                    && CategoryMatches(UsagePatterns[d].1, s)
                                    && forall e :: c <= e < d ==> !CategoryMatches(UsagePatterns[e].1, s)
    ensures r.None? <==> forall d :: c <= d < |UsagePatterns| ==> !CategoryMatches(UsagePatterns[d].1, s)
    decreases |UsagePatterns| - c
  {
    if c == |UsagePatterns| then None
    else if CategoryMatches(UsagePatterns[c].1, s) then Some(UsagePatterns[c].0)
    else UsageFrom(s, c + 1)
  }

  /** The keywords are not anchored to word boundaries: a keyword inside a longer word still
      decides the usage type, unless a category declared earlier also has a keyword in the
      message. */
  lemma KeywordInsideWord(s: string, d: nat, p: nat, k: nat, i: nat)
    requires d < |UsagePatterns| && p < |UsagePatterns[d].1| && k < |UsagePatterns[d].1[p]|
    requires StartsAt(s, i, UsagePatterns[d].1[p][k])
    ensures UsageFrom(s, 0).Some?
    ensures exists e :: 0 <= e <= d && UsagePatterns[e].0 == UsageFrom(s, 0).value
  {
    assert Contains(s, UsagePatterns[d].1[p][k]);
    assert AnyKeyword(UsagePatterns[d].1[p], s);
    assert CategoryMatches(UsagePatterns[d].1, s);
  }

  /** "start" holds the creative keyword "art": a message with "start" anywhere in it gets
      a usage type, creative or one declared before it. */
  lemma StartMeansCreative(s: string, i: nat)
    requires StartsAt(s, i, "start")
    ensures UsageFrom(s, 0).Some?
    ensures UsageFrom(s, 0).value in {Gaming, Business, Student, Creative}
  {
    assert s[i + 2..i + 5] == s[i..i + 5][2..5];
    KeywordInsideWord(s, 3, 0, 2, i + 2);
  }

  // ------------------------------------------------------------ brand

  const CommonBrands: seq<string> := ["dell", "hp", "lenovo", "asus", "acer", "apple", "microsoft", "msi", "razer"]

  /** Index just past the run of word characters that starts at `i`. */
  function WordEnd(s: string, i: nat): (e: nat)
    requires i <= |s|
    ensures i <= e <= |s|
    ensures forall k :: i <= k < e ==> IsWordChar(s[k])
    ensures e < |s| ==> !IsWordChar(s[e])
    decreases |s| - i
  {
    if i < |s| && IsWordChar(s[i]) then WordEnd(s, i + 1) else i
  }

  /** The capture group `(\w+)` of `(?:prefer|want|like)\s+(?:a\s+)?(\w+)(?:\s+laptop)?` for a
      match starting at `i`, if one starts there. The keyword is not anchored to a word start.
      After the keyword, `\s+` takes every space; `a\s+` is taken when a word follows it, and
      otherwise the group starts at the `a` itself; the group is the whole run of word
      characters. */
  function BrandAt(s: string, i: nat): (r: Option<string>)
    requires i <= |s|
    ensures r.Some? ==> r.value != [] && forall k :: 0 <= k < |r.value| ==> IsWordChar(r.value[k])
  {
    var kwEnd := if StartsAt(s, i, "prefer") then i + 6
                 else if StartsAt(s, i, "want") || StartsAt(s, i, "like") then i + 4
                 else i;
    var n := SkipSpaces(s, kwEnd);
    if kwEnd == i || n == kwEnd then None
    else if n + 1 < |s| && s[n] == 'a' && IsSpace(s[n + 1])
            && SkipSpaces(s, n + 1) < |s| && IsWordChar(s[SkipSpaces(s, n + 1)]) then
      var m := SkipSpaces(s, n + 1);
      Some(s[m..WordEnd(s, m)])
    else if n < |s| && IsWordChar(s[n]) then Some(s[n..WordEnd(s, n)])
    else None
  }

  /** The brand pattern's leftmost match at or after `i` starts at `p`. */
  predicate LeftmostBrand(s: string, i: int, p: int) {
    0 <= i <= p <= |s| && BrandAt(s, p).Some? && forall q :: i <= q < p ==> BrandAt(s, q).None?
  }

  /** `re.search` with the brand pattern from `i` on: the group of the leftmost match. */
  function SearchBrand(s: string, i: nat): Option<string>
    requires i <= |s|
    decreases |s| - i
  {
    if BrandAt(s, i).Some? then BrandAt(s, i)
    else if i == |s| then None
    else SearchBrand(s, i + 1)
  }

  /** The brand search finds nothing iff the pattern matches nowhere from `i` on, and
      otherwise the group of the leftmost match. */
  lemma {:induction false} SearchBrandLeftmost(s: string, i: nat)
    requires i <= |s|
    ensures SearchBrand(s, i).None? <==> forall p :: i <= p <= |s| ==> BrandAt(s, p).None?
    ensures forall p :: LeftmostBrand(s, i, p) ==> SearchBrand(s, i) == BrandAt(s, p)
    decreases |s| - i
  {
    if BrandAt(s, i).None? && i < |s| {
      SearchBrandLeftmost(s, i + 1);
      forall p | LeftmostBrand(s, i, p) ensures LeftmostBrand(s, i + 1, p) {
        assert p != i;
      }
    }
  }

  /** The brand is kept only when the word of the leftmost match is one of the nine brands. */
  function BrandOf(s: string): (r: Option<string>)
    ensures r.Some? ==> r.value in CommonBrands
    ensures r.Some? ==> SearchBrand(s, 0) == r
    ensures (forall p :: 0 <= p <= |s| ==> BrandAt(s, p).None?) ==> r.None?
    ensures forall p :: LeftmostBrand(s, 0, p) ==>
              r == (if BrandAt(s, p).value in CommonBrands then BrandAt(s, p) else None)
  {
    SearchBrandLeftmost(s, 0);
    var w := SearchBrand(s, 0);
    if w.Some? && w.value in CommonBrands then w else None
  }

  // ------------------------------------------------------------ RAM and storage

  /** What follows the digits of the RAM pattern `(\d+)\s*(?:GB|gigs?)?\s*(?:of)?\s*(?:RAM|memory)`. */
  const RamSuffix: seq<Seg> := [Spaces, OptLit(["gb", "gigs", "gig"]), Spaces, OptLit(["of"]), Spaces, Lit(["ram", "memory"])]

  /** What follows the unit of the storage pattern. */
  const StorageTail: seq<Seg> := [Spaces, OptLit(["of"]), Spaces, Lit(["storage", "ssd", "hard drive", "hdd"])]

  /** What follows the digits of the storage pattern
      `(\d+)\s*(?:GB|TB|gigs?)?\s*(?:of)?\s*(?:storage|SSD|hard drive|HDD)`. */
  const StorageSuffix: seq<Seg> := [Spaces, OptLit(["gb", "tb", "gigs", "gig"])] + StorageTail

  /** A `(\d+)` pattern whose suffix holds no digit matches at `p`: a digit is there, and the
      suffix matches after the run of digits it starts (the suffix cannot start at a digit,
      so `\d+` never gives digits back). */
  predicate NumberAt(suffix: seq<Seg>, s: string, p: int) {
    0 <= p < |s| && IsDigit(s[p]) && MatchesAt(suffix, s, RunEnd(s, p))
  }

  /** `p` is the start of the leftmost match at or after `i`. */
  predicate LeftmostNumber(suffix: seq<Seg>, s: string, i: int, p: int) {
    NumberAt(suffix, s, p) && i <= p && forall q :: i <= q < p ==> !NumberAt(suffix, s, q)
  }

  /** `re.search` with a `(\d+)` pattern from `i` on: the digits of the leftmost match. A match
      starting inside a run of digits has the same continuation as one at the run's start, so
      the leftmost match starts a run (or starts at `i`) and its group is the rest of the run. */
  function SearchNumber(suffix: seq<Seg>, s: string, i: nat): (r: Option<(nat, nat)>)
    requires i <= |s|
    ensures r.Some? ==> i <= r.value.0 < r.value.1 <= |s| && r.value.1 == RunEnd(s, r.value.0)
    decreases |s| - i
  {
    if i == |s| then None
    else if IsDigit(s[i]) && MatchesAt(suffix, s, RunEnd(s, i)) then Some((i, RunEnd(s, i)))
    else SearchNumber(suffix, s, i + 1)
  }

  /** The number search finds nothing iff the pattern matches nowhere from `i` on. */
  lemma {:induction false} SearchNumberNone(suffix: seq<Seg>, s: string, i: nat)
    requires i <= |s|
    ensures SearchNumber(suffix, s, i).None? <==> forall p :: i <= p ==> !NumberAt(suffix, s, p)
    decreases |s| - i
  {
    if i < |s| && !NumberAt(suffix, s, i) {
      SearchNumberNone(suffix, s, i + 1);
      assert SearchNumber(suffix, s, i) == SearchNumber(suffix, s, i + 1);
    }
  }

  /** What the number search finds is the leftmost match from `i` on. */
  lemma {:induction false} SearchNumberLeftmost(suffix: seq<Seg>, s: string, i: nat)
    requires i <= |s|
    ensures SearchNumber(suffix, s, i).Some? ==> LeftmostNumber(suffix, s, i, SearchNumber(suffix, s, i).value.0)
    decreases |s| - i
  {
    if i < |s| && !NumberAt(suffix, s, i) {
      SearchNumberLeftmost(suffix, s, i + 1);
      assert SearchNumber(suffix, s, i) == SearchNumber(suffix, s, i + 1);
    }
  }

  /** A match found after `i` starts a run of digits: a digit just before it would start an
      earlier match with the same continuation. */
  lemma SearchNumberStartsRun(suffix: seq<Seg>, s: string, i: nat)
    requires i <= |s|
    ensures SearchNumber(suffix, s, i).Some? && SearchNumber(suffix, s, i).value.0 > i ==>
              !IsDigit(s[SearchNumber(suffix, s, i).value.0 - 1])
  {
    var r := SearchNumber(suffix, s, i);
    if r.Some? && r.value.0 > i {
      var v := r.value.0;
      SearchNumberLeftmost(suffix, s, i);
      assert IsDigit(s[v - 1]) ==> RunEnd(s, v - 1) == RunEnd(s, v);
      assert IsDigit(s[v - 1]) ==> NumberAt(suffix, s, v - 1);
    }
  }

  /** No other position is the leftmost match. */
  lemma LeftmostIsOnly(suffix: seq<Seg>, s: string, p0: int)
    requires LeftmostNumber(suffix, s, 0, p0)
    ensures forall p :: LeftmostNumber(suffix, s, 0, p) ==> p == p0
  {
  }

  /** `int(ram_match.group(1))`: the value of the digits of the leftmost RAM match, and none
      when the RAM pattern matches nowhere. */
  function RamOf(s: string): (r: Option<nat>)
    ensures r.None? <==> forall p :: 0 <= p ==> !NumberAt(RamSuffix, s, p)
    ensures forall p :: LeftmostNumber(RamSuffix, s, 0, p) ==> r == Some(DecimalValue(s[p..RunEnd(s, p)]))
  {
    SearchNumberNone(RamSuffix, s, 0);
    SearchNumberLeftmost(RamSuffix, s, 0);
    match SearchNumber(RamSuffix, s, 0)
    case None => None
    case Some((i, e)) =>
      LeftmostIsOnly(RamSuffix, s, i);
      Some(DecimalValue(s[i..e]))
  }

  /** The storage match's text holds "TB" exactly when the unit `TB` was taken: the unit is
      tried first, and without it the rest of the pattern cannot start at a `t`. */
  predicate TerabyteUnit(s: string, e: nat)
    requires e <= |s|
  {
    var k := SkipSpaces(s, e);
    StartsAt(s, k, "tb") && MatchesAt(StorageTail, s, k + 2)
  }

  /** A storage amount in GB: `n` terabytes are `n * 1000` GB. */
  function InGb(n: nat, terabytes: bool): nat {
    if terabytes then n * 1000 else n
  }

  /** `int(group(1))` of the storage match, times 1000 when the matched text holds "TB". */
  function StorageOf(s: string): Option<nat> {
    match SearchNumber(StorageSuffix, s, 0)
    case None => None
    case Some((i, e)) => Some(InGb(DecimalValue(s[i..e]), TerabyteUnit(s, e)))
  }

  /** No storage iff the storage pattern matches nowhere; otherwise the number of its
      leftmost match, times 1000 when its unit is TB. */
  lemma StorageOfLeftmost(s: string)
    ensures StorageOf(s).None? <==> forall p :: 0 <= p ==> !NumberAt(StorageSuffix, s, p)
    ensures forall p :: LeftmostNumber(StorageSuffix, s, 0, p) ==>
              StorageOf(s) == Some(InGb(DecimalValue(s[p..RunEnd(s, p)]), TerabyteUnit(s, RunEnd(s, p))))
  {
    SearchNumberNone(StorageSuffix, s, 0);
    SearchNumberLeftmost(StorageSuffix, s, 0);
    var m := SearchNumber(StorageSuffix, s, 0);
    if m.Some? {
      LeftmostIsOnly(StorageSuffix, s, m.value.0);
    }
  }

  // ------------------------------------------------------------ GPU

  const GpuAdjectives: seq<string> := ["dedicated", "good", "gaming"]
  const GpuNouns: seq<string> := ["gpu", "graphics"]

  /** `(?:dedicated|good|gaming)\s+(?:GPU|graphics)`. */
  const GpuPattern: seq<Seg> := [Lit(GpuAdjectives), Spaces1, Lit(GpuNouns)]

  /** "dedicated", "good" or "gaming", white space, then "gpu" or "graphics", anywhere in `s`:
      the pattern has no word boundaries, so "undedicated gpus" qualifies too. */
  predicate HasGpuPhrase(s: string) {
    exists i :: 0 <= i <= |s| && PairAt(s, GpuAdjectives, GpuNouns, i)
  }

  // ------------------------------------------------------------ all six

  /** What `_extract_preferences` returns for a message, each extraction on its own. */
  function Extract(message: string): Prefs {
    var s := Lower(message);
    Prefs(BudgetFrom(s, 0), UsageFrom(s, 0), BrandOf(s), RamOf(s), StorageOf(s),
          if Found(GpuPattern, s) then Some(true) else None)
  }

  /** The GPU flag is set, to true, exactly when the lower-cased message holds a GPU phrase;
      otherwise the key is absent. */
  lemma GpuFlag(message: string)
    ensures Extract(message).preferGpu == Some(true) <==> HasGpuPhrase(Lower(message))
    ensures Extract(message).preferGpu == None <==> !HasGpuPhrase(Lower(message))
  {
    PairFoundIff(GpuAdjectives, GpuNouns, Lower(message));
  }

  /** Extraction never yields the general usage type, never sets `prefer_gpu` to false, and
      yields a brand only from the nine known brands. */
  lemma ExtractionLimits(message: string)
    ensures Extract(message).usageType != Some(General)
    ensures Extract(message).preferGpu != Some(false)
    ensures Extract(message).brandPreference.Some? ==> Extract(message).brandPreference.value in CommonBrands
    ensures Extract(message).budget.Some? ==> Extract(message).budget.value >= 0.0
  {
    var u := UsageFrom(Lower(message), 0);
    if u.Some? {
      var d :| 0 <= d < |UsagePatterns| && UsagePatterns[d].0 == u.value && CategoryMatches(UsagePatterns[d].1, Lower(message));
      assert d < 5;
    }
  }

  /** The budget loop of `_extract_preferences`: the patterns in order until one matches. */
  method ExtractBudget(s: string) returns (budget: Option<real>)
    ensures budget == BudgetFrom(s, 0)
  {
    budget := None;
    for k := 0 to |BudgetPatterns|
      invariant budget.None?
      invariant BudgetFrom(s, 0) == BudgetFrom(s, k)
    {
      var m := SearchBudget(BudgetPatterns[k], s, 0);
      if m.Some? {
        budget := Some(AmountValue(s, m.value));
        break;
      }
    }
  }

  /** `re.search` with an alternation of keywords: the keywords tried in order. */
  method SearchKeywords(alts: seq<string>, s: string) returns (hit: bool)
    ensures hit <==> AnyKeyword(alts, s)
  {
    hit := false;
    for a := 0 to |alts|
      invariant !hit
      invariant forall b :: 0 <= b < a ==> !Contains(s, alts[b])
    {
      if Contains(s, alts[a]) {
        hit := true;
        break;
      }
    }
  }

  /** The usage loop of `_extract_preferences`: the categories in order, each category's
      patterns in order, stopping at the first pattern that matches. */
  method ExtractUsage(s: string) returns (usage: Option<UsageType>)
    ensures usage == UsageFrom(s, 0)
  {
    usage := None;
    for c := 0 to |UsagePatterns|
      invariant usage.None?
      invariant UsageFrom(s, 0) == UsageFrom(s, c)
    {
      var (category, patterns) := UsagePatterns[c];
      for p := 0 to |patterns|
        invariant usage.None?
        invariant forall q :: 0 <= q < p ==> !AnyKeyword(patterns[q], s)
      {
        var hit := SearchKeywords(patterns[p], s);
        if hit {
          usage := Some(category);
          break;
        }
      }
      if usage.Some? {
        break;
      }
    }
  }

  /** The brand step: the word of the leftmost brand match, kept when it is a known brand. */
  method ExtractBrand(s: string) returns (brandPreference: Option<string>)
    ensures brandPreference == BrandOf(s)
  {
    brandPreference := None;
    var brandMatch := SearchBrand(s, 0);
    if brandMatch.Some? {
      var brand := brandMatch.value;
      if brand in CommonBrands {
        brandPreference := Some(brand);
      }
    }
  }

  /** The RAM step: the digits of the leftmost RAM match. */
  method ExtractRam(s: string) returns (minRam: Option<nat>)
    ensures minRam == RamOf(s)
  {
    minRam := None;
    var ramMatch := SearchNumber(RamSuffix, s, 0);
    if ramMatch.Some? {
      minRam := Some(DecimalValue(s[ramMatch.value.0..ramMatch.value.1]));
    }
  }

  /** The storage step: the digits of the leftmost storage match, times 1000 for terabytes. */
  method ExtractStorage(s: string) returns (minStorage: Option<nat>)
    ensures minStorage == StorageOf(s)
  {
    minStorage := None;
    var storageMatch := SearchNumber(StorageSuffix, s, 0);
    if storageMatch.Some? {
      var storageValue := DecimalValue(s[storageMatch.value.0..storageMatch.value.1]);
      if TerabyteUnit(s, storageMatch.value.1) {
        storageValue := storageValue * 1000;
      }
      minStorage := Some(storageValue);
    }
  }

  /** `_extract_preferences`: the budget, the usage type, then the brand, RAM, storage and
      GPU patterns once each; a key is set only when its pattern matches. */
  method ExtractPreferences(message: string) returns (preferences: Prefs)
    ensures preferences == Extract(message)
  {
    var s := Lower(message);
    preferences := NoPrefs;
    var budget := ExtractBudget(s);
    if budget.Some? {
      preferences := preferences.(budget := budget);
    }
    var usage := ExtractUsage(s);
    if usage.Some? {
      preferences := preferences.(usageType := usage);
    }
    var brand := ExtractBrand(s);
    if brand.Some? {
      preferences := preferences.(brandPreference := brand);
    }
    var ram := ExtractRam(s);
    if ram.Some? {
      preferences := preferences.(minRam := ram);
    }
    var storage := ExtractStorage(s);
    if storage.Some? {
      preferences := preferences.(minStorage := storage);
    }
    if Found(GpuPattern, s) {
      preferences := preferences.(preferGpu := Some(true));
    }
  }
}
