/** The block library (backend/lego_blocks.py, `LegoBlockManager`): the list of
    imported blocks, and the searching, ranking, grouping and statistics over it. */
module LegoManager {
  import opened Text
  import opened Collections
  import opened LegoInference
  import opened LegoParser

  // ------------------------------------------------------------------ search

  /** The optional search criteria; "" and [] stand for a criterion not given
      (Python's `if category:` treats None and empty alike). */
  datatype SearchFilters = SearchFilters(
    skills: seq<string>,
    roleType: string,
    category: string,
    keywords: seq<string>,
    strengthLevel: string)

  /** Case-insensitive substring match on the category. */
  predicate CategoryOk(b: LegoBlock, f: SearchFilters) {
    f.category == [] || Contains(Lower(b.category), Lower(f.category))
  }

  /** Exact membership of the role type. */
  predicate RoleOk(b: LegoBlock, f: SearchFilters) {
    f.roleType == [] || f.roleType in b.roleTypes
  }

  /** Some requested skill equals, ignoring case, one of the block's skills. */
  predicate SkillsOk(b: LegoBlock, f: SearchFilters) {
    f.skills == [] ||
    exists i, j | 0 <= i < |f.skills| && 0 <= j < |b.skills| :: Lower(f.skills[i]) == Lower(b.skills[j])
  }

  /** Some keyword occurs, ignoring case, in the content or in the block's
      keywords joined by spaces (so a match may straddle two keywords). */
  predicate KeywordsOk(b: LegoBlock, f: SearchFilters) {
    f.keywords == [] ||
    exists i | 0 <= i < |f.keywords| ::
      Contains(Lower(b.content), Lower(f.keywords[i])) || Contains(Lower(Join(b.keywords, " ")), Lower(f.keywords[i]))
  }

  /** The block's tier is at least the requested one; a name outside the three
      tiers counts as "good" on either side. */
  predicate StrengthOk(b: LegoBlock, f: SearchFilters) {
    f.strengthLevel == [] || LevelOrder(b.strengthLevel) >= LevelOrder(f.strengthLevel)
  }

  /** The filter stages in the order they are applied. */
  predicate StageOk(b: LegoBlock, f: SearchFilters, k: nat) {
    if k == 0 then CategoryOk(b, f)
    else if k == 1 then RoleOk(b, f)
    else if k == 2 then SkillsOk(b, f)
    else if k == 3 then KeywordsOk(b, f)
    else StrengthOk(b, f)
  }

  /** Whether stage `k` is switched on by a criterion that was given. */
  predicate StageActive(f: SearchFilters, k: nat) {
    if k == 0 then f.category != []
    else if k == 1 then f.roleType != []
    else if k == 2 then f.skills != []
    else if k == 3 then f.keywords != []
    else f.strengthLevel != []
  }

  /** A block passes the search when it passes every criterion. */
  predicate Matches(b: LegoBlock, f: SearchFilters) {
    CategoryOk(b, f) && RoleOk(b, f) && SkillsOk(b, f) && KeywordsOk(b, f) && StrengthOk(b, f)
  }

  /** Passing the first `k` stages. */
  predicate PassesUpTo(b: LegoBlock, f: SearchFilters, k: nat) {
    if k == 0 then true else PassesUpTo(b, f, k - 1) && StageOk(b, f, k - 1)
  }

  function Stage(f: SearchFilters, k: nat): LegoBlock -> bool {
    b => StageOk(b, f, k)
  }

  function UpTo(f: SearchFilters, k: nat): LegoBlock -> bool {
    b => PassesUpTo(b, f, k)
  }

  function MatchesFn(f: SearchFilters): LegoBlock -> bool {
    b => Matches(b, f)
  }

  /** The search result: the blocks that match, in library order. */
  function Search(bs: seq<LegoBlock>, f: SearchFilters): seq<LegoBlock> {
    Filter(bs, MatchesFn(f))
  }

  /** Applying stage `k` to the blocks passing the first `k` stages leaves those
      passing `k + 1`; an inactive stage lets every block through. */
  lemma StageStep(xs: seq<LegoBlock>, f: SearchFilters, k: nat)
    ensures Filter(Filter(xs, UpTo(f, k)), Stage(f, k)) == Filter(xs, UpTo(f, k + 1))
    ensures !StageActive(f, k) ==> Filter(xs, UpTo(f, k)) == Filter(xs, UpTo(f, k + 1))
  {
    FilterFusion(xs, UpTo(f, k), Stage(f, k), UpTo(f, k + 1));
    if !StageActive(f, k) {
      FilterExt(xs, UpTo(f, k), UpTo(f, k + 1));
    }
  }

  lemma AllStages(xs: seq<LegoBlock>, f: SearchFilters)
    ensures Filter(xs, UpTo(f, 0)) == xs
    ensures Filter(xs, UpTo(f, 5)) == Search(xs, f)
  {
    FilterKeepsAll(xs, UpTo(f, 0));
    forall b | b in xs ensures UpTo(f, 5)(b) == MatchesFn(f)(b) {
      assert PassesUpTo(b, f, 1) == StageOk(b, f, 0);
      assert PassesUpTo(b, f, 2) == (PassesUpTo(b, f, 1) && StageOk(b, f, 1));
      assert PassesUpTo(b, f, 3) == (PassesUpTo(b, f, 2) && StageOk(b, f, 2));
      assert PassesUpTo(b, f, 4) == (PassesUpTo(b, f, 3) && StageOk(b, f, 3));
      assert PassesUpTo(b, f, 5) == (PassesUpTo(b, f, 4) && StageOk(b, f, 4));
    }
    FilterExt(xs, UpTo(f, 5), MatchesFn(f));
  }

  /** A block is in the result exactly when it is in the library and matches;
      the result keeps library order; with no criterion the whole library comes
      back. */
  lemma SearchSpec(bs: seq<LegoBlock>, f: SearchFilters)
    ensures forall b :: b in Search(bs, f) <==> b in bs && Matches(b, f)
    ensures IsSubseq(Search(bs, f), bs)
    ensures f == SearchFilters([], [], [], [], []) ==> Search(bs, f) == bs
  {
    FilterSubseq(bs, MatchesFn(f));
    if f == SearchFilters([], [], [], [], []) {
      FilterKeepsAll(bs, MatchesFn(f));
    }
  }

  /** Adding a criterion only ever removes blocks, keeping the order of the rest. */
  lemma SearchNarrows(bs: seq<LegoBlock>, f: SearchFilters, g: SearchFilters)
    requires forall b | b in bs :: Matches(b, g) ==> Matches(b, f)
    ensures IsSubseq(Search(bs, g), Search(bs, f))
  {
    FilterNarrows(bs, MatchesFn(f), MatchesFn(g));
  }

  /** A minimum strength that names none of the three tiers filters nothing. */
  lemma UnknownStrengthIgnored(bs: seq<LegoBlock>, f: SearchFilters)
    requires f.strengthLevel !in {"good", "strong", "essential"}
    ensures Search(bs, f) == Search(bs, f.(strengthLevel := []))
  {
    FilterExt(bs, MatchesFn(f), MatchesFn(f.(strengthLevel := [])));
  }

  /** One step of the search: `if criterion: results = [b for b in results if ...]`. */
  method ApplyStage(bs: seq<LegoBlock>, results: seq<LegoBlock>, f: SearchFilters, k: nat)
    returns (r: seq<LegoBlock>)
    requires results == Filter(bs, UpTo(f, k))
    ensures r == Filter(bs, UpTo(f, k + 1))
  {
    StageStep(bs, f, k);
    if StageActive(f, k) {
      r := Filter(results, Stage(f, k));
    } else {
      r := results;
    }
  }

  // ----------------------------------------------------------------- ranking

  // Scores are counted in half-points, so that the source's 0.5 and 1.5 steps
  // stay integral: a stored score `s` stands for `s / 2`.

  /** 3.0 when the requirement occurs in the content, else 2.0 in the title, else
      1.5 inside some keyword, ignoring case. */
  function RequirementPoints(b: LegoBlock, req: string): (n: nat)
    ensures n <= 6
    ensures n == 6 <==> Contains(Lower(b.content), Lower(req))
  {
    var r := Lower(req);
    if Contains(Lower(b.content), r) then 6
    else if Contains(Lower(b.title), r) then 4
    else if exists k | 0 <= k < |b.keywords| :: Contains(Lower(b.keywords[k]), r) then 3
    else 0
  }

  function RequirementsPoints(b: LegoBlock, reqs: seq<string>): nat {
    if reqs == [] then 0
    else RequirementsPoints(b, reqs[..|reqs| - 1]) + RequirementPoints(b, reqs[|reqs| - 1])
  }

  /** 2.5 when the skill occurs inside one of the block's skills, else 1.5 when
      it occurs in the content, ignoring case. */
  function SkillPoints(b: LegoBlock, skill: string): (n: nat)
    ensures n <= 5
  {
    var s := Lower(skill);
    if exists k | 0 <= k < |b.skills| :: Contains(Lower(b.skills[k]), s) then 5
    else if Contains(Lower(b.content), s) then 3
    else 0
  }

  function SkillsPoints(b: LegoBlock, skills: seq<string>): nat {
    if skills == [] then 0
    else SkillsPoints(b, skills[..|skills| - 1]) + SkillPoints(b, skills[|skills| - 1])
  }

  /** 2.0 when a preferred role is given and the block lists it. */
  function RolePoints(b: LegoBlock, role: string): nat {
    if role != [] && role in b.roleTypes then 4 else 0
  }

  /** 2.0, 1.0 and 0.5 for the three tiers, nothing for any other name. */
  function StrengthBoost(level: string): (n: nat)
    ensures n <= 4
    ensures n == 0 <==> level !in {"essential", "strong", "good"}
  {
    if level == "essential" then 4 else if level == "strong" then 2 else if level == "good" then 1 else 0
  }

  /** The number of requirements found in the content; each adds 0.5. */
  function ContentHits(b: LegoBlock, reqs: seq<string>): (n: nat)
    ensures n <= |reqs|
  {
    if reqs == [] then 0
    else ContentHits(b, reqs[..|reqs| - 1]) + (if Contains(Lower(b.content), Lower(reqs[|reqs| - 1])) then 1 else 0)
  }

  /** The relevance of one block, in half-points. */
  function BlockScore(b: LegoBlock, reqs: seq<string>, skills: seq<string>, role: string): nat {
    RequirementsPoints(b, reqs) + SkillsPoints(b, skills) + RolePoints(b, role)
      + StrengthBoost(b.strengthLevel) + ContentHits(b, reqs)
  }

  /** Every block paired with its score, in input order. */
  function ScoreAll(bs: seq<LegoBlock>, reqs: seq<string>, skills: seq<string>, role: string): (r: seq<Scored<LegoBlock>>)
    ensures |r| == |bs|
    ensures forall i | 0 <= i < |bs| :: r[i] == Scored(bs[i], BlockScore(bs[i], reqs, skills, role))
  {
    seq(|bs|, i requires 0 <= i < |bs| => Scored(bs[i], BlockScore(bs[i], reqs, skills, role)))
  }

  lemma {:induction false} RequirementsBounds(b: LegoBlock, reqs: seq<string>)
    ensures RequirementsPoints(b, reqs) <= 6 * |reqs|
    ensures ContentHits(b, reqs) == |reqs| ==> RequirementsPoints(b, reqs) == 6 * |reqs|
  {
    if reqs != [] {
      RequirementsBounds(b, reqs[..|reqs| - 1]);
    }
  }

  lemma {:induction false} SkillsBound(b: LegoBlock, skills: seq<string>)
    ensures SkillsPoints(b, skills) <= 5 * |skills|
  {
    if skills != [] {
      SkillsBound(b, skills[..|skills| - 1]);
    }
  }

  /** A score never exceeds 3.5 per requirement, 2.5 per skill and 4.0 for role
      and tier together; a block whose content holds every requirement scores at
      least 3.5 per requirement plus its tier boost. */
  lemma ScoreBounds(b: LegoBlock, reqs: seq<string>, skills: seq<string>, role: string)
    ensures BlockScore(b, reqs, skills, role) <= 7 * |reqs| + 5 * |skills| + 8
    ensures ContentHits(b, reqs) == |reqs| ==>
              BlockScore(b, reqs, skills, role) >= 7 * |reqs| + StrengthBoost(b.strengthLevel)
  {
    RequirementsBounds(b, reqs);
    SkillsBound(b, skills);
  }

  /** One more requirement never lowers a score, and raises it by 3.5 when the
      content holds it. */
  lemma ScoreMonotone(b: LegoBlock, reqs: seq<string>, req: string, skills: seq<string>, role: string)
    ensures BlockScore(b, reqs + [req], skills, role) >= BlockScore(b, reqs, skills, role)
    ensures Contains(Lower(b.content), Lower(req)) ==>
              BlockScore(b, reqs + [req], skills, role) == BlockScore(b, reqs, skills, role) + 7
  {
    assert (reqs + [req])[..|reqs|] == reqs;
  }

  // ------------------------------------------------------------- statistics

  /** The statistics dictionary. The three tier counts are the
      `strength_breakdown` entries; the breakdowns and top lists are
      insertion-ordered dicts, written as (key, count) lists. */
  datatype SummaryStats = SummaryStats(
    totalBlocks: nat,
    categories: nat,
    categoryBreakdown: seq<Scored<string>>,
    essential: nat,
    strong: nat,
    good: nat,
    topSkills: seq<Scored<string>>,
    topRoleTypes: seq<Scored<string>>)

  const TOP_COUNT := 10

  function CategoriesOf(bs: seq<LegoBlock>): (r: seq<string>)
    ensures |r| == |bs|
    ensures forall i | 0 <= i < |bs| :: r[i] == bs[i].category
  {
    if bs == [] then [] else CategoriesOf(bs[..|bs| - 1]) + [bs[|bs| - 1].category]
  }

  /** All skills of all blocks, block by block. */
  function AllSkills(bs: seq<LegoBlock>): seq<string> {
    if bs == [] then [] else AllSkills(bs[..|bs| - 1]) + bs[|bs| - 1].skills
  }

  /** All role types of all blocks, block by block. */
  function AllRoleTypes(bs: seq<LegoBlock>): seq<string> {
    if bs == [] then [] else AllRoleTypes(bs[..|bs| - 1]) + bs[|bs| - 1].roleTypes
  }

  function CountLevel(bs: seq<LegoBlock>, level: string): (n: nat)
    ensures n <= |bs|
  {
    if bs == [] then 0 else CountLevel(bs[..|bs| - 1], level) + (if bs[|bs| - 1].strengthLevel == level then 1 else 0)
  }

  predicate KnownLevels(bs: seq<LegoBlock>) {
    forall i | 0 <= i < |bs| :: bs[i].strengthLevel in {"essential", "strong", "good"}
  }

  lemma CategoriesSnoc(bs: seq<LegoBlock>, i: nat)
    requires i < |bs|
    ensures CategoriesOf(bs[..i + 1]) == CategoriesOf(bs[..i]) + [bs[i].category]
  {
    assert bs[..i + 1][..i] == bs[..i];
  }

  /** A prefix with an unknown tier makes the whole list's tiers unknown. */
  lemma UnknownLevelPersists(bs: seq<LegoBlock>, n: nat)
    requires n <= |bs| && !KnownLevels(bs[..n])
    ensures !KnownLevels(bs)
  {
    var k :| 0 <= k < n && bs[..n][k].strengthLevel !in {"essential", "strong", "good"};
    assert bs[k] == bs[..n][k];
  }

  /** One more block: the counts and the known-tier test extend by that block alone. */
  lemma LevelsSnoc(bs: seq<LegoBlock>, i: nat)
    requires i < |bs|
    ensures CountLevel(bs[..i + 1], "essential") == CountLevel(bs[..i], "essential") + (if bs[i].strengthLevel == "essential" then 1 else 0)
    ensures CountLevel(bs[..i + 1], "strong") == CountLevel(bs[..i], "strong") + (if bs[i].strengthLevel == "strong" then 1 else 0)
    ensures CountLevel(bs[..i + 1], "good") == CountLevel(bs[..i], "good") + (if bs[i].strengthLevel == "good" then 1 else 0)
    ensures KnownLevels(bs[..i + 1]) <==> KnownLevels(bs[..i]) && bs[i].strengthLevel in {"essential", "strong", "good"}
  {
    assert bs[..i + 1][..i] == bs[..i];
  }

  /** The ten most frequent values, most frequent first, ties in first-seen order. */
  function TopCounts(xs: seq<string>): seq<Scored<string>> {
    PyTake(SortDesc(Tally(xs)), TOP_COUNT)
  }

  /** The statistics of a list of blocks, or the `KeyError` raised by a block
      whose tier is not one of the three dictionary keys. */
  function SummaryOf(bs: seq<LegoBlock>): Result<SummaryStats> {
    if !KnownLevels(bs) then Err("KeyError")
    else Ok(SummaryStats(
      |bs|, |Elements(CategoriesOf(bs))|, Tally(CategoriesOf(bs)),
      CountLevel(bs, "essential"), CountLevel(bs, "strong"), CountLevel(bs, "good"),
      TopCounts(AllSkills(bs)), TopCounts(AllRoleTypes(bs))))
  }

  lemma {:induction false} LevelsPartition(bs: seq<LegoBlock>)
    requires KnownLevels(bs)
    ensures CountLevel(bs, "essential") + CountLevel(bs, "strong") + CountLevel(bs, "good") == |bs|
  {
    if bs != [] {
      LevelsPartition(bs[..|bs| - 1]);
    }
  }

  /** Every entry of a top list is a distinct value with its exact number of
      occurrences; the list is ordered by count, at most ten long; it drops
      nothing when at most ten values occur, and no value it drops occurs more
      often than any value it keeps. */
  lemma TopCountsSpec(xs: seq<string>)
    ensures |TopCounts(xs)| <= TOP_COUNT
    ensures SortedDesc(TopCounts(xs))
    ensures forall e | e in TopCounts(xs) :: e.score == Occurrences(xs, e.item) >= 1
    ensures |Tally(xs)| <= TOP_COUNT ==> multiset(TopCounts(xs)) == multiset(Tally(xs))
    ensures forall e, f | e in Tally(xs) && e !in TopCounts(xs) && f in TopCounts(xs) :: e.score <= f.score
  {
    var t := Tally(xs);
    TallyCorrect(xs);
    SortDescSorted(t);
    var s := SortDesc(t);
    var r := TopCounts(xs);
    forall i, j | 0 <= i < j < |r| ensures r[i].score >= r[j].score {
      assert r[i] == s[i] && r[j] == s[j];
    }
    forall e | e in r ensures e.score == Occurrences(xs, e.item) >= 1 {
      assert e in s;
      assert e in multiset(s);
      assert e in multiset(t);
    }
    TopCountsKeepsLargest(xs);
  }

  /** The cut to ten keeps a prefix of the sorted tally, so every value it drops
      stands after, and counts no more than, every value it keeps. */
  lemma TopCountsKeepsLargest(xs: seq<string>)
    ensures forall e, f | e in Tally(xs) && e !in TopCounts(xs) && f in TopCounts(xs) :: e.score <= f.score
  {
    var t := Tally(xs);
    var s := SortDesc(t);
    SortDescSorted(t);
    var r := TopCounts(xs);
    assert forall k | 0 <= k < |r| :: r[k] == s[k];
    forall e, f | e in t && e !in r && f in r ensures e.score <= f.score {
      assert e in multiset(s);
      var p :| 0 <= p < |s| && s[p] == e;
      var q :| 0 <= q < |r| && r[q] == f;
      assert q < p;
    }
  }

  /** The statistics add up: the tiers and the category breakdown each account
      for every block once, `categories` is the number of breakdown entries, and
      the call fails exactly when some block's tier is unknown. */
  lemma SummaryConsistent(bs: seq<LegoBlock>)
    ensures SummaryOf(bs).Err? <==> exists i | 0 <= i < |bs| :: bs[i].strengthLevel !in {"essential", "strong", "good"}
    ensures SummaryOf(bs).Ok? ==>
              var s := SummaryOf(bs).value;
              && s.essential + s.strong + s.good == s.totalBlocks == |bs|
              && SumScores(s.categoryBreakdown) == |bs|
              && s.categories == |s.categoryBreakdown|
  {
    if KnownLevels(bs) {
      LevelsPartition(bs);
      TallySum(CategoriesOf(bs));
      TallyDistinctCount(CategoriesOf(bs));
    }
  }

  /** The score of one block: the requirement, skill, role, tier and
      content-match terms added in the source's order. */
  method ScoreBlock(b: LegoBlock, reqs: seq<string>, requiredSkills: seq<string>, preferredRole: string)
    returns (score: nat)
    ensures score == BlockScore(b, reqs, requiredSkills, preferredRole)
  {
    score := ScoreRequirements(b, reqs);
    if requiredSkills != [] {
      var skills := ScoreSkills(b, requiredSkills);
      score := score + skills;
    }
    if preferredRole != [] && preferredRole in b.roleTypes {
      score := score + 4;
    }
    score := score + StrengthBoost(b.strengthLevel);
    var matched := CountContentHits(b, reqs);
    if matched > 0 {
      score := score + matched;
    }
  }

  /** The loop over the requirements: content, title or keyword match. */
  method ScoreRequirements(b: LegoBlock, reqs: seq<string>) returns (score: nat)
    ensures score == RequirementsPoints(b, reqs)
  {
    score := 0;
    var j := 0;
    while j < |reqs|
      invariant 0 <= j <= |reqs|
      invariant score == RequirementsPoints(b, reqs[..j])
    {
      assert reqs[..j + 1][..j] == reqs[..j];
      var r := Lower(reqs[j]);
      if Contains(Lower(b.content), r) {
        score := score + 6;
      } else if Contains(Lower(b.title), r) {
        score := score + 4;
      } else if exists k | 0 <= k < |b.keywords| :: Contains(Lower(b.keywords[k]), r) {
        score := score + 3;
      }
      j := j + 1;
    }
    assert reqs[..j] == reqs;
  }

  /** The loop over the required skills: a skill of the block, or the content. */
  method ScoreSkills(b: LegoBlock, requiredSkills: seq<string>) returns (score: nat)
    ensures score == SkillsPoints(b, requiredSkills)
  {
    score := 0;
    var j := 0;
    while j < |requiredSkills|
      invariant 0 <= j <= |requiredSkills|
      invariant score == SkillsPoints(b, requiredSkills[..j])
    {
      assert requiredSkills[..j + 1][..j] == requiredSkills[..j];
      var s := Lower(requiredSkills[j]);
      if exists k | 0 <= k < |b.skills| :: Contains(Lower(b.skills[k]), s) {
        score := score + 5;
      } else if Contains(Lower(b.content), s) {
        score := score + 3;
      }
      j := j + 1;
    }
    assert requiredSkills[..j] == requiredSkills;
  }

  /** The number of requirements the content mentions, ignoring case. */
  method CountContentHits(b: LegoBlock, reqs: seq<string>) returns (matched: nat)
    ensures matched == ContentHits(b, reqs)
  {
    matched := 0;
    var j := 0;
    while j < |reqs|
      invariant 0 <= j <= |reqs|
      invariant matched == ContentHits(b, reqs[..j])
    {
      assert reqs[..j + 1][..j] == reqs[..j];
      if Contains(Lower(b.content), Lower(reqs[j])) {
        matched := matched + 1;
      }
      j := j + 1;
    }
    assert reqs[..j] == reqs;
  }

  /** The title line at `i` and the line after it: the block they hold, if the
      next line exists and has a bold span. */
  method ReadTitle(lines: seq<string>, i: nat, category: string, m: Matcher) returns (found: seq<LegoBlock>)
    requires i < |lines| && StartsWith(Strip(lines[i]), "### ")
    requires category != [] && !IsStopHeading(category)
    ensures found == BlockAt(lines, i, category, Importer(m))
  {
    var title := Strip(ReplaceAll(Strip(lines[i]), "### ", ""));
    found := [];
    if i + 1 < |lines| {
      var contentLine := Strip(lines[i + 1]);
      var bold := BoldSpan(contentLine);
      if bold.Some? {
        var content := bold.value;
        var keywords := ExtractKeywords(content, m(content));
        var skills := ExtractSkills(content, category);
        var roleTypes := InferRoleTypes(category, title, content);
        var companyTypes := InferCompanyTypes(category, title, content);
        var strengthLevel := DetermineStrengthLevel(content);
        ImporterBlockAt(lines, i, category, content, m);
        found := [LegoBlock(category, None, title, content, skills, keywords, strengthLevel, roleTypes, companyTypes)];
      }
    }
  }

  /** The importer's block at a title line, when the next line has a bold span. */
  lemma ImporterBlockAt(lines: seq<string>, i: nat, category: string, content: string, m: Matcher)
    requires i + 1 < |lines| && BoldSpan(Strip(lines[i + 1])) == Some(content)
    ensures BlockAt(lines, i, category, Importer(m)) == [BuildBlock(category, TitleOf(Strip(lines[i])), content, m(content))]
  {
  }

  /** Regrouping the blocks read so far with the rest of the parse. */
  lemma AppendAssoc(xs: seq<LegoBlock>, ys: seq<LegoBlock>, zs: seq<LegoBlock>)
    ensures (xs + ys) + zs == xs + (ys + zs)
  {
  }

  /** One turn of the importer's loop at line `i`: the blocks it reads, where it
      resumes and under which category, or `stop` at a stop heading. */
  method ImportStep(lines: seq<string>, i: nat, category: string, m: Matcher)
    returns (found: seq<LegoBlock>, next: nat, nextCategory: string, stop: bool)
    requires i < |lines| && (category == [] || !IsStopHeading(category))
    ensures i < next <= i + 2
    ensures nextCategory == [] || !IsStopHeading(nextCategory)
    ensures stop ==> ParseFrom(lines, i, category, Importer(m)) == []
    ensures !stop ==> ParseFrom(lines, i, category, Importer(m)) == found + ParseFrom(lines, next, nextCategory, Importer(m))
  {
    var line := Strip(lines[i]);
    found, next, nextCategory, stop := [], i + 1, category, false;
    if StartsWith(line, "### ") && category != [] && !IsSkipped(line) && !StartsWith(line, "## ") {
      TitleStep(lines, i, category, Importer(m));
      found := ReadTitle(lines, i, category, m);
      next := i + 2;
      return;
    }
    assert [] + ParseFrom(lines, i, category, Importer(m)) == ParseFrom(lines, i, category, Importer(m));
    if IsSkipped(line) {
      SkipStep(lines, i, category, Importer(m));
    } else if StartsWith(line, "## ") {
      HeadingStep(lines, i, category, Importer(m));
      var c := CleanCategory(line);
      if IsStopHeading(c) {
        stop := true;
      } else {
        nextCategory := c;
      }
    } else {
      OtherStep(lines, i, category, Importer(m));
    }
  }

  /** The importer's walk over the document's lines: headings set the current
      category, a title line under a category reads the block on the line after it,
      and a stop heading ends the walk. */
  method ImportLines(lines: seq<string>, m: Matcher) returns (acc: seq<LegoBlock>)
    ensures acc == ParseFrom(lines, 0, [], Importer(m))
  {
    ghost var all := ParseFrom(lines, 0, [], Importer(m));
    acc := [];
    var category: string := [];
    var i := 0;
    while i < |lines|
      invariant 0 <= i <= |lines| + 1
      invariant category == [] || !IsStopHeading(category)
      invariant acc + ParseFrom(lines, i, category, Importer(m)) == all
      decreases |lines| - i
    {
      var found, next, nextCategory, stop := ImportStep(lines, i, category, m);
      if stop {
        assert acc + [] == acc;
        return;
      }
      AppendAssoc(acc, found, ParseFrom(lines, next, nextCategory, Importer(m)));
      acc, i, category := acc + found, next, nextCategory;
    }
  }

  /** The first pass of the statistics: the per-category counts and the per-tier
      counts, or `known == false` where a block's tier is not a dictionary key. */
  method CountCategoriesAndLevels(bs: seq<LegoBlock>)
    returns (known: bool, breakdown: seq<Scored<string>>, essential: nat, strong: nat, good: nat)
    ensures known == KnownLevels(bs)
    ensures known ==> breakdown == Tally(CategoriesOf(bs))
    ensures known ==> essential == CountLevel(bs, "essential") && strong == CountLevel(bs, "strong")
                      && good == CountLevel(bs, "good")
  {
    breakdown, essential, strong, good := [], 0, 0, 0;
    var i := 0;
    while i < |bs|
      invariant 0 <= i <= |bs|
      invariant KnownLevels(bs[..i])
      invariant breakdown == Tally(CategoriesOf(bs[..i]))
      invariant essential == CountLevel(bs[..i], "essential")
      invariant strong == CountLevel(bs[..i], "strong")
      invariant good == CountLevel(bs[..i], "good")
    {
      var b := bs[i];
      LevelsSnoc(bs, i);
      CategoriesSnoc(bs, i);
      TallySnoc(CategoriesOf(bs[..i]), b.category);
      breakdown := Bump(breakdown, b.category);
      if b.strengthLevel == "essential" {
        essential := essential + 1;
      } else if b.strengthLevel == "strong" {
        strong := strong + 1;
      } else if b.strengthLevel == "good" {
        good := good + 1;
      } else {
        assert !KnownLevels(bs[..i + 1]);
        known := false;
        UnknownLevelPersists(bs, i + 1);
        return;
      }
      i := i + 1;
    }
    assert bs[..i] == bs;
    known := true;
  }

  /** `counts[x] += 1` for each `x` of `xs` in turn, on a tally of `seen`. */
  method BumpAll(counts: seq<Scored<string>>, ghost seen: seq<string>, xs: seq<string>)
    returns (r: seq<Scored<string>>)
    requires counts == Tally(seen)
    ensures r == Tally(seen + xs)
  {
    r := counts;
    var j := 0;
    assert seen + xs[..0] == seen;
    while j < |xs|
      invariant 0 <= j <= |xs|
      invariant r == Tally(seen + xs[..j])
    {
      ghost var before := seen + xs[..j];
      assert seen + xs[..j + 1] == before + [xs[j]] by {
        assert xs[..j + 1] == xs[..j] + [xs[j]];
      }
      TallySnoc(before, xs[j]);
      r := Bump(r, xs[j]);
      j := j + 1;
    }
    assert xs[..j] == xs;
  }

  /** How often each skill occurs across the blocks, in first-seen order. */
  method CountSkills(bs: seq<LegoBlock>) returns (counts: seq<Scored<string>>)
    ensures counts == Tally(AllSkills(bs))
  {
    counts := [];
    var i := 0;
    while i < |bs|
      invariant 0 <= i <= |bs|
      invariant counts == Tally(AllSkills(bs[..i]))
    {
      assert bs[..i + 1][..i] == bs[..i];
      counts := BumpAll(counts, AllSkills(bs[..i]), bs[i].skills);
      i := i + 1;
    }
    assert bs[..i] == bs;
  }

  /** How often each role type occurs across the blocks, in first-seen order. */
  method CountRoleTypes(bs: seq<LegoBlock>) returns (counts: seq<Scored<string>>)
    ensures counts == Tally(AllRoleTypes(bs))
  {
    counts := [];
    var i := 0;
    while i < |bs|
      invariant 0 <= i <= |bs|
      invariant counts == Tally(AllRoleTypes(bs[..i]))
    {
      assert bs[..i + 1][..i] == bs[..i];
      counts := BumpAll(counts, AllRoleTypes(bs[..i]), bs[i].roleTypes);
      i := i + 1;
    }
    assert bs[..i] == bs;
  }

  // ------------------------------------------------------------------- class

  const ByCategory: LegoBlock -> string := (b: LegoBlock) => b.category

  class LegoBlockManager {
    var blocks: seq<LegoBlock>

    /** Every stored block has the shape the importer gives it. */
    predicate Valid()
      reads this
    {
      forall b | b in blocks :: WellFormed(b)
    }

    constructor ()
      ensures blocks == [] && Valid()
    {
      blocks := [];
    }

    /** Reads the document, replaces the library with its blocks and returns them. */
    method ImportFromMarkdown(text: string, m: Matcher) returns (result: seq<LegoBlock>)
      modifies this
      ensures result == ParseDocument(text, m) && blocks == result
      ensures Valid()
    {
      var lines := Split(text, '\n');
      result := ImportLines(lines, m);
      ImporterSound(m);
      ParseFromSound(lines, 0, [], Importer(m));
      blocks := result;
    }

    /** The blocks meeting every given criterion, applied in the source's order. */
    method SearchBlocks(f: SearchFilters) returns (results: seq<LegoBlock>)
      ensures results == Search(blocks, f)
    {
      AllStages(blocks, f);
      results := blocks;
      results := ApplyStage(blocks, results, f, 0);
      results := ApplyStage(blocks, results, f, 1);
      results := ApplyStage(blocks, results, f, 2);
      results := ApplyStage(blocks, results, f, 3);
      results := ApplyStage(blocks, results, f, 4);
    }

    /** The given blocks with their scores, highest first; equal scores keep their
        input order. */
    method RankBlocks(bs: seq<LegoBlock>, reqs: seq<string>, requiredSkills: seq<string>, preferredRole: string)
      returns (ranked: seq<Scored<LegoBlock>>)
      ensures ranked == SortDesc(ScoreAll(bs, reqs, requiredSkills, preferredRole))
      ensures multiset(ranked) == multiset(ScoreAll(bs, reqs, requiredSkills, preferredRole))
      ensures SortedDesc(ranked)
      ensures forall k :: WithScore(ranked, k) == WithScore(ScoreAll(bs, reqs, requiredSkills, preferredRole), k)
    {
      var scored: seq<Scored<LegoBlock>> := [];
      var i := 0;
      while i < |bs|
        invariant 0 <= i <= |bs|
        invariant scored == ScoreAll(bs[..i], reqs, requiredSkills, preferredRole)
      {
        var score := ScoreBlock(bs[i], reqs, requiredSkills, preferredRole);
        assert bs[..i + 1] == bs[..i] + [bs[i]];
        scored := scored + [Scored(bs[i], score)];
        i := i + 1;
      }
      assert bs[..i] == bs;
      ranked := SortDesc(scored);
      SortDescSorted(scored);
      forall k ensures WithScore(ranked, k) == WithScore(scored, k) {
        SortDescStable(scored, k);
      }
    }

    /** The blocks grouped by category, categories in order of first appearance. */
    method GetBlocksByCategory() returns (grouped: seq<Group<string, LegoBlock>>)
      ensures grouped == GroupBy(blocks, ByCategory)
      ensures GroupsOf(grouped, blocks, ByCategory)
      ensures FirstAppearanceOrder(grouped, blocks, ByCategory)
    {
      grouped := [];
      var i := 0;
      while i < |blocks|
        invariant 0 <= i <= |blocks|
        invariant grouped == GroupBy(blocks[..i], ByCategory)
      {
        assert blocks[..i + 1][..i] == blocks[..i];
        grouped := AddTo(grouped, blocks[i].category, blocks[i]);
        i := i + 1;
      }
      assert blocks[..i] == blocks;
      GroupByCorrect(blocks, ByCategory);
      GroupByFirstAppearance(blocks, ByCategory);
    }

    /** The library's statistics, or the `KeyError` an unknown tier raises;
        a library of imported blocks always has its statistics. */
    method GetSummaryStats() returns (r: Result<SummaryStats>)
      ensures r == SummaryOf(blocks)
      ensures Valid() ==> r.Ok?
    {
      assert Valid() ==> KnownLevels(blocks) by {
        if Valid() {
          forall i | 0 <= i < |blocks| ensures blocks[i].strengthLevel in {"essential", "strong", "good"} {
            assert WellFormed(blocks[i]);
          }
        }
      }
      var categories := |Elements(CategoriesOf(blocks))|;
      var known, breakdown, essential, strong, good := CountCategoriesAndLevels(blocks);
      if !known {
        return Err("KeyError");
      }
      var skillCounts := CountSkills(blocks);
      var roleCounts := CountRoleTypes(blocks);
      r := Ok(SummaryStats(|blocks|, categories, breakdown, essential, strong, good,
                           PyTake(SortDesc(skillCounts), TOP_COUNT), PyTake(SortDesc(roleCounts), TOP_COUNT)));
    }
  }
}
