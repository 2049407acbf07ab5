/** The CV generator's keyword-matching block selection, its relevance
    ranking and the LaTeX document it renders from the chosen blocks. */
module CvGenerator {
  import opened Text
  import opened Collections

  /** A lego block as stored in the database: an absent category is `""` and
      absent skill or keyword lists are empty. */
  datatype StoredBlock = StoredBlock(
    id: int, category: string, title: string, content: string,
    skills: seq<string>, keywords: seq<string>)

  /** The parts of a stored job the selection reads: an absent role is `""`. */
  datatype Job = Job(role: string, parsedSkills: seq<string>, parsedRequirements: seq<string>)

  // ---------------------------------------------------------------- keywords

  function LowerAll(xs: seq<string>): (r: set<string>)
    ensures forall k :: k in r <==> exists i | 0 <= i < |xs| :: Lower(xs[i]) == k
  {
    set i | 0 <= i < |xs| :: Lower(xs[i])
  }

  /** The job's keyword set: its skills and requirements lower-cased, and, for
      the selection but not the ranking, the words of its lower-cased role. */
  function JobKeywords(job: Job, withRole: bool): set<string> {
    LowerAll(job.parsedSkills) + LowerAll(job.parsedRequirements)
    + (if withRole then Elements(SplitWhitespace(Lower(job.role))) else {})
  }

  /** The ranking's keywords are lower-case and hold every lower-cased skill
      and requirement; the selection adds to them only words of the
      lower-cased role. */
  lemma JobKeywordsShape(job: Job)
    ensures forall k | k in JobKeywords(job, false) :: Lower(k) == k
    ensures forall i | 0 <= i < |job.parsedSkills| :: Lower(job.parsedSkills[i]) in JobKeywords(job, false)
    ensures forall i | 0 <= i < |job.parsedRequirements| :: Lower(job.parsedRequirements[i]) in JobKeywords(job, false)
    ensures JobKeywords(job, false) <= JobKeywords(job, true)
    ensures forall k | k in JobKeywords(job, true) && k !in JobKeywords(job, false) :: k in SplitWhitespace(Lower(job.role))
  {
    forall k | k in JobKeywords(job, false) ensures Lower(k) == k {
      if k in LowerAll(job.parsedSkills) {
        var i :| 0 <= i < |job.parsedSkills| && Lower(job.parsedSkills[i]) == k;
        LowerIdempotent(job.parsedSkills[i]);
      } else {
        var i :| 0 <= i < |job.parsedRequirements| && Lower(job.parsedRequirements[i]) == k;
        LowerIdempotent(job.parsedRequirements[i]);
      }
    }
  }

  // ----------------------------------------------------------------- scoring

  /** How many entries of `xs` are, lower-cased, job keywords (repeats count). */
  function ListHits(xs: seq<string>, kws: set<string>): (n: nat)
    ensures n <= |xs|
  {
    if xs == [] then 0 else ListHits(xs[..|xs| - 1], kws) + (if Lower(xs[|xs| - 1]) in kws then 1 else 0)
  }

  /** The job keywords occurring in a text. */
  function HitsIn(kws: set<string>, text: string): set<string> {
    set k | k in kws && Contains(text, k)
  }

  /** The lower-cased "title content" text a block is searched in. */
  function BlockText(b: StoredBlock): string {
    Lower(b.title + " " + b.content)
  }

  /** Three points per matching skill, two per matching keyword and one per job
      keyword found in the block's text. */
  function FallbackScore(b: StoredBlock, kws: set<string>): nat {
    3 * ListHits(b.skills, kws) + 2 * ListHits(b.keywords, kws) + |HitsIn(kws, BlockText(b))|
  }

  lemma {:induction false} ListHitsPositive(xs: seq<string>, kws: set<string>)
    ensures ListHits(xs, kws) > 0 <==> exists i | 0 <= i < |xs| :: Lower(xs[i]) in kws
  {
    if xs != [] {
      var init := xs[..|xs| - 1];
      ListHitsPositive(init, kws);
      if exists i | 0 <= i < |init| :: Lower(init[i]) in kws {
        var i :| 0 <= i < |init| && Lower(init[i]) in kws;
        assert xs[i] == init[i];
      }
      if exists i | 0 <= i < |xs| :: Lower(xs[i]) in kws {
        var i :| 0 <= i < |xs| && Lower(xs[i]) in kws;
        if i < |init| {
          assert init[i] == xs[i];
        }
      }
    }
  }

  lemma {:induction false} ListHitsMonotone(xs: seq<string>, k1: set<string>, k2: set<string>)
    requires k1 <= k2
    ensures ListHits(xs, k1) <= ListHits(xs, k2)
  {
    if xs != [] {
      ListHitsMonotone(xs[..|xs| - 1], k1, k2);
    }
  }

  lemma SubsetCard(a: set<string>, b: set<string>)
    requires a <= b
    ensures |a| <= |b|
  {
    assert b == a + (b - a);
  }

  /** A block scores when, and only when, one of its skills or keywords is a
      job keyword or a job keyword occurs in its text. */
  lemma ScorePositive(b: StoredBlock, kws: set<string>)
    ensures FallbackScore(b, kws) > 0 <==>
              || (exists i | 0 <= i < |b.skills| :: Lower(b.skills[i]) in kws)
              || (exists i | 0 <= i < |b.keywords| :: Lower(b.keywords[i]) in kws)
              || (exists k | k in kws :: Contains(BlockText(b), k))
  {
    ListHitsPositive(b.skills, kws);
    ListHitsPositive(b.keywords, kws);
    if exists k | k in kws :: Contains(BlockText(b), k) {
      var k :| k in kws && Contains(BlockText(b), k);
      assert k in HitsIn(kws, BlockText(b));
    }
  }

  /** More job keywords never lower a block's score. */
  lemma ScoreMonotone(b: StoredBlock, k1: set<string>, k2: set<string>)
    requires k1 <= k2
    ensures FallbackScore(b, k1) <= FallbackScore(b, k2)
  {
    ListHitsMonotone(b.skills, k1, k2);
    ListHitsMonotone(b.keywords, k1, k2);
    SubsetCard(HitsIn(k1, BlockText(b)), HitsIn(k2, BlockText(b)));
  }

  /** The per-block loops of the selection and the ranking. */
  method ScoreBlock(b: StoredBlock, kws: set<string>) returns (score: nat)
    ensures score == FallbackScore(b, kws)
  {
    score := 0;
    for i := 0 to |b.skills|
      invariant score == 3 * ListHits(b.skills[..i], kws)
    {
      assert b.skills[..i + 1][..i] == b.skills[..i];
      if Lower(b.skills[i]) in kws {
        score := score + 3;
      }
    }
    assert b.skills[..|b.skills|] == b.skills;
    for i := 0 to |b.keywords|
      invariant score == 3 * ListHits(b.skills, kws) + 2 * ListHits(b.keywords[..i], kws)
    {
      assert b.keywords[..i + 1][..i] == b.keywords[..i];
      if Lower(b.keywords[i]) in kws {
        score := score + 2;
      }
    }
    assert b.keywords[..|b.keywords|] == b.keywords;
    var text := BlockText(b);
    var hits := ContentHits(kws, text);
    score := score + hits;
  }

  /** One point per job keyword in the text, visiting the set in any order. */
  method ContentHits(kws: set<string>, text: string) returns (hits: nat)
    ensures hits == |HitsIn(kws, text)|
  {
    hits := 0;
    var remaining := kws;
    ghost var visited: set<string> := {};
    while remaining != {}
      invariant remaining + visited == kws && remaining !! visited
      invariant hits == |HitsIn(visited, text)|
      decreases |remaining|
    {
      var k :| k in remaining;
      if Contains(text, k) {
        assert HitsIn(visited + {k}, text) == HitsIn(visited, text) + {k};
        hits := hits + 1;
      } else {
        assert HitsIn(visited + {k}, text) == HitsIn(visited, text);
      }
      remaining := remaining - {k};
      visited := visited + {k};
    }
  }

  // --------------------------------------------------------------- selection

  /** The blocks that score, paired with their scores, in input order. */
  function PositiveScored(bs: seq<StoredBlock>, kws: set<string>): (r: seq<Scored<StoredBlock>>)
    ensures |r| <= |bs|
    ensures forall x | x in r :: x.item in bs && x.score == FallbackScore(x.item, kws) > 0
    ensures forall b | b in bs && FallbackScore(b, kws) > 0 :: Scored(b, FallbackScore(b, kws)) in r
  {
    if bs == [] then []
    else
      var b := bs[|bs| - 1];
      PositiveScored(bs[..|bs| - 1], kws) + (if FallbackScore(b, kws) > 0 then [Scored(b, FallbackScore(b, kws))] else [])
  }

  function ItemsOf<T>(xs: seq<Scored<T>>): (r: seq<T>)
    ensures |r| == |xs| && forall i | 0 <= i < |xs| :: r[i] == xs[i].item
  {
    seq(|xs|, i requires 0 <= i < |xs| => xs[i].item)
  }

  /** The scoring blocks, best first with ties in input order, cut to `maxBlocks`
      as the slice `[:maxBlocks]` does. */
  function SelectFallback(job: Job, bs: seq<StoredBlock>, maxBlocks: int): seq<StoredBlock> {
    SelectScoring(bs, JobKeywords(job, true), maxBlocks)
  }

  /** The selection for a given keyword set. */
  function SelectScoring(bs: seq<StoredBlock>, kws: set<string>, maxBlocks: int): seq<StoredBlock> {
    ItemsOf(PyTake(SortDesc(PositiveScored(bs, kws)), maxBlocks))
  }

  /** The scoring loop of the selection: each block's score, kept when positive. */
  method ScoreScoring(blocks: seq<StoredBlock>, kws: set<string>) returns (scored: seq<Scored<StoredBlock>>)
    ensures scored == PositiveScored(blocks, kws)
  {
    scored := [];
    for i := 0 to |blocks|
      invariant scored == PositiveScored(blocks[..i], kws)
    {
      assert blocks[..i + 1][..i] == blocks[..i];
      var score := ScoreBlock(blocks[i], kws);
      if score > 0 {
        scored := scored + [Scored(blocks[i], score)];
      }
    }
    assert blocks[..|blocks|] == blocks;
  }

  method SelectBlocksFallback(job: Job, blocks: seq<StoredBlock>, maxBlocks: int) returns (selected: seq<StoredBlock>)
    ensures selected == SelectFallback(job, blocks, maxBlocks)
  {
    var kws := JobKeywords(job, true);
    var scored := ScoreScoring(blocks, kws);
    var sorted := SortDesc(scored);
    selected := ItemsOf(PyTake(sorted, maxBlocks));
  }

  /** The head of a descending sort: entries of the input, at most `n` of
      them for `n >= 0`, in descending order. */
  lemma TopOf<T>(p: seq<Scored<T>>, n: int)
    ensures var t := PyTake(SortDesc(p), n);
            && (forall i | 0 <= i < |t| :: t[i] in p)
            && (n >= 0 ==> |t| <= n)
            && SortedDesc(t)
  {
    var s := SortDesc(p);
    SortDescSorted(p);
    var t := PyTake(s, n);
    forall i | 0 <= i < |t| ensures t[i] in p {
      assert t[i] == s[i];
      assert s[i] in multiset(p);
    }
  }

  /** Every selected block is one of the given blocks and scores; there are
      `min(maxBlocks, number of scoring blocks)` of them (for a negative
      `maxBlocks`, all but the last `-maxBlocks`, as the slice gives), and their
      scores do not increase. */
  lemma SelectionSound(job: Job, bs: seq<StoredBlock>, maxBlocks: int)
    ensures var r := SelectFallback(job, bs, maxBlocks);
            var kws := JobKeywords(job, true);
            && (forall i | 0 <= i < |r| :: r[i] in bs && FallbackScore(r[i], kws) > 0)
            && (maxBlocks >= 0 ==> |r| <= maxBlocks)
            && (forall i, j | 0 <= i < j < |r| :: FallbackScore(r[i], kws) >= FallbackScore(r[j], kws))
    ensures var n := |PositiveScored(bs, JobKeywords(job, true))|;
            var r := SelectFallback(job, bs, maxBlocks);
            && (maxBlocks >= 0 ==> |r| == if maxBlocks < n then maxBlocks else n)
            && (maxBlocks < 0 ==> |r| == if n + maxBlocks > 0 then n + maxBlocks else 0)
  {
    ScoringSound(bs, JobKeywords(job, true), maxBlocks);
  }

  lemma ScoringSound(bs: seq<StoredBlock>, kws: set<string>, maxBlocks: int)
    ensures var r := SelectScoring(bs, kws, maxBlocks);
            && (forall i | 0 <= i < |r| :: r[i] in bs && FallbackScore(r[i], kws) > 0)
            && (maxBlocks >= 0 ==> |r| <= maxBlocks)
            && (forall i, j | 0 <= i < j < |r| :: FallbackScore(r[i], kws) >= FallbackScore(r[j], kws))
    ensures var n := |PositiveScored(bs, kws)|;
            var r := SelectScoring(bs, kws, maxBlocks);
            && (maxBlocks >= 0 ==> |r| == if maxBlocks < n then maxBlocks else n)
            && (maxBlocks < 0 ==> |r| == if n + maxBlocks > 0 then n + maxBlocks else 0)
  {
    var p := PositiveScored(bs, kws);
    var t := PyTake(SortDesc(p), maxBlocks);
    TopOf(p, maxBlocks);
    var r := ItemsOf(t);
    forall i | 0 <= i < |r| ensures r[i] in bs && FallbackScore(r[i], kws) == t[i].score > 0 {
      assert t[i] in p;
    }
  }

  /** No scoring block is passed over for one that scores less: a block scoring
      more than some selected block is itself selected. */
  lemma SelectionIsTop(job: Job, bs: seq<StoredBlock>, maxBlocks: int, b: StoredBlock, i: nat)
    requires b in bs
    requires i < |SelectFallback(job, bs, maxBlocks)|
    requires FallbackScore(b, JobKeywords(job, true)) > FallbackScore(SelectFallback(job, bs, maxBlocks)[i], JobKeywords(job, true))
    ensures b in SelectFallback(job, bs, maxBlocks)
  {
    ScoringIsTop(bs, JobKeywords(job, true), maxBlocks, b, i);
  }

  lemma ScoringIsTop(bs: seq<StoredBlock>, kws: set<string>, maxBlocks: int, b: StoredBlock, i: nat)
    requires b in bs
    requires i < |SelectScoring(bs, kws, maxBlocks)|
    requires FallbackScore(b, kws) > FallbackScore(SelectScoring(bs, kws, maxBlocks)[i], kws)
    ensures b in SelectScoring(bs, kws, maxBlocks)
  {
    var p := PositiveScored(bs, kws);
    var s := SortDesc(p);
    SortDescSorted(p);
    var t := PyTake(s, maxBlocks);
    assert t[i] == s[i];
    assert s[i] in multiset(p);
    var x := Scored(b, FallbackScore(b, kws));
    assert x in multiset(s);
    var j :| 0 <= j < |s| && s[j] == x;
    assert t[j] == x;
    assert ItemsOf(t)[j] == b;
  }

  /** With room for all the scoring blocks, every one of them is selected. */
  lemma AllScoringSelected(job: Job, bs: seq<StoredBlock>, maxBlocks: int, b: StoredBlock)
    requires maxBlocks >= |PositiveScored(bs, JobKeywords(job, true))|
    requires b in bs && FallbackScore(b, JobKeywords(job, true)) > 0
    ensures b in SelectFallback(job, bs, maxBlocks)
  {
    RoomForAll(bs, JobKeywords(job, true), maxBlocks, b);
  }

  lemma RoomForAll(bs: seq<StoredBlock>, kws: set<string>, maxBlocks: int, b: StoredBlock)
    requires maxBlocks >= |PositiveScored(bs, kws)|
    requires b in bs && FallbackScore(b, kws) > 0
    ensures b in SelectScoring(bs, kws, maxBlocks)
  {
    var p := PositiveScored(bs, kws);
    var s := SortDesc(p);
    assert PyTake(s, maxBlocks) == s;
    var x := Scored(b, FallbackScore(b, kws));
    assert x in multiset(s);
    var j :| 0 <= j < |s| && s[j] == x;
    assert ItemsOf(s)[j] == b;
  }

  // ----------------------------------------------------------------- ranking

  /** `min(100.0, score * 10)`. */
  function Normalized(raw: nat): (n: nat)
    ensures n <= 100
    ensures raw < 10 ==> n == 10 * raw
    ensures raw >= 10 ==> n == 100
  {
    if 10 * raw < 100 then 10 * raw else 100
  }

  /** A higher raw score never normalises lower; 100 is reached exactly from
      ten points on, and 0 only from no point at all. */
  lemma NormalizedMonotone(a: nat, b: nat)
    requires a <= b
    ensures Normalized(a) <= Normalized(b)
    ensures Normalized(b) == 100 <==> b >= 10
    ensures Normalized(a) == 0 <==> a == 0
  {
  }

  /** Each block's id with its normalised score, in input order. */
  function RankEntries(bs: seq<StoredBlock>, kws: set<string>): (r: seq<Scored<int>>)
    ensures |r| == |bs|
    ensures forall i | 0 <= i < |bs| :: r[i] == Scored(bs[i].id, Normalized(FallbackScore(bs[i], kws)))
  {
    seq(|bs|, i requires 0 <= i < |bs| => Scored(bs[i].id, Normalized(FallbackScore(bs[i], kws))))
  }

  /** The ranking of every block against a job: `ValueError` when the job was
      not found, otherwise every block's id and score, highest first. */
  function RankingOf(job: Option<Job>, bs: seq<StoredBlock>): Result<seq<Scored<int>>> {
    if job.None? then Err("ValueError")
    else Ok(SortDesc(RankEntries(bs, JobKeywords(job.value, false))))
  }

  method RankBlocks(job: Option<Job>, blocks: seq<StoredBlock>) returns (r: Result<seq<Scored<int>>>)
    ensures r == RankingOf(job, blocks)
  {
    if job.None? {
      return Err("ValueError");
    }
    var kws := JobKeywords(job.value, false);
    var ranked: seq<Scored<int>> := [];
    for i := 0 to |blocks|
      invariant ranked == RankEntries(blocks[..i], kws)
    {
      var score := ScoreBlock(blocks[i], kws);
      ranked := ranked + [Scored(blocks[i].id, Normalized(score))];
    }
    assert blocks[..|blocks|] == blocks;
    r := Ok(SortDesc(ranked));
  }

  /** Every block appears in the ranking exactly once, with its id and its
      normalised score against the job's keywords without the role words;
      every score lies in 0..100, and the scores do not increase. */
  lemma RankingShape(job: Job, bs: seq<StoredBlock>)
    ensures var r := RankingOf(Some(job), bs).value;
            && |r| == |bs|
            && multiset(r) == multiset(RankEntries(bs, JobKeywords(job, false)))
            && (forall i | 0 <= i < |bs| ::
                  Scored(bs[i].id, Normalized(FallbackScore(bs[i], JobKeywords(job, false)))) in r)
            && (forall i | 0 <= i < |r| :: 0 <= r[i].score <= 100)
            && SortedDesc(r)
  {
    var e := RankEntries(bs, JobKeywords(job, false));
    var r := SortDesc(e);
    SortDescSorted(e);
    assert |r| == |multiset(r)| == |multiset(e)| == |e|;
    forall i | 0 <= i < |bs|
      ensures Scored(bs[i].id, Normalized(FallbackScore(bs[i], JobKeywords(job, false)))) in r
    {
      assert e[i] in multiset(e);
    }
    forall i | 0 <= i < |r| ensures 0 <= r[i].score <= 100 {
      assert r[i] in multiset(e);
    }
  }

  // ---------------------------------------------------------------- escaping

  /** The escapes applied to every string put into the document, in the order
      they are applied; the backslash comes last. */
  const REPLACEMENTS: seq<(char, string)> := [
    ('&', "\\&"), ('%', "\\%"), ('$', "\\$"), ('#', "\\#"), ('_', "\\_"),
    ('{', "\\{"), ('}', "\\}"), ('~', "\\textasciitilde{}"), ('^', "\\textasciicircum{}"),
    ('\\', "\\textbackslash{}")]

  /** The text after the first `k` replacements, each over the whole string. */
  function EscapeUpTo(text: string, k: nat): string
    requires k <= |REPLACEMENTS|
  {
    if k == 0 then text
    else ReplaceAll(EscapeUpTo(text, k - 1), [REPLACEMENTS[k - 1].0], REPLACEMENTS[k - 1].1)
  }

  function EscapeOf(text: string): string {
    EscapeUpTo(text, |REPLACEMENTS|)
  }

  method EscapeLatex(text: string) returns (r: string)
    ensures r == EscapeOf(text)
  {
    r := text;
    for k := 0 to |REPLACEMENTS|
      invariant r == EscapeUpTo(text, k)
    {
      r := ReplaceAll(r, [REPLACEMENTS[k].0], REPLACEMENTS[k].1);
    }
  }

  /** Text with none of the ten special characters comes back unchanged. */
  lemma {:induction false} EscapePlain(text: string, k: nat)
    requires k <= |REPLACEMENTS|
    requires forall j | 0 <= j < |REPLACEMENTS| :: REPLACEMENTS[j].0 !in text
    ensures EscapeUpTo(text, k) == text
  {
    if k > 0 {
      EscapePlain(text, k - 1);
      CharAbsent(text, REPLACEMENTS[k - 1].0);
      ReplaceAbsent(text, [REPLACEMENTS[k - 1].0], REPLACEMENTS[k - 1].1);
    }
  }

  /** No `~` or `^` survives escaping: the last three replacements remove them
      and never bring them back. */
  lemma EscapeRemovesTildeCaret(text: string)
    ensures '~' !in EscapeOf(text) && '^' !in EscapeOf(text)
  {
    EscapeRemovesTilde(text);
    EscapeRemovesCaret(text);
  }

  lemma EscapeRemovesTilde(text: string)
    ensures '~' !in EscapeOf(text)
  {
    var s7 := EscapeUpTo(text, 7);
    var s8 := ReplaceAll(s7, "~", "\\textasciitilde{}");
    ReplaceCharRemoves(s7, '~', "\\textasciitilde{}");
    assert EscapeUpTo(text, 8) == s8;
    var s9 := ReplaceAll(s8, "^", "\\textasciicircum{}");
    ReplaceKeepsAbsent(s8, "^", "\\textasciicircum{}", '~');
    assert EscapeUpTo(text, 9) == s9;
    ReplaceKeepsAbsent(s9, "\\", "\\textbackslash{}", '~');
  }

  lemma EscapeRemovesCaret(text: string)
    ensures '^' !in EscapeOf(text)
  {
    var s8 := EscapeUpTo(text, 8);
    var s9 := ReplaceAll(s8, "^", "\\textasciicircum{}");
    ReplaceCharRemoves(s8, '^', "\\textasciicircum{}");
    assert EscapeUpTo(text, 9) == s9;
    ReplaceKeepsAbsent(s9, "\\", "\\textbackslash{}", '^');
  }

  /** Because the backslash is escaped last, the backslash that the first
      replacement put before `&` is itself rewritten: `&` ends up as
      `\textbackslash{}&`, not `\&`. */
  lemma EscapeAmpersand()
    ensures EscapeOf("&") == "\\textbackslash{}&"
  {
    var s1 := "\\&";
    assert ReplaceAll("&", "&", s1) == s1 + ReplaceAll([], "&", s1);
    assert EscapeUpTo("&", 1) == s1;
    forall j | 1 <= j < 9 ensures REPLACEMENTS[j].0 !in s1 {
    }
    EscapeKeeps("&", s1, 1, 9);
    var bs := "\\textbackslash{}";
    assert StartsWith(s1, "\\");
    assert s1[1..] == "&";
    assert !StartsWith("&", "\\");
    assert ReplaceAll("&", "\\", bs) == "&" + ReplaceAll([], "\\", bs);
    assert ReplaceAll(s1, "\\", bs) == bs + "&";
  }

  /** Replacements `from` up to `to` leave alone a string holding none of their characters. */
  lemma {:induction false} EscapeKeeps(text: string, s: string, from: nat, to: nat)
    requires from <= to <= |REPLACEMENTS|
    requires EscapeUpTo(text, from) == s
    requires forall j | from <= j < to :: REPLACEMENTS[j].0 !in s
    ensures EscapeUpTo(text, to) == s
    decreases (to as int) - (from as int)
  {
    if from < to {
      CharAbsent(s, REPLACEMENTS[from].0);
      ReplaceAbsent(s, [REPLACEMENTS[from].0], REPLACEMENTS[from].1);
      EscapeKeeps(text, s, from + 1, to);
    }
  }

  // ------------------------------------------------------------------- LaTeX

  /** The fixed start of every document, up to the first section. */
  const PREAMBLE: string :=
    "\\documentclass[11pt,a4paper]{article}\n\\usepackage[utf8]{inputenc}\n"
    + "\\usepackage[margin=1in]{geometry}\n\\usepackage{enumitem}\n\\usepackage{hyperref}\n\n"
    + "\\begin{document}\n\n\\section*{Professional Experience}\n\n"

  const END_DOCUMENT: string := "\\end{document}"

  /** A block's section heading: its category, or `General` when it has none. */
  function SectionOf(b: StoredBlock): string {
    if b.category == "" then "General" else b.category
  }

  const BySection: StoredBlock -> string := (b: StoredBlock) => SectionOf(b)

  function ItemLine(b: StoredBlock): string {
    "  \\item " + EscapeOf(b.content) + "\n"
  }

  /** The concatenation of the texts `f` renders for each element, in order. */
  function Render<T>(xs: seq<T>, f: T -> string): string {
    if xs == [] then [] else Render(xs[..|xs| - 1], f) + f(xs[|xs| - 1])
  }

  function ItemLines(bs: seq<StoredBlock>): string {
    Render(bs, ItemLine)
  }

  function SectionHead(category: string): string {
    "\\subsection*{" + EscapeOf(category) + "}\n\n" + "\\begin{itemize}[leftmargin=*]\n"
  }

  const SECTION_END: string := "\\end{itemize}\n\n"

  /** One category's subsection with an itemised list of its blocks. */
  function Section(g: Group<string, StoredBlock>): string {
    SectionHead(g.key) + ItemLines(g.members) + SECTION_END
  }

  function Sections(gs: seq<Group<string, StoredBlock>>): string {
    Render(gs, Section)
  }

  /** The document: the preamble, one subsection per category in order of first
      appearance, and the closing `\end{document}`. */
  function LatexOf(bs: seq<StoredBlock>): string {
    PREAMBLE + Sections(GroupBy(bs, BySection)) + END_DOCUMENT
  }

  /** The grouping loop: blocks by section heading, in insertion order. */
  method GroupBySection(blocks: seq<StoredBlock>) returns (categories: seq<Group<string, StoredBlock>>)
    ensures categories == GroupBy(blocks, BySection)
  {
    categories := [];
    for i := 0 to |blocks|
      invariant categories == GroupBy(blocks[..i], BySection)
    {
      assert blocks[..i + 1][..i] == blocks[..i];
      categories := AddTo(categories, SectionOf(blocks[i]), blocks[i]);
    }
    assert blocks[..|blocks|] == blocks;
  }

  /** One subsection: its heading, an item per block in order, and the list's end. */
  method RenderSection(g: Group<string, StoredBlock>) returns (out: string)
    ensures out == Section(g)
  {
    var heading := EscapeLatex(g.key);
    out := "\\subsection*{" + heading + "}\n\n";
    out := out + "\\begin{itemize}[leftmargin=*]\n";
    ghost var head := out;
    for j := 0 to |g.members|
      invariant out == head + ItemLines(g.members[..j])
    {
      assert g.members[..j + 1][..j] == g.members[..j];
      var content := EscapeLatex(g.members[j].content);
      out := out + "  \\item " + content + "\n";
    }
    assert g.members[..|g.members|] == g.members;
    out := out + SECTION_END;
  }

  method GenerateLatex(blocks: seq<StoredBlock>) returns (latex: string)
    ensures latex == LatexOf(blocks)
  {
    var categories := GroupBySection(blocks);
    var body: string := [];
    for k := 0 to |categories|
      invariant body == Sections(categories[..k])
    {
      assert categories[..k + 1][..k] == categories[..k];
      var section := RenderSection(categories[k]);
      body := body + section;
    }
    assert categories[..|categories|] == categories;
    latex := PREAMBLE + body + END_DOCUMENT;
  }

  /** Whatever occurs in one element's text occurs in the whole rendering. */
  lemma {:induction false} RenderHas<T>(xs: seq<T>, f: T -> string, j: nat, sub: string)
    requires j < |xs| && Contains(f(xs[j]), sub)
    ensures Contains(Render(xs, f), sub)
  {
    var init := xs[..|xs| - 1];
    if j < |init| {
      assert xs[j] == init[j];
      RenderHas(init, f, j, sub);
      ContainsPrefix(Render(init, f), f(xs[|xs| - 1]), sub);
    } else {
      ContainsMiddle(Render(init, f), f(xs[j]), [], sub);
      assert Render(init, f) + f(xs[j]) + [] == Render(xs, f);
    }
  }

  lemma ContainsPrefix(a: string, b: string, sub: string)
    requires Contains(a, sub)
    ensures Contains(a + b, sub)
  {
    var i :| 0 <= i <= |a| && OccursAt(a, sub, i);
    assert (a + b)[i..i + |sub|] == a[i..i + |sub|];
    assert OccursAt(a + b, sub, i);
  }

  lemma ContainsSuffix(a: string, b: string)
    ensures Contains(a + b, b)
  {
    assert (a + b)[|a|..|a| + |b|] == b;
    assert OccursAt(a + b, b, |a|);
  }

  lemma ContainsMiddle(a: string, b: string, c: string, sub: string)
    requires Contains(b, sub)
    ensures Contains(a + b + c, sub)
  {
    var i :| 0 <= i <= |b| && OccursAt(b, sub, i);
    assert (a + b + c)[|a| + i..|a| + i + |sub|] == b[i..i + |sub|];
    assert OccursAt(a + b + c, sub, |a| + i);
  }

  /** The document opens with the preamble and closes with `\end{document}`. */
  lemma LatexFrame(bs: seq<StoredBlock>)
    ensures StartsWith(LatexOf(bs), PREAMBLE) && EndsWith(LatexOf(bs), END_DOCUMENT)
  {
    var mid := Sections(GroupBy(bs, BySection));
    assert (PREAMBLE + mid + END_DOCUMENT)[..|PREAMBLE|] == PREAMBLE;
    assert (PREAMBLE + mid + END_DOCUMENT)[|PREAMBLE + mid|..] == END_DOCUMENT;
  }

  /** Every block's escaped content appears in the document as an item. */
  lemma LatexHasEveryBlock(bs: seq<StoredBlock>, i: nat)
    requires i < |bs|
    ensures Contains(LatexOf(bs), ItemLine(bs[i]))
  {
    var gs := GroupBy(bs, BySection);
    GroupByCorrect(bs, BySection);
    var k := SectionOf(bs[i]);
    assert BySection(bs[i]) == k;
    var j :| 0 <= j < |gs| && KeysOf(gs)[j] == k;
    var members := gs[j].members;
    assert members == Having(bs, BySection, k);
    var m := HavingIndex(bs, BySection, i);
    SectionHasItem(gs[j], m);
    RenderHas(gs, Section, j, ItemLine(bs[i]));
    ContainsMiddle(PREAMBLE, Sections(gs), END_DOCUMENT, ItemLine(bs[i]));
  }

  /** A subsection lists each of its blocks as an item. */
  lemma SectionHasItem(g: Group<string, StoredBlock>, m: nat)
    requires m < |g.members|
    ensures Contains(Section(g), ItemLine(g.members[m]))
  {
    var item := ItemLine(g.members[m]);
    ContainsSelf(item);
    RenderHas(g.members, ItemLine, m, item);
    ContainsMiddle(SectionHead(g.key), ItemLines(g.members), SECTION_END, item);
  }

  /** Where the `i`-th element sits among those sharing its key. */
  lemma {:induction false} HavingIndex<T, K>(xs: seq<T>, key: T -> K, i: nat) returns (m: nat)
    requires i < |xs|
    ensures m < |Having(xs, key, key(xs[i]))| && Having(xs, key, key(xs[i]))[m] == xs[i]
  {
    var init := xs[..|xs| - 1];
    if i < |init| {
      assert init[i] == xs[i];
      m := HavingIndex(init, key, i);
    } else {
      m := |Having(init, key, key(xs[i]))|;
    }
  }
}
