/** The one-off importer of the CV document (backend/import_cv_data.py): a
    single pass over the document's lines that keeps the current category and
    emits a block for every `### ` title followed by a bold line, and the
    keyword extraction that tags each block with the technologies it names. */
module ImportCv {
  import opened Text
  import opened Collections

  // ----------------------------------------------------------- string order

  /** Python's `<` on strings: lexicographic by code point. */
  predicate StrLess(a: string, b: string)
    decreases |a|
  {
    if a == [] then b != []
    else b != [] && (a[0] < b[0] || (a[0] == b[0] && StrLess(a[1..], b[1..])))
  }

  lemma {:induction false} StrLessTransitive(a: string, b: string, c: string)
    requires StrLess(a, b) && StrLess(b, c)
    ensures StrLess(a, c)
    decreases |a|
  {
    if a != [] && a[0] == b[0] && b[0] == c[0] {
      StrLessTransitive(a[1..], b[1..], c[1..]);
    }
  }

  lemma {:induction false} StrLessIrreflexive(a: string)
    ensures !StrLess(a, a)
    decreases |a|
  {
    if a != [] {
      StrLessIrreflexive(a[1..]);
    }
  }

  /** Strictly increasing: sorted and free of duplicates. */
  predicate StrictlySorted(xs: seq<string>) {
    forall i, j | 0 <= i < j < |xs| :: StrLess(xs[i], xs[j])
  }

  lemma {:induction false} AdjacentSorted(xs: seq<string>)
    requires forall i | 0 <= i < |xs| - 1 :: StrLess(xs[i], xs[i + 1])
    ensures StrictlySorted(xs)
    decreases |xs|
  {
    if |xs| > 1 {
      var rest := xs[1..];
      AdjacentSorted(rest);
      forall j | 1 <= j < |xs| ensures StrLess(xs[0], xs[j]) {
        if j > 1 {
          assert StrLess(rest[0], rest[j - 1]);
          StrLessTransitive(xs[0], xs[1], xs[j]);
        }
      }
      forall i, j | 0 <= i < j < |xs| ensures StrLess(xs[i], xs[j]) {
        if i > 0 {
          assert StrLess(rest[i - 1], rest[j - 1]);
        }
      }
    }
  }

  lemma {:induction false} SortedDistinct(xs: seq<string>)
    requires StrictlySorted(xs)
    ensures NoDup(xs)
  {
    forall i, j | 0 <= i < j < |xs| ensures xs[i] != xs[j] {
      if xs[i] == xs[j] {
        StrLessIrreflexive(xs[i]);
      }
    }
  }

  lemma {:induction false} FilterSorted(xs: seq<string>, p: string -> bool)
    requires StrictlySorted(xs)
    ensures StrictlySorted(Filter(xs, p))
    decreases |xs|
  {
    if xs != [] {
      var rest := Filter(xs[1..], p);
      assert StrictlySorted(xs[1..]) by {
        forall i, j | 0 <= i < j < |xs[1..]| ensures StrLess(xs[1..][i], xs[1..][j]) {
          assert xs[1..][i] == xs[i + 1] && xs[1..][j] == xs[j + 1];
        }
      }
      FilterSorted(xs[1..], p);
      if p(xs[0]) {
        var r := [xs[0]] + rest;
        forall i, j | 0 <= i < j < |r| ensures StrLess(r[i], r[j]) {
          if i == 0 {
            assert r[j] == rest[j - 1] && rest[j - 1] in xs[1..];
            var k :| 0 <= k < |xs[1..]| && xs[1..][k] == rest[j - 1];
            assert xs[k + 1] == r[j];
          } else {
            assert r[i] == rest[i - 1] && r[j] == rest[j - 1];
          }
        }
      }
    }
  }

  // ------------------------------------------------------- skill extraction

  /** The technology names the extractor looks for, kept in code-point order;
      the extractor collects them in a set, so the order it scans them in does
      not change its result. */
  const TECH_KEYWORDS: seq<string> := [
    "API", "AWS", "Bootstrap", "CDK", "CI/CD", "CloudFormation", "Django", "Docker", "DynamoDB",
    "EMR", "ETL", "ElasticSearch", "FastAPI", "Java", "JavaScript", "Kotlin", "Kubernetes",
    "Lambda", "ML", "Machine Learning", "PostgreSQL", "Python", "REST", "React", "S3", "SQL",
    "SageMaker", "Scala", "Spark", "Spring", "SpringMVC", "TensorFlow", "TypeScript",
    "batch processing", "data pipeline", "microservices", "real-time"]

  /** Each keyword is below the next one, compared character by character;
      the comparisons are split in four only to keep each proof small. */
  lemma TechKeywordsAdjacent0()
    ensures forall i | 0 <= i < 9 :: StrLess(TECH_KEYWORDS[i], TECH_KEYWORDS[i + 1])
  {
  }

  lemma TechKeywordsAdjacent1()
    ensures forall i | 9 <= i < 18 :: StrLess(TECH_KEYWORDS[i], TECH_KEYWORDS[i + 1])
  {
  }

  lemma TechKeywordsAdjacent2()
    ensures forall i | 18 <= i < 27 :: StrLess(TECH_KEYWORDS[i], TECH_KEYWORDS[i + 1])
  {
  }

  lemma TechKeywordsAdjacent3()
    ensures forall i | 27 <= i < 36 :: StrLess(TECH_KEYWORDS[i], TECH_KEYWORDS[i + 1])
  {
  }

  lemma TechKeywordsSorted()
    ensures StrictlySorted(TECH_KEYWORDS)
  {
    TechKeywordsAdjacent0();
    TechKeywordsAdjacent1();
    TechKeywordsAdjacent2();
    TechKeywordsAdjacent3();
    AdjacentSorted(TECH_KEYWORDS);
  }

  /** A keyword is found when its lower-case form occurs in the lower-cased content. */
  predicate Mentions(content: string, keyword: string) {
    Contains(Lower(content), Lower(keyword))
  }

  /** The keywords of `table` that `content` mentions, in table order. */
  function MentionedIn(table: seq<string>, content: string): seq<string> {
    if table == [] then []
    else (if Mentions(content, table[0]) then [table[0]] else []) + MentionedIn(table[1..], content)
  }

  lemma {:induction false} MentionedIsFilter(table: seq<string>, content: string)
    ensures MentionedIn(table, content) == Filter(table, (k: string) => Mentions(content, k))
    decreases |table|
  {
    if table != [] {
      MentionedIsFilter(table[1..], content);
    }
  }

  /** `sorted(list(skills))`: the mentioned keywords in code-point order. */
  function SkillsOf(content: string): seq<string> {
    MentionedIn(TECH_KEYWORDS, content)
  }

  /** Over a strictly sorted table, the mentioned keywords are sorted,
      distinct, and exactly the table's keywords the content mentions. */
  lemma MentionedShape(table: seq<string>, content: string)
    requires StrictlySorted(table)
    ensures StrictlySorted(MentionedIn(table, content)) && NoDup(MentionedIn(table, content))
    ensures forall k :: k in MentionedIn(table, content) <==> k in table && Mentions(content, k)
  {
    MentionedIsFilter(table, content);
    FilterSorted(table, (k: string) => Mentions(content, k));
    SortedDistinct(MentionedIn(table, content));
  }

  /** The extracted skills are sorted, distinct, and exactly the keywords the
      content mentions. */
  lemma SkillsOfShape(content: string)
    ensures StrictlySorted(SkillsOf(content)) && NoDup(SkillsOf(content))
    ensures forall k :: k in SkillsOf(content) <==> k in TECH_KEYWORDS && Mentions(content, k)
  {
    TechKeywordsSorted();
    MentionedShape(TECH_KEYWORDS, content);
  }

  lemma MentionsGrow(content: string, more: string, k: string)
    requires Mentions(content, k)
    ensures Mentions(content + more, k)
  {
    var l, l' := Lower(content), Lower(content + more);
    var i :| 0 <= i <= |l| && OccursAt(l, Lower(k), i);
    assert l'[i..i + |Lower(k)|] == l[i..i + |Lower(k)|];
    assert OccursAt(l', Lower(k), i);
  }

  lemma {:induction false} MentionedGrow(table: seq<string>, content: string, more: string)
    ensures IsSubseq(MentionedIn(table, content), MentionedIn(table, content + more))
    decreases |table|
  {
    if table != [] {
      var k := table[0];
      MentionedGrow(table[1..], content, more);
      var a, b := MentionedIn(table[1..], content), MentionedIn(table[1..], content + more);
      if Mentions(content, k) {
        MentionsGrow(content, more, k);
        assert MentionedIn(table, content) == [k] + a;
        assert MentionedIn(table, content + more) == [k] + b;
        assert ([k] + a)[1..] == a && ([k] + b)[1..] == b;
      } else if Mentions(content + more, k) {
        assert MentionedIn(table, content) == a;
        assert MentionedIn(table, content + more) == [k] + b;
        SubseqConsRight(a, b, k);
      } else {
        assert MentionedIn(table, content) == a;
        assert MentionedIn(table, content + more) == b;
      }
    }
  }

  /** Adding text never loses a skill: the skills of some content, in their
      order, are among the skills of any longer content that starts with it. */
  lemma SkillsGrow(content: string, more: string)
    ensures IsSubseq(SkillsOf(content), SkillsOf(content + more))
  {
    MentionedGrow(TECH_KEYWORDS, content, more);
  }

  method ExtractSkills(content: string) returns (skills: seq<string>)
    ensures skills == SkillsOf(content)
  {
    var found := CollectMentioned(TECH_KEYWORDS, content);
    skills := Filter(TECH_KEYWORDS, (k: string) => k in found);
    FoundInTableOrder(TECH_KEYWORDS, content, found);
  }

  /** The scanning loop: the set of the table's keywords whose lower-case
      form occurs in the lower-cased content. */
  method CollectMentioned(table: seq<string>, content: string) returns (found: set<string>)
    ensures found == set k | k in table && Mentions(content, k)
  {
    found := {};
    var contentLower := Lower(content);
    for i := 0 to |table|
      invariant found == set k | k in table[..i] && Mentions(content, k)
    {
      assert table[..i + 1] == table[..i] + [table[i]];
      if Contains(contentLower, Lower(table[i])) {
        found := found + {table[i]};
      }
    }
    assert table[..|table|] == table;
  }

  /** `sorted` over the found set gives the table's order when the table is
      itself sorted: the members of the set, read off the table. */
  lemma FoundInTableOrder(table: seq<string>, content: string, found: set<string>)
    requires found == set k | k in table && Mentions(content, k)
    ensures Filter(table, (k: string) => k in found) == MentionedIn(table, content)
  {
    FilterExt(table, (k: string) => k in found, (k: string) => Mentions(content, k));
    MentionedIsFilter(table, content);
  }

  // ------------------------------------------------------------ line reader

  /** A block read from the document. */
  datatype ImportedBlock = ImportedBlock(category: string, title: string, content: string, skills: seq<string>)

  /** What the reader carries from line to line: the blocks so far and the
      current category (`""` when none, which the reader treats like `None`). */
  datatype ImportState = ImportState(blocks: seq<ImportedBlock>, category: string)

  /** Sections that hold notes rather than achievements. */
  const METADATA_SECTIONS: seq<string> := ["NOTES ON CUSTOMIZATION", "ACHIEVEMENT THEMES BY COMPANY TYPE"]

  /** The regex substitution that deletes every heading glyph, wherever it is. */
  function RemoveGlyphs(s: string): (r: string)
    ensures forall c | c in r :: c in s && !IsHeadingGlyph(c)
  {
    Filter(s, (c: char) => !IsHeadingGlyph(c))
  }

  /** The content of a line wrapped in `**`: `next_line[2:-2].strip()`. */
  function BoldContent(line: string): (r: Option<string>)
    ensures r.Some? <==> StartsWith(line, "**") && EndsWith(line, "**")
    ensures r.Some? ==> Stripped(r.value)
  {
    if StartsWith(line, "**") && EndsWith(line, "**") then
      Some(Strip(line[2..if |line| >= 4 then |line| - 2 else 2]))
    else None
  }

  /** The content is the text between the two markers, stripped; when the
      markers overlap (`**`, `***`) the slice is empty. */
  lemma BoldContentText(line: string)
    requires BoldContent(line).Some?
    ensures |line| >= 4 ==> BoldContent(line).value == Strip(line[2..|line| - 2])
    ensures |line| < 4 ==> BoldContent(line).value == []
  {
  }

  predicate IsSkippedLine(line: string) {
    line == [] || StartsWith(line, "---") || StartsWith(line, "*Note:")
  }

  predicate IsCategoryLine(line: string) {
    StartsWith(line, "## ") && !StartsWith(line, "## Master")
  }

  /** The category a `## ` line names; metadata sections give none. */
  function CategoryOf(line: string): (r: string)
    requires StartsWith(line, "## ")
    ensures r !in METADATA_SECTIONS
  {
    var category := Strip(RemoveGlyphs(line[3..]));
    if category in METADATA_SECTIONS then "" else category
  }

  /** The category is the text after `## ` with every heading glyph deleted
      and then stripped, unless that text names a metadata section: it holds
      no glyph and no surrounding whitespace. */
  lemma CategoryOfText(line: string)
    requires StartsWith(line, "## ")
    ensures var r, named := CategoryOf(line), Strip(RemoveGlyphs(line[3..]));
            && (named !in METADATA_SECTIONS ==> r == named)
            && (named in METADATA_SECTIONS ==> r == [])
            && Stripped(r) && forall c | c in r :: !IsHeadingGlyph(c)
  {
    StripWithin(RemoveGlyphs(line[3..]));
  }

  /** What one line means to the reader: nothing, a new current category, or
      a title together with the bold content of the line after it, if any. */
  datatype LineEffect = Pass | Heading(category: string) | Title(title: string, content: Option<string>)

  /** A `### ` line is neither skipped nor a category heading. */
  lemma TitleLineKind(line: string)
    ensures StartsWith(line, "### ") ==> !IsSkippedLine(line) && !IsCategoryLine(line)
  {
    if StartsWith(line, "### ") {
      assert line[0] == "### "[0] && line[2] == "### "[2];
      assert !StartsWith(line, "---") by { assert "---"[0] != line[0]; }
      assert !StartsWith(line, "*Note:") by { assert "*Note:"[0] != line[0]; }
      assert !StartsWith(line, "## ") by { assert "## "[2] != line[2]; }
    }
  }

  /** The bold content of the line after `i`, if there is one. */
  function BoldAfter(lines: seq<string>, i: nat): (r: Option<string>)
    ensures r.Some? ==> Stripped(r.value)
  {
    if i + 1 < |lines| then BoldContent(Strip(lines[i + 1])) else None
  }

  /** The meaning of line `i`, which may look at line `i + 1`. */
  function EffectOf(lines: seq<string>, i: nat): (e: LineEffect)
    requires i < |lines|
    ensures IsSkippedLine(Strip(lines[i])) ==> e == Pass
    ensures e.Heading? <==> !IsSkippedLine(Strip(lines[i])) && IsCategoryLine(Strip(lines[i]))
    ensures e.Title? <==> StartsWith(Strip(lines[i]), "### ")
    ensures EffectOk(e)
  {
    var line := Strip(lines[i]);
    TitleLineKind(line);
    if IsSkippedLine(line) then Pass
    else if IsCategoryLine(line) then Heading(CategoryOf(line))
    else if StartsWith(line, "### ") then
      Title(Strip(line[4..]), BoldAfter(lines, i))
    else Pass
  }

  /** Headings never name a metadata section; titles and contents are stripped. */
  predicate EffectOk(e: LineEffect) {
    match e
    case Pass => true
    case Heading(category) => category !in METADATA_SECTIONS
    case Title(title, content) => Stripped(title) && (content.Some? ==> Stripped(content.value))
  }

  /** The reader applies one line's meaning to its state. */
  function Apply(e: LineEffect, st: ImportState): ImportState {
    match e
    case Pass => st
    case Heading(category) => st.(category := category)
    case Title(title, content) =>
      if st.category != [] && content.Some? then
        st.(blocks := st.blocks + [ImportedBlock(st.category, title, content.value, SkillsOf(content.value))])
      else st
  }

  function Effects(lines: seq<string>): (es: seq<LineEffect>)
    ensures |es| == |lines|
  {
    seq(|lines|, i requires 0 <= i < |lines| => EffectOf(lines, i))
  }

  /** The reader's state after the first `n` effects. */
  function Fold(es: seq<LineEffect>, n: nat): ImportState
    requires n <= |es|
  {
    if n == 0 then ImportState([], "") else Apply(es[n - 1], Fold(es, n - 1))
  }

  /** The blocks of a whole document. */
  function ParseLines(lines: seq<string>): seq<ImportedBlock> {
    Fold(Effects(lines), |lines|).blocks
  }

  /** One pass of the reader's loop: line `i` given the blocks so far and the
      current category. */
  method ReadLine(lines: seq<string>, i: nat, blocks: seq<ImportedBlock>, category: string)
    returns (blocks': seq<ImportedBlock>, category': string)
    requires i < |lines|
    ensures ImportState(blocks', category') == Apply(EffectOf(lines, i), ImportState(blocks, category))
  {
    blocks', category' := blocks, category;
    var line := Strip(lines[i]);
    TitleLineKind(line);
    if IsSkippedLine(line) {
      return;
    }
    if IsCategoryLine(line) {
      var name := Strip(RemoveGlyphs(line[3..]));
      if name in METADATA_SECTIONS {
        category' := "";
      } else {
        category' := name;
      }
      assert category' == CategoryOf(line);
      return;
    }
    if StartsWith(line, "### ") && category != [] {
      blocks' := ReadTitle(lines, i, blocks, category);
    }
  }

  /** The title branch of the loop, under a current category. */
  method ReadTitle(lines: seq<string>, i: nat, blocks: seq<ImportedBlock>, category: string)
    returns (blocks': seq<ImportedBlock>)
    requires i < |lines| && StartsWith(Strip(lines[i]), "### ") && category != []
    ensures ImportState(blocks', category) == Apply(Title(Strip(Strip(lines[i])[4..]), BoldAfter(lines, i)), ImportState(blocks, category))
  {
    var title := Strip(Strip(lines[i])[4..]);
    var content := BoldAfter(lines, i);
    blocks' := blocks;
    if content.Some? {
      var skills := ExtractSkills(content.value);
      blocks' := blocks + [ImportedBlock(category, title, content.value, skills)];
    }
  }

  lemma FoldStep(lines: seq<string>, i: nat)
    requires i < |lines|
    ensures Fold(Effects(lines), i + 1) == Apply(EffectOf(lines, i), Fold(Effects(lines), i))
  {
  }

  /** `parse_markdown_file` once the file's lines are read. */
  method ParseMarkdownLines(lines: seq<string>) returns (blocks: seq<ImportedBlock>)
    ensures blocks == ParseLines(lines)
  {
    blocks := [];
    var category := "";
    for i := 0 to |lines|
      invariant ImportState(blocks, category) == Fold(Effects(lines), i)
    {
      FoldStep(lines, i);
      blocks, category := ReadLine(lines, i, blocks, category);
    }
  }

  /** Every block carries a real category (never a metadata section), a
      stripped title and content, and the skills its content mentions. */
  predicate WellFormedBlock(b: ImportedBlock) {
    && b.category != [] && b.category !in METADATA_SECTIONS
    && Stripped(b.title) && Stripped(b.content)
    && b.skills == SkillsOf(b.content)
  }

  lemma {:induction false} FoldWellFormed(es: seq<LineEffect>, n: nat)
    requires n <= |es| && forall k | 0 <= k < |es| :: EffectOk(es[k])
    ensures Fold(es, n).category !in METADATA_SECTIONS
    ensures forall k | 0 <= k < |Fold(es, n).blocks| :: WellFormedBlock(Fold(es, n).blocks[k])
  {
    if n > 0 {
      FoldWellFormed(es, n - 1);
    }
  }

  /** A line the reader takes as a category heading, metadata or not. */
  predicate IsHeadingLine(line: string) {
    !IsSkippedLine(line) && IsCategoryLine(line)
  }

  /** Line `j` of the document is a category heading. */
  predicate HeadingAt(lines: seq<string>, j: nat)
    requires j < |lines|
  {
    IsHeadingLine(Strip(lines[j]))
  }

  /** None of the effects strictly between `h` and `i` is a heading. */
  predicate NoHeadingEffect(es: seq<LineEffect>, h: nat, i: nat)
    requires h < i <= |es|
    decreases i - h
  {
    i == h + 1 || (!es[i - 1].Heading? && NoHeadingEffect(es, h, i - 1))
  }

  /** Line `h` is a heading naming `category`, and the reader takes no line
      after it and before line `i` as a heading (`EffectParts`: the heading
      effects are exactly the heading lines). */
  predicate LastHeadingBefore(lines: seq<string>, h: nat, i: nat, category: string) {
    && h < i <= |lines|
    && HeadingAt(lines, h) && CategoryOf(Strip(lines[h])) == category
    && NoHeadingEffect(Effects(lines), h, i)
  }

  /** Block `b` was read at line `i`: a `### ` line whose text is the title,
      followed by a line whose bold content is the content, under the last
      heading before it, which names the category. */
  predicate ReadAt(lines: seq<string>, b: ImportedBlock, i: nat) {
    && i < |lines| && StartsWith(Strip(lines[i]), "### ")
    && b.title == Strip(Strip(lines[i])[4..])
    && BoldAfter(lines, i) == Some(b.content)
    && exists h: nat | h < i :: LastHeadingBefore(lines, h, i, b.category)
  }

  /** What line `i` means, in terms of the line itself. */
  lemma EffectParts(lines: seq<string>, i: nat)
    requires i < |lines|
    ensures EffectOf(lines, i).Heading? <==> HeadingAt(lines, i)
    ensures EffectOf(lines, i).Heading? ==> EffectOf(lines, i).category == CategoryOf(Strip(lines[i]))
    ensures EffectOf(lines, i).Title? ==>
              && StartsWith(Strip(lines[i]), "### ")
              && EffectOf(lines, i).title == Strip(Strip(lines[i])[4..])
              && EffectOf(lines, i).content == BoldAfter(lines, i)
  {
  }

  /** Block `b` came from effect `i`, a title under the last heading before it. */
  predicate FromEffect(es: seq<LineEffect>, b: ImportedBlock, i: nat) {
    && i < |es| && es[i] == Title(b.title, Some(b.content))
    && exists h: nat | h < i :: es[h] == Heading(b.category) && NoHeadingEffect(es, h, i)
  }

  /** The current category after `n` effects is the one the last heading named. */
  lemma {:induction false} CategoryTrace(es: seq<LineEffect>, n: nat)
    requires n <= |es|
    ensures Fold(es, n).category != [] ==>
              exists h: nat | h < n :: es[h] == Heading(Fold(es, n).category) && NoHeadingEffect(es, h, n)
  {
    if n > 0 {
      CategoryTrace(es, n - 1);
      var st0, st := Fold(es, n - 1), Fold(es, n);
      if es[n - 1].Heading? {
        if st.category != [] {
          assert es[n - 1] == Heading(st.category) && NoHeadingEffect(es, n - 1, n);
        }
      } else if st0.category != [] {
        var h: nat :| h < n - 1 && es[h] == Heading(st0.category) && NoHeadingEffect(es, h, n - 1);
        assert NoHeadingEffect(es, h, n);
      }
    }
  }

  /** Block `k` after `n` effects came from one of them: `i` is the one. */
  lemma {:induction false} BlockOrigin(es: seq<LineEffect>, n: nat, k: nat) returns (i: nat)
    requires n <= |es| && k < |Fold(es, n).blocks|
    ensures i < n && FromEffect(es, Fold(es, n).blocks[k], i)
  {
    assert n > 0;
    var st0, st := Fold(es, n - 1), Fold(es, n);
    if k < |st0.blocks| {
      assert st.blocks[k] == st0.blocks[k];
      i := BlockOrigin(es, n - 1, k);
    } else {
      var e := es[n - 1];
      assert e.Title? && st0.category != [] && e.content.Some?;
      var b := ImportedBlock(st0.category, e.title, e.content.value, SkillsOf(e.content.value));
      assert st.blocks == st0.blocks + [b] && st.blocks[k] == b;
      CategoryTrace(es, n - 1);
      var h: nat :| h < n - 1 && es[h] == Heading(b.category) && NoHeadingEffect(es, h, n - 1);
      assert FromEffect(es, b, n - 1);
      i := n - 1;
    }
  }

  /** A block that came from effect `i` of a document was read at its line `i`. */
  lemma FromEffectReadAt(lines: seq<string>, b: ImportedBlock, i: nat)
    requires FromEffect(Effects(lines), b, i)
    ensures ReadAt(lines, b, i)
  {
    var es := Effects(lines);
    var h: nat :| h < i && es[h] == Heading(b.category) && NoHeadingEffect(es, h, i);
    assert es[i] == EffectOf(lines, i) && es[h] == EffectOf(lines, h);
    EffectParts(lines, i);
    EffectParts(lines, h);
    assert LastHeadingBefore(lines, h, i, b.category);
  }

  /** Whatever the document, every block read from it is well formed. */
  lemma ImportedWellFormed(lines: seq<string>)
    ensures forall k | 0 <= k < |ParseLines(lines)| :: WellFormedBlock(ParseLines(lines)[k])
  {
    FoldWellFormed(Effects(lines), |lines|);
  }

  /** Every block read from a document was read at one of its `### ` lines:
      its title is that line's text, its content the bold content of the next
      line, and its category the one the last heading before it names. */
  lemma ImportedFromSource(lines: seq<string>, k: nat) returns (i: nat)
    requires k < |ParseLines(lines)|
    ensures ReadAt(lines, ParseLines(lines)[k], i)
  {
    i := BlockOrigin(Effects(lines), |lines|, k);
    FromEffectReadAt(lines, ParseLines(lines)[k], i);
  }

  /** The number of title effects among the first `n`. */
  function TitleCount(es: seq<LineEffect>, n: nat): nat
    requires n <= |es|
  {
    if n == 0 then 0 else TitleCount(es, n - 1) + (if es[n - 1].Title? then 1 else 0)
  }

  lemma {:induction false} FoldBounded(es: seq<LineEffect>, n: nat)
    requires n <= |es|
    ensures |Fold(es, n).blocks| <= TitleCount(es, n)
  {
    if n > 0 {
      FoldBounded(es, n - 1);
    }
  }

  /** Each block comes from its own `### ` line: there are no more blocks than
      title lines. */
  lemma BlocksBounded(lines: seq<string>)
    ensures |ParseLines(lines)| <= TitleCount(Effects(lines), |lines|)
    ensures forall i | 0 <= i < |lines| :: Effects(lines)[i].Title? <==> StartsWith(Strip(lines[i]), "### ")
  {
    FoldBounded(Effects(lines), |lines|);
  }

  /** Blocks are only ever added: the blocks after an effect start with the
      blocks before it. */
  lemma LineGrows(es: seq<LineEffect>, i: nat)
    requires i < |es|
    ensures Fold(es, i).blocks <= Fold(es, i + 1).blocks
  {
  }

  /** Skipped lines (blank, rules, notes) change nothing, whatever comes before. */
  lemma SkippedLineInert(lines: seq<string>, i: nat)
    requires i < |lines| && IsSkippedLine(Strip(lines[i]))
    ensures Fold(Effects(lines), i + 1) == Fold(Effects(lines), i)
  {
  }

  /** A heading naming a metadata section clears the current category. */
  lemma MetadataHeadingClears(lines: seq<string>, i: nat)
    requires i < |lines| && !IsSkippedLine(Strip(lines[i])) && IsCategoryLine(Strip(lines[i]))
    requires Strip(RemoveGlyphs(Strip(lines[i])[3..])) in METADATA_SECTIONS
    ensures EffectOf(lines, i) == Heading("")
  {
  }

  /** Once the category is cleared, no block is emitted until the next heading. */
  lemma {:induction false} NoCategorySilent(es: seq<LineEffect>, h: nat, n: nat)
    requires h < n <= |es| && es[h] == Heading("")
    requires forall j | h < j < n :: !es[j].Heading?
    ensures Fold(es, n).blocks == Fold(es, h).blocks
    ensures Fold(es, n).category == ""
    decreases n - h
  {
    if n > h + 1 {
      NoCategorySilent(es, h, n - 1);
    }
  }
}
