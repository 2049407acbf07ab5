/** The line-oriented reader that turns the achievements document into blocks
    (backend/lego_blocks.py, `import_from_markdown`), as a function over the
    document's lines. The class that stores the result is in LegoManager. */
module LegoParser {
  import opened Text
  import opened Collections
  import opened LegoInference

  /** `lstrip` of the decorative glyph class: drop leading heading glyphs. */
  function DropGlyphs(s: string): (r: string)
    ensures |r| <= |s| && r == s[|s| - |r|..]
    ensures r == [] || !IsHeadingGlyph(r[0])
    ensures forall k | 0 <= k < |s| - |r| :: IsHeadingGlyph(s[k])
  {
    if s != [] && IsHeadingGlyph(s[0]) then DropGlyphs(s[1..]) else s
  }

  /** The markup `^##\s+[glyphs]*\s*` of a heading line, split at its parts:
      `line[3..i]` is the whitespace after `##` up to the first non-space,
      `line[i..j]` the longest run of glyphs there, and `line[j..m]` whitespace. */
  predicate HeadingMarkup(line: string, i: nat, j: nat, m: nat)
    requires 3 <= i <= j <= m <= |line|
  {
    && (forall k | 3 <= k < i :: IsSpace(line[k])) && (i == |line| || !IsSpace(line[i]))
    && (forall k | i <= k < j :: IsHeadingGlyph(line[k])) && (j == |line| || !IsHeadingGlyph(line[j]))
    && (forall k | j <= k < m :: IsSpace(line[k]))
  }

  /** The category named by a `## ` heading line: the `##`, the whitespace after
      it, a run of heading glyphs and the whitespace after that are removed, and
      the rest is stripped. */
  function CleanCategory(line: string): (r: string)
    requires StartsWith(line, "## ")
    ensures |r| <= |line| - 3
    ensures r == [] || (!IsSpace(r[0]) && !IsSpace(r[|r| - 1]))
  {
    // `^##\s+` consumes the space the prefix test saw and any whitespace after it.
    Strip(DropGlyphs(TrimLeft(line[3..])))
  }

  /** The cleaned category is exactly what follows the heading's markup, up to
      the trailing whitespace: nothing but the markup is removed in front. */
  lemma CleanCategorySpec(line: string)
    requires StartsWith(line, "## ")
    ensures exists i, j, m, e | 3 <= i <= j <= m <= e <= |line| ::
              && HeadingMarkup(line, i, j, m) && CleanCategory(line) == line[m..e]
              && forall k | e <= k < |line| :: IsSpace(line[k])
  {
    var i, j, m, e := MarkupEnds(line);
  }

  /** Where the parts of a heading's markup end, as `TrimLeft`, `DropGlyphs` and
      `Strip` find them. */
  lemma MarkupEnds(line: string) returns (i: nat, j: nat, m: nat, e: nat)
    requires StartsWith(line, "## ")
    ensures 3 <= i <= j <= m <= e <= |line| && HeadingMarkup(line, i, j, m)
    ensures CleanCategory(line) == line[m..e]
    ensures forall k | e <= k < |line| :: IsSpace(line[k])
  {
    i := TrimAt(line, 3);
    j := DropAt(line, i);
    m, e := StripAt(line, j);
    CleanAt(line, i, j);
  }

  /** The cleaned category is `line[j:].strip()` once the markup's ends are known. */
  lemma CleanAt(line: string, i: nat, j: nat)
    requires StartsWith(line, "## ") && i <= j <= |line|
    requires TrimLeft(line[3..]) == line[i..] && DropGlyphs(line[i..]) == line[j..]
    ensures CleanCategory(line) == Strip(line[j..])
  {
  }

  /** `line[a:].lstrip()` is `line[i:]`, with only whitespace in `line[a..i]`. */
  lemma TrimAt(line: string, a: nat) returns (i: nat)
    requires a <= |line|
    ensures a <= i <= |line| && TrimLeft(line[a..]) == line[i..]
    ensures forall k | a <= k < i :: IsSpace(line[k])
    ensures i == |line| || !IsSpace(line[i])
  {
    var t := TrimLeft(line[a..]);
    i := |line| - |t|;
    assert t == line[a..][i - a..] == line[i..];
    SliceHolds(line, a, line[a..], 0, i - a, IsSpace);
    assert i < |line| ==> line[i] == t[0];
  }

  /** Dropping the leading glyphs of `line[i:]` leaves `line[j:]`, with only
      glyphs in `line[i..j]`. */
  lemma DropAt(line: string, i: nat) returns (j: nat)
    requires i <= |line|
    ensures i <= j <= |line| && DropGlyphs(line[i..]) == line[j..]
    ensures forall k | i <= k < j :: IsHeadingGlyph(line[k])
    ensures j == |line| || !IsHeadingGlyph(line[j])
  {
    var t := DropGlyphs(line[i..]);
    j := |line| - |t|;
    assert t == line[i..][j - i..] == line[j..];
    SliceHolds(line, i, line[i..], 0, j - i, IsHeadingGlyph);
    assert j < |line| ==> line[j] == t[0];
  }

  /** `line[j:].strip()` is `line[m..e]`, with only whitespace around it in `line[j..]`. */
  lemma StripAt(line: string, j: nat) returns (m: nat, e: nat)
    requires j <= |line|
    ensures j <= m <= e <= |line| && Strip(line[j..]) == line[m..e]
    ensures forall k | j <= k < m :: IsSpace(line[k])
    ensures forall k | e <= k < |line| :: IsSpace(line[k])
  {
    m := TrimAt(line, j);
    e := TrimRightAt(line, m);
  }

  /** `line[m:].rstrip()` is `line[m..e]`, with only whitespace after `e`. */
  lemma TrimRightAt(line: string, m: nat) returns (e: nat)
    requires m <= |line|
    ensures m <= e <= |line| && TrimRight(line[m..]) == line[m..e]
    ensures forall k | e <= k < |line| :: IsSpace(line[k])
  {
    var t := line[m..];
    var r := TrimRight(t);
    e := m + |r|;
    assert r == t[..|r|] == line[m..e];
    SliceHolds(line, m, t, |r|, |t|, IsSpace);
  }

  /** A property of every character of a range of a suffix `t` of `line` holds
      of the same characters of `line`. */
  lemma SliceHolds(line: string, a: nat, t: string, lo: nat, hi: nat, P: char -> bool)
    requires a <= |line| && t == line[a..] && lo <= hi <= |t|
    requires forall k | lo <= k < hi :: P(t[k])
    ensures forall k | a + lo <= k < a + hi :: P(line[k])
  {
    forall k | a + lo <= k < a + hi ensures P(line[k]) {
      assert line[k] == t[k - a];
    }
  }

  /** Headings that end the import: the closing notes and theme sections. */
  predicate IsStopHeading(category: string) {
    StartsWith(category, "NOTES ON") || StartsWith(category, "ACHIEVEMENT THEMES")
  }

  /** Lines the reader passes over: blank lines, `*Note:` lines and rules. */
  predicate IsSkipped(line: string) {
    line == [] || StartsWith(line, "*Note:") || line == "---"
  }

  /** `re.search(r'\*\*(.*?)\*\*', line).group(1)`: the text between the first
      `**` and the next `**` that does not overlap it. */
  function BoldSpan(line: string): Option<string> {
    match IndexFrom(line, "**", 0)
    case None => None
    case Some(p) =>
      match IndexFrom(line, "**", p + 2)
      case None => None
      case Some(q) => Some(line[p + 2..q])
  }

  /** A bold span exists exactly when two non-overlapping `**` do, and it holds no `**`. */
  lemma BoldSpanSpec(line: string)
    ensures BoldSpan(line).Some? <==>
              exists p, q | 0 <= p && p + 2 <= q :: OccursAt(line, "**", p) && OccursAt(line, "**", q)
    ensures BoldSpan(line).Some? ==> !Contains(BoldSpan(line).value, "**")
  {
    match IndexFrom(line, "**", 0)
    case None =>
    case Some(p) =>
      match IndexFrom(line, "**", p + 2)
      case None =>
        NoClosingBold(line, p);
      case Some(q) =>
        InnerHasNoBold(line, p, q);
  }

  /** With no `**` at or after `p + 2`, no two non-overlapping `**` exist when `p` is the first. */
  lemma NoClosingBold(line: string, p: nat)
    requires forall q | 0 <= q < p :: !OccursAt(line, "**", q)
    requires forall q | p + 2 <= q :: !OccursAt(line, "**", q)
    ensures forall p', q | 0 <= p' && p' + 2 <= q :: !(OccursAt(line, "**", p') && OccursAt(line, "**", q))
  {
  }

  /** Between a `**` at `p` and the next one at `q` there is no `**`. */
  lemma InnerHasNoBold(line: string, p: nat, q: nat)
    requires p + 2 <= q && q + 2 <= |line|
    requires forall k | p + 2 <= k < q :: !OccursAt(line, "**", k)
    ensures !Contains(line[p + 2..q], "**")
  {
    var inner := line[p + 2..q];
    forall k | 0 <= k <= |inner| ensures !OccursAt(inner, "**", k) {
      BoldInSlice(line, p + 2, q, k);
    }
  }

  /** A `**` inside a slice is a `**` of the whole line. */
  lemma BoldInSlice(line: string, a: nat, b: nat, k: nat)
    requires a <= b <= |line|
    ensures OccursAt(line[a..b], "**", k) ==> OccursAt(line, "**", a + k)
  {
    var inner := line[a..b];
    if OccursAt(inner, "**", k) {
      assert inner[k] == inner[k..k + 2][0] == '*';
      assert inner[k + 1] == inner[k..k + 2][1] == '*';
      assert line[a + k..a + k + 2] == "**";
    }
  }

  /** The title of a `### ` line: every `### ` removed, then stripped. */
  function TitleOf(line: string): string {
    Strip(ReplaceAll(line, "### ", ""))
  }

  /** How a block is made from its category, title and content. The importer
      makes it with the inference heuristics of LegoInference (`Importer`). */
  type Builder = (string, string, string) -> LegoBlock

  /** The importer's builder: `BuildBlock` with the pattern matches of the content. */
  function Importer(m: Matcher): Builder {
    (category: string, title: string, content: string) => BuildBlock(category, title, content, m(content))
  }

  /** A builder that keeps the category, title and content it is given and
      yields well-formed blocks. */
  ghost predicate SoundBuilder(build: Builder) {
    forall category, title, content :: Keeps(build(category, title, content), category, title, content)
  }

  predicate Keeps(b: LegoBlock, category: string, title: string, content: string) {
    WellFormed(b) && b.category == category && b.title == title && b.content == content
  }

  /** The importer's builder is sound. */
  lemma ImporterSound(m: Matcher)
    ensures SoundBuilder(Importer(m))
  {
    forall category, title, content
      ensures Keeps(Importer(m)(category, title, content), category, title, content)
    {
      BuildBlockWellFormed(category, title, content, m(content));
    }
  }

  /** The block read from a title line and the line after it, if that line
      holds a bold span. */
  function BlockAt(lines: seq<string>, i: nat, category: string, build: Builder): (r: seq<LegoBlock>)
    requires i < |lines|
    ensures |r| <= 1
  {
    if i + 1 < |lines| then
      match BoldSpan(Strip(lines[i + 1]))
      case Some(content) => [build(category, TitleOf(Strip(lines[i])), content)]
      case None => []
    else []
  }

  /** The blocks read from `lines[i..]` under the current category `category`
      ("" when none has been seen, which Python's truth test treats like None).
      A title line always consumes the line after it, whatever that line is. */
  function ParseFrom(lines: seq<string>, i: nat, category: string, build: Builder): seq<LegoBlock>
    decreases |lines| - i
  {
    if i >= |lines| then []
    else
      var line := Strip(lines[i]);
      if IsSkipped(line) then ParseFrom(lines, i + 1, category, build)
      else if StartsWith(line, "## ") then
        var c := CleanCategory(line);
        if IsStopHeading(c) then [] else ParseFrom(lines, i + 1, c, build)
      else if StartsWith(line, "### ") && category != [] then
        BlockAt(lines, i, category, build) + ParseFrom(lines, i + 2, category, build)
      else ParseFrom(lines, i + 1, category, build)
  }

  /** The blocks of a whole document. */
  function ParseDocument(text: string, m: Matcher): seq<LegoBlock> {
    ParseFrom(Split(text, '\n'), 0, [], Importer(m))
  }

  /** Where a parsed block came from: a `### ` line whose next line's bold span
      is the block's content. */
  predicate ReadFrom(b: LegoBlock, lines: seq<string>, k: int, build: Builder) {
    && 0 <= k && k + 1 < |lines|
    && StartsWith(Strip(lines[k]), "### ")
    && b.title == TitleOf(Strip(lines[k]))
    && BoldSpan(Strip(lines[k + 1])) == Some(b.content)
    && b == build(b.category, b.title, b.content)
  }

  /** What every parsed block satisfies. */
  predicate SoundBlock(b: LegoBlock, lines: seq<string>, from: int, build: Builder) {
    && WellFormed(b)
    && b.category != [] && !IsStopHeading(b.category)
    && !Contains(b.content, "**")
    && exists k | from <= k < |lines| :: ReadFrom(b, lines, k, build)
  }

  lemma BlockAtSound(lines: seq<string>, i: nat, category: string, build: Builder)
    requires SoundBuilder(build)
    requires i < |lines| && StartsWith(Strip(lines[i]), "### ")
    requires category != [] && !IsStopHeading(category)
    ensures forall b | b in BlockAt(lines, i, category, build) :: SoundBlock(b, lines, i, build)
  {
    if i + 1 < |lines| && BoldSpan(Strip(lines[i + 1])).Some? {
      var content := BoldSpan(Strip(lines[i + 1])).value;
      ReadBlockSound(lines, i, category, content, build);
    }
  }

  lemma ReadBlockSound(lines: seq<string>, i: nat, category: string, content: string, build: Builder)
    requires SoundBuilder(build)
    requires i + 1 < |lines| && StartsWith(Strip(lines[i]), "### ")
    requires category != [] && !IsStopHeading(category)
    requires BoldSpan(Strip(lines[i + 1])) == Some(content)
    ensures BlockAt(lines, i, category, build) == [build(category, TitleOf(Strip(lines[i])), content)]
    ensures SoundBlock(build(category, TitleOf(Strip(lines[i])), content), lines, i, build)
  {
    var title := TitleOf(Strip(lines[i]));
    var b := build(category, title, content);
    BoldSpanSpec(Strip(lines[i + 1]));
    assert Keeps(b, category, title, content);
    assert ReadFrom(b, lines, i, build);
  }

  /** Every parsed block is well formed, lies under a real category that is not
      a stop heading, has no `**` in its content, and was read from a title line
      and the bold span on the line after it; there are at most half as many
      blocks as lines. */
  lemma {:induction false} ParseFromSound(lines: seq<string>, i: nat, category: string, build: Builder)
    requires SoundBuilder(build)
    requires category == [] || !IsStopHeading(category)
    ensures i <= |lines| ==> 2 * |ParseFrom(lines, i, category, build)| <= |lines| - i
    ensures forall b | b in ParseFrom(lines, i, category, build) :: SoundBlock(b, lines, i, build)
    decreases |lines| - i
  {
    if i < |lines| {
      var line := Strip(lines[i]);
      if IsSkipped(line) {
        ParseFromSound(lines, i + 1, category, build);
        SoundFrom(ParseFrom(lines, i + 1, category, build), lines, i, build);
      } else if StartsWith(line, "## ") {
        var c := CleanCategory(line);
        if !IsStopHeading(c) {
          ParseFromSound(lines, i + 1, c, build);
          SoundFrom(ParseFrom(lines, i + 1, c, build), lines, i, build);
        }
      } else if StartsWith(line, "### ") && category != [] {
        var rest := ParseFrom(lines, i + 2, category, build);
        ParseFromSound(lines, i + 2, category, build);
        SoundFrom(rest, lines, i, build);
        BlockAtSound(lines, i, category, build);
        var here := BlockAt(lines, i, category, build);
        assert ParseFrom(lines, i, category, build) == here + rest;
        assert |here| == 0 || i + 1 < |lines|;
      } else {
        ParseFromSound(lines, i + 1, category, build);
        SoundFrom(ParseFrom(lines, i + 1, category, build), lines, i, build);
      }
    }
  }

  /** A block read at or after `from + 1` was read at or after `from`. */
  lemma SoundFrom(bs: seq<LegoBlock>, lines: seq<string>, from: int, build: Builder)
    requires forall b | b in bs :: SoundBlock(b, lines, from + 1, build)
    ensures forall b | b in bs :: SoundBlock(b, lines, from, build)
  {
    forall b | b in bs ensures SoundBlock(b, lines, from, build) {
      var k :| from + 1 <= k < |lines| && ReadFrom(b, lines, k, build);
    }
  }

  /** The reader passes over a skipped line. */
  lemma SkipStep(lines: seq<string>, i: nat, category: string, build: Builder)
    requires i < |lines| && IsSkipped(Strip(lines[i]))
    ensures ParseFrom(lines, i, category, build) == ParseFrom(lines, i + 1, category, build)
  {
  }

  /** A `## ` heading ends the import if it is a stop heading, and otherwise
      becomes the current category. */
  lemma HeadingStep(lines: seq<string>, i: nat, category: string, build: Builder)
    requires i < |lines| && !IsSkipped(Strip(lines[i])) && StartsWith(Strip(lines[i]), "## ")
    ensures IsStopHeading(CleanCategory(Strip(lines[i]))) ==> ParseFrom(lines, i, category, build) == []
    ensures !IsStopHeading(CleanCategory(Strip(lines[i]))) ==>
              ParseFrom(lines, i, category, build) == ParseFrom(lines, i + 1, CleanCategory(Strip(lines[i])), build)
  {
  }

  /** Any other line, including a title before the first category, is passed over. */
  lemma OtherStep(lines: seq<string>, i: nat, category: string, build: Builder)
    requires i < |lines| && !IsSkipped(Strip(lines[i])) && !StartsWith(Strip(lines[i]), "## ")
    requires !(StartsWith(Strip(lines[i]), "### ") && category != [])
    ensures ParseFrom(lines, i, category, build) == ParseFrom(lines, i + 1, category, build)
  {
  }

  /** A title line under a category yields at most the block at that line, and
      the reader resumes two lines further on under the SAME category: the line
      after a title is consumed whatever it holds, so a `## ` heading there never
      changes the category and a `### ` title there is never read as a title. */
  lemma TitleStep(lines: seq<string>, i: nat, category: string, build: Builder)
    requires i < |lines| && StartsWith(Strip(lines[i]), "### ") && category != []
    ensures ParseFrom(lines, i, category, build) == BlockAt(lines, i, category, build) + ParseFrom(lines, i + 2, category, build)
  {
    TitleLine(Strip(lines[i]));
  }

  /** A `### ` line is neither skipped nor a `## ` heading. */
  lemma TitleLine(line: string)
    requires StartsWith(line, "### ")
    ensures !IsSkipped(line) && !StartsWith(line, "## ")
  {
    assert line[0] == '#' && line[2] == '#' by {
      assert line[..4] == "### ";
      assert line[..4][0] == '#' && line[..4][2] == '#';
    }
    assert "## "[2] == ' ' && "*Note:"[0] == '*' && "---"[0] == '-';
    assert |line| < 3 || line[..3][2] == '#';
    assert |line| < 6 || line[..6][0] == '#';
  }

  /** The category a `## ` heading announces is lost when the heading sits
      directly under a title: the title after it is filed under the earlier
      category. */
  lemma HeadingUnderTitleIgnored(lines: seq<string>, i: nat, category: string, build: Builder)
    requires i + 3 < |lines| && category != []
    requires StartsWith(Strip(lines[i]), "### ") && StartsWith(Strip(lines[i + 1]), "## ")
    requires BoldSpan(Strip(lines[i + 1])).None?
    requires StartsWith(Strip(lines[i + 2]), "### ")
    requires BoldSpan(Strip(lines[i + 3])).Some?
    ensures ParseFrom(lines, i, category, build) == BlockAt(lines, i + 2, category, build) + ParseFrom(lines, i + 4, category, build)
    ensures BlockAt(lines, i + 2, category, build)
            == [build(category, TitleOf(Strip(lines[i + 2])), BoldSpan(Strip(lines[i + 3])).value)]
  {
    EmptyTitleSkipped(lines, i, category, build);
    TitleStep(lines, i + 2, category, build);
  }

  /** A title line whose next line has no bold span yields nothing, and the
      reader resumes two lines further on. */
  lemma EmptyTitleSkipped(lines: seq<string>, i: nat, category: string, build: Builder)
    requires i + 1 < |lines| && category != []
    requires StartsWith(Strip(lines[i]), "### ") && BoldSpan(Strip(lines[i + 1])).None?
    ensures ParseFrom(lines, i, category, build) == ParseFrom(lines, i + 2, category, build)
  {
    TitleStep(lines, i, category, build);
    NoBlockAt(lines, i, category, build, ParseFrom(lines, i + 2, category, build));
  }

  /** A title line whose next line has no bold span contributes no block: the
      blocks read from the lines after it are all there is. */
  lemma NoBlockAt(lines: seq<string>, i: nat, category: string, build: Builder, rest: seq<LegoBlock>)
    requires i + 1 < |lines| && BoldSpan(Strip(lines[i + 1])).None?
    ensures BlockAt(lines, i, category, build) == []
    ensures BlockAt(lines, i, category, build) + rest == rest
  {
  }
}
