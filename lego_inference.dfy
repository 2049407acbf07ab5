/** The achievement-block record and the heuristics that fill in its metadata
    (backend/lego_blocks.py): keywords, skills, role types, company types and
    the three-tier strength level. */
module LegoInference {
  import opened Text
  import opened Collections

  /** One achievement block. `strengthLevel` is a string because callers may hand
      the ranking blocks whose level is none of the three tiers. */
  datatype LegoBlock = LegoBlock(
    category: string,
    subcategory: Option<string>,
    title: string,
    content: string,
    skills: seq<string>,
    keywords: seq<string>,
    strengthLevel: string,
    roleTypes: seq<string>,
    companyTypes: seq<string>)

  /** Baseline skills per category heading. */
  const CATEGORY_SKILLS: map<string, seq<string>> := map[
    "SYSTEM ARCHITECTURE & DESIGN" := ["System Design", "Architecture", "Microservices", "API Design", "Distributed Systems"],
    "MACHINE LEARNING & DATA SCIENCE" := ["Machine Learning", "ML", "Data Science", "Model Training", "Python", "TensorFlow", "Spark"],
    "SCALE & PERFORMANCE" := ["Scalability", "Performance", "High Traffic", "Optimization", "Distributed Systems"],
    "COST OPTIMIZATION & BUSINESS IMPACT" := ["Cost Optimization", "Business Impact", "ROI", "Resource Planning"],
    "TECHNICAL LEADERSHIP & MENTORING" := ["Leadership", "Mentoring", "Team Building", "Coaching", "Management"],
    "CROSS-FUNCTIONAL COLLABORATION" := ["Collaboration", "Communication", "Cross-team", "Stakeholder Management"],
    "INTERNATIONAL EXPANSION & REGULATORY COMPLIANCE" := ["International", "Compliance", "GDPR", "Regulatory", "Localization"],
    "DEVOPS & OPERATIONAL EXCELLENCE" := ["DevOps", "CI/CD", "CloudFormation", "Infrastructure", "On-Call", "Monitoring"],
    "INNOVATION & EXPERIMENTATION" := ["Innovation", "Experimentation", "A/B Testing", "Research"],
    "FULL-STACK DEVELOPMENT" := ["Full-Stack", "Frontend", "Backend", "JavaScript", "Java", "React", "UI/UX"],
    "EARLY CAREER & FOUNDATION" := ["Internship", "Early Career", "Algorithm", "Research"],
    "LEADERSHIP & PROFESSIONAL SKILLS" := ["Leadership", "Training", "Documentation", "Communication"],
    "EDUCATION & ACADEMIC EXCELLENCE" := ["Education", "Computer Science", "Academic"],
    "TECHNICAL SKILLS EVIDENCE" := ["Programming", "Languages", "Frameworks", "Tools"]
  ]

  /** Baseline role types per category heading. */
  const CATEGORY_ROLE_TYPES: map<string, seq<string>> := map[
    "SYSTEM ARCHITECTURE & DESIGN" := ["Backend Engineer", "Software Engineer", "Systems Engineer", "Staff Engineer"],
    "MACHINE LEARNING & DATA SCIENCE" := ["ML Engineer", "Data Scientist", "ML/AI Engineer", "Research Engineer"],
    "SCALE & PERFORMANCE" := ["Backend Engineer", "Performance Engineer", "Infrastructure Engineer", "Staff Engineer"],
    "COST OPTIMIZATION & BUSINESS IMPACT" := ["Senior Engineer", "Staff Engineer", "Tech Lead", "Product Engineer"],
    "TECHNICAL LEADERSHIP & MENTORING" := ["Senior Engineer", "Staff Engineer", "Tech Lead", "Engineering Manager"],
    "CROSS-FUNCTIONAL COLLABORATION" := ["Product Engineer", "Tech Lead", "Senior Engineer"],
    "INTERNATIONAL EXPANSION & REGULATORY COMPLIANCE" := ["Senior Engineer", "Staff Engineer", "Compliance Engineer"],
    "DEVOPS & OPERATIONAL EXCELLENCE" := ["DevOps Engineer", "SRE", "Platform Engineer", "Infrastructure Engineer"],
    "INNOVATION & EXPERIMENTATION" := ["Research Engineer", "Senior Engineer", "Product Engineer"],
    "FULL-STACK DEVELOPMENT" := ["Full-Stack Engineer", "Product Engineer", "Software Engineer"],
    "EARLY CAREER & FOUNDATION" := ["Software Engineer", "Junior Engineer"],
    "LEADERSHIP & PROFESSIONAL SKILLS" := ["Senior Engineer", "Staff Engineer", "Tech Lead"],
    "EDUCATION & ACADEMIC EXCELLENCE" := ["Software Engineer", "ML Engineer", "Research Engineer"],
    "TECHNICAL SKILLS EVIDENCE" := ["Software Engineer", "Backend Engineer", "ML Engineer", "Full-Stack Engineer"]
  ]

  /** Technologies whose (case-insensitive) mention adds a skill. */
  const TECH_SKILLS: seq<string> := [
    "Java", "Python", "Scala", "Kotlin", "JavaScript", "TypeScript", "SQL",
    "Spark", "TensorFlow", "AWS", "React", "Machine Learning", "System Design",
    "Architecture", "API", "DevOps", "Leadership", "Mentoring"]

  const MAX_KEYWORDS := 15
  const MAX_SKILLS := 8
  const MAX_ROLE_TYPES := 4
  const MAX_COMPANY_TYPES := 3
  const DEFAULT_COMPANY_TYPES: seq<string> := ["Big Tech", "Startup", "Scale-up"]
  /** The category whose blocks suit an ML/AI company. */
  const ML_CATEGORY := "MACHINE LEARNING & DATA SCIENCE"

  /** `any(w in s for w in ws)`. */
  predicate ContainsAny(s: string, ws: seq<string>) {
    exists k | 0 <= k < |ws| :: Contains(s, ws[k])
  }

  // ---------------------------------------------------------------- keywords

  /** What the three word-boundary, case-insensitive patterns find in a
      content string: technology names, acronyms, and counts with a unit
      ("10M+ users"). These regular expressions are not scanned here; their
      `findall` results are an input. */
  datatype PatternMatches = PatternMatches(technologies: seq<string>, acronyms: seq<string>, quantities: seq<string>)

  /** The `findall` results for one content string. */
  type Matcher = string -> PatternMatches

  /** The suffix letters `[M|B|K]` accepts under IGNORECASE (the `|` is literal). */
  predicate IsMagnitude(c: char) {
    c == 'M' || c == 'm' || c == 'B' || c == 'b' || c == 'K' || c == 'k' || c == '|'
  }

  /** A `$` followed by a digit at `p`: where a dollar amount starts. */
  predicate DollarCue(s: string, p: nat) {
    p + 1 < |s| && s[p] == '$' && IsDigit(s[p + 1])
  }

  /** The number of dollar cues at or after `from`. */
  function DollarCues(s: string, from: nat): nat
    requires from <= |s|
    decreases |s| - from
  {
    if from + 1 >= |s| then 0 else (if DollarCue(s, from) then 1 else 0) + DollarCues(s, from + 1)
  }

  /** Positions without a cue do not change the count. */
  lemma {:induction false} DollarCuesSkip(s: string, a: nat, b: nat)
    requires a <= b <= |s|
    requires forall k | a <= k < b :: !DollarCue(s, k)
    ensures DollarCues(s, a) == DollarCues(s, b)
    decreases b - a
  {
    if a < b && a + 1 < |s| {
      DollarCuesSkip(s, a + 1, b);
    }
  }

  /** `re.findall(r'(\$\d+[M|B|K]?\+?)', s, re.IGNORECASE)`, scanning from `from`:
      every match is a `$`, a digit and more, found in `s`, and there is exactly
      one match per `$` followed by a digit, since no match runs over another `$`. */
  function DollarAmounts(s: string, from: nat): (r: seq<string>)
    requires from <= |s|
    ensures forall k | 0 <= k < |r| :: |r[k]| >= 2 && r[k][0] == '$' && IsDigit(r[k][1]) && Contains(s, r[k])
    ensures |r| == DollarCues(s, from)
    decreases |s| - from
  {
    if from + 1 >= |s| then []
    else if s[from] == '$' && IsDigit(s[from + 1]) then
      var e := RunEnd(s, from + 1, false);
      var e2 := if e < |s| && IsMagnitude(s[e]) then e + 1 else e;
      var e3 := if e2 < |s| && s[e2] == '+' then e2 + 1 else e2;
      assert OccursAt(s, s[from..e3], from);
      DollarCuesSkip(s, from + 1, e3);
      [s[from..e3]] + DollarAmounts(s, e3)
    else DollarAmounts(s, from + 1)
  }

  /** A digit followed by `%` at `p`: where a percentage ends. */
  predicate PercentCue(s: string, p: nat) {
    p + 1 < |s| && IsDigit(s[p]) && s[p + 1] == '%'
  }

  /** The number of percent cues at or after `from`. */
  function PercentCues(s: string, from: nat): nat
    requires from <= |s|
    decreases |s| - from
  {
    if from + 1 >= |s| then 0 else (if PercentCue(s, from) then 1 else 0) + PercentCues(s, from + 1)
  }

  /** Positions without a cue do not change the count. */
  lemma {:induction false} PercentCuesSkip(s: string, a: nat, b: nat)
    requires a <= b <= |s|
    requires forall k | a <= k < b :: !PercentCue(s, k)
    ensures PercentCues(s, a) == PercentCues(s, b)
    decreases b - a
  {
    if a < b && a + 1 < |s| {
      PercentCuesSkip(s, a + 1, b);
    }
  }

  /** `re.findall(r'(\d+%\+?)', s)`, scanning from `from`: every match starts
      with a digit, holds a `%` and is found in `s`, and there is exactly one
      match per digit directly followed by `%`. */
  function Percentages(s: string, from: nat): (r: seq<string>)
    requires from <= |s|
    ensures forall k | 0 <= k < |r| :: |r[k]| >= 2 && IsDigit(r[k][0]) && '%' in r[k] && Contains(s, r[k])
    ensures |r| == PercentCues(s, from)
    decreases |s| - from
  {
    if from >= |s| then []
    else if IsDigit(s[from]) && RunEnd(s, from, false) < |s| && s[RunEnd(s, from, false)] == '%' then
      var e := RunEnd(s, from, false) + 1;
      var e2 := if e < |s| && s[e] == '+' then e + 1 else e;
      assert OccursAt(s, s[from..e2], from);
      assert s[from..e2][e - 1 - from] == '%';
      PercentCuesSkip(s, from, e - 2);
      PercentCuesSkip(s, e - 1, e2);
      [s[from..e2]] + Percentages(s, e2)
    else
      assert !PercentCue(s, from);
      Percentages(s, from + 1)
  }

  /** The match lists in the order the patterns are tried. */
  function KeywordLists(content: string, pm: PatternMatches): seq<seq<string>> {
    [pm.technologies, pm.acronyms, pm.quantities, DollarAmounts(content, 0), Percentages(content, 0)]
  }

  /** `[m for m in matches if m not in keywords]`: the matches, in order and with
      their repetitions, that are not already keywords. */
  function Unseen(matches: seq<string>, keywords: seq<string>): (r: seq<string>)
    ensures |r| <= |matches|
    ensures forall w :: w in r <==> w in matches && w !in keywords
  {
    if matches == [] then []
    else
      var m := matches[|matches| - 1];
      Unseen(matches[..|matches| - 1], keywords) + (if m !in keywords then [m] else [])
  }

  /** `keywords.extend(Unseen(matches, keywords))` for each list in turn: a
      match is dropped only if an EARLIER list already contributed it, so a value
      matched twice by the same pattern is kept twice. */
  function ExtendAll(lists: seq<seq<string>>): (r: seq<string>)
    ensures forall w :: w in r <==> exists p | 0 <= p < |lists| :: w in lists[p]
  {
    if lists == [] then []
    else
      var kws := ExtendAll(lists[..|lists| - 1]);
      assert forall p | 0 <= p < |lists| - 1 :: lists[..|lists| - 1][p] == lists[p];
      kws + Unseen(lists[|lists| - 1], kws)
  }

  /** The keywords of a block: the extended list cut to its first 15. */
  function KeywordsOf(content: string, pm: PatternMatches): seq<string> {
    PyTake(ExtendAll(KeywordLists(content, pm)), MAX_KEYWORDS)
  }

  method ExtractKeywords(content: string, pm: PatternMatches) returns (keywords: seq<string>)
    ensures keywords == KeywordsOf(content, pm)
  {
    var lists := KeywordLists(content, pm);
    keywords := [];
    var p := 0;
    while p < |lists|
      invariant 0 <= p <= |lists|
      invariant keywords == ExtendAll(lists[..p])
    {
      var unseen := Unseen(lists[p], keywords);
      assert lists[..p + 1][..p] == lists[..p];
      keywords := keywords + unseen;
      p := p + 1;
    }
    assert lists[..p] == lists;
    keywords := PyTake(keywords, MAX_KEYWORDS);
  }

  /** The keyword list holds at most 15 entries, each found by some pattern, and
      when the patterns find at most 15 distinct-by-pattern values in all, none is
      dropped. */
  lemma KeywordsBounded(content: string, pm: PatternMatches)
    ensures |KeywordsOf(content, pm)| <= MAX_KEYWORDS
    ensures forall w | w in KeywordsOf(content, pm) ::
              exists p | 0 <= p < 5 :: w in KeywordLists(content, pm)[p]
    ensures |ExtendAll(KeywordLists(content, pm))| <= MAX_KEYWORDS ==>
              forall p, w | 0 <= p < 5 && w in KeywordLists(content, pm)[p] :: w in KeywordsOf(content, pm)
  {
    var all := ExtendAll(KeywordLists(content, pm));
    assert forall w | w in KeywordsOf(content, pm) :: w in all;
  }

  /** A keyword list never repeats a value across patterns: whatever one list
      contributes is absent from everything before it. */
  lemma {:induction false} ExtendAllAcrossLists(lists: seq<seq<string>>, p: nat)
    requires p < |lists|
    ensures var before := ExtendAll(lists[..p]);
            ExtendAll(lists[..p + 1]) == before + Unseen(lists[p], before)
            && forall w | w in Unseen(lists[p], before) :: w !in before
  {
    assert lists[..p + 1][..p] == lists[..p];
  }

  lemma {:induction false} NoDollarAmounts(s: string, from: nat)
    requires from <= |s| && '$' !in s
    ensures DollarAmounts(s, from) == []
    decreases |s| - from
  {
    if from + 1 < |s| {
      NoDollarAmounts(s, from + 1);
    }
  }

  lemma {:induction false} NoPercentages(s: string, from: nat)
    requires from <= |s| && '%' !in s
    ensures Percentages(s, from) == []
    decreases |s| - from
  {
    if from < |s| {
      NoPercentages(s, from + 1);
    }
  }

  /** When only the first list holds matches, the keywords are its unseen matches. */
  lemma {:induction false} ExtendAllFirstOnly(lists: seq<seq<string>>)
    requires |lists| >= 1
    requires forall p | 1 <= p < |lists| :: lists[p] == []
    ensures ExtendAll(lists) == Unseen(lists[0], [])
    decreases |lists|
  {
    if |lists| == 1 {
      assert lists[..0] == [];
    } else {
      var init := lists[..|lists| - 1];
      assert init[0] == lists[0];
      assert forall p | 1 <= p < |init| :: init[p] == lists[p];
      ExtendAllFirstOnly(init);
      assert lists[|lists| - 1] == [];
    }
  }

  /** Two identical matches from one pattern, and nothing from the others. */
  lemma RepeatedMatchExtended()
    ensures ExtendAll([["AWS", "AWS"], [], [], [], []]) == ["AWS", "AWS"]
  {
    var lists: seq<seq<string>> := [["AWS", "AWS"], [], [], [], []];
    assert Unseen(["AWS", "AWS"], []) == ["AWS", "AWS"] by {
      assert ["AWS", "AWS"][..1] == ["AWS"];
      assert ["AWS"][..0] == [];
    }
    ExtendAllFirstOnly(lists);
  }

  /** A value that one pattern matches twice is kept twice: the source's
      `m not in keywords` test looks only at the list before the extend. */
  lemma RepeatedMatchKept()
    ensures KeywordsOf("AWS on AWS", PatternMatches(["AWS", "AWS"], [], [])) == ["AWS", "AWS"]
  {
    var s := "AWS on AWS";
    NoDollarAmounts(s, 0);
    NoPercentages(s, 0);
    RepeatedMatchExtended();
  }

  // ------------------------------------------------------------------ skills

  /** The category's first three table skills, or none for an unknown category. */
  function BaseSkills(category: string): seq<string> {
    if category in CATEGORY_SKILLS then PyTake(CATEGORY_SKILLS[category], 3) else []
  }

  /** Appending, in list order, each technology mentioned in `content` that is
      not yet present. */
  function WithMentioned(init: seq<string>, content: string, techs: seq<string>): seq<string> {
    if techs == [] then init
    else
      var s := WithMentioned(init, content, techs[..|techs| - 1]);
      var t := techs[|techs| - 1];
      if Contains(Lower(content), Lower(t)) && t !in s then s + [t] else s
  }

  function SkillsOf(content: string, category: string): seq<string> {
    PyTake(WithMentioned(BaseSkills(category), content, TECH_SKILLS), MAX_SKILLS)
  }

  method ExtractSkills(content: string, category: string) returns (skills: seq<string>)
    ensures skills == SkillsOf(content, category)
  {
    skills := AppendMentioned(BaseSkills(category), content, TECH_SKILLS);
    skills := PyTake(skills, MAX_SKILLS);
  }

  /** The loop over the technology list: each mentioned technology not yet in
      the list is appended. */
  method AppendMentioned(init: seq<string>, content: string, techs: seq<string>) returns (skills: seq<string>)
    ensures skills == WithMentioned(init, content, techs)
  {
    skills := init;
    var i := 0;
    while i < |techs|
      invariant 0 <= i <= |techs|
      invariant skills == WithMentioned(init, content, techs[..i])
    {
      var tech := techs[i];
      assert techs[..i + 1][..i] == techs[..i];
      if Contains(Lower(content), Lower(tech)) && tech !in skills {
        skills := skills + [tech];
      }
      i := i + 1;
    }
    assert techs[..i] == techs;
  }

  lemma {:induction false} WithMentionedShape(init: seq<string>, content: string, techs: seq<string>)
    requires NoDup(init)
    ensures |WithMentioned(init, content, techs)| >= |init|
    ensures WithMentioned(init, content, techs)[..|init|] == init
    ensures NoDup(WithMentioned(init, content, techs))
    ensures forall k | |init| <= k < |WithMentioned(init, content, techs)| ::
              WithMentioned(init, content, techs)[k] in techs
              && Contains(Lower(content), Lower(WithMentioned(init, content, techs)[k]))
  {
    if techs != [] {
      var front := techs[..|techs| - 1];
      WithMentionedShape(init, content, front);
      var s := WithMentioned(init, content, front);
      forall k | |init| <= k < |s| ensures s[k] in techs {
        assert s[k] in front;
      }
    }
  }

  /** Every table row's first three skills are distinct. */
  lemma BaseSkillsDistinct(category: string)
    ensures NoDup(BaseSkills(category))
  {
  }

  /** The skill list has at most 8 entries and no duplicates; for a known
      category it starts with that category's first three table skills; every
      later entry is a technology the content mentions. */
  lemma SkillsShape(content: string, category: string)
    ensures |SkillsOf(content, category)| <= MAX_SKILLS
    ensures NoDup(SkillsOf(content, category))
    ensures category in CATEGORY_SKILLS ==>
              |SkillsOf(content, category)| >= 3 && SkillsOf(content, category)[..3] == CATEGORY_SKILLS[category][..3]
    ensures forall k | |BaseSkills(category)| <= k < |SkillsOf(content, category)| ::
              SkillsOf(content, category)[k] in TECH_SKILLS
              && Contains(Lower(content), Lower(SkillsOf(content, category)[k]))
  {
    BaseSkillsDistinct(category);
    var base := BaseSkills(category);
    WithMentionedShape(base, content, TECH_SKILLS);
    var full := WithMentioned(base, content, TECH_SKILLS);
    var r := SkillsOf(content, category);
    assert r == full[..|r|];
    if category in CATEGORY_SKILLS {
      assert |CATEGORY_SKILLS[category]| >= 3;
      assert |base| == 3;
      assert r[..3] == full[..3];
    }
    forall i, j | 0 <= i < j < |r| ensures r[i] != r[j] {
      assert r[i] == full[i] && r[j] == full[j];
    }
    forall k | |base| <= k < |r| ensures r[k] in TECH_SKILLS && Contains(Lower(content), Lower(r[k])) {
      assert r[k] == full[k];
    }
  }

  /** Every technology the content mentions is a skill, unless the cut to 8 dropped it. */
  lemma {:induction false} MentionedTechIncluded(init: seq<string>, content: string, techs: seq<string>, t: string)
    requires t in techs && Contains(Lower(content), Lower(t))
    ensures t in WithMentioned(init, content, techs)
  {
    var front := techs[..|techs| - 1];
    var s := WithMentioned(init, content, front);
    if t in front {
      MentionedTechIncluded(init, content, front, t);
    } else {
      assert t == techs[|techs| - 1];
    }
  }

  // -------------------------------------------------------------- role types

  /** The category's first three table roles, or none for an unknown category. */
  function BaseRoleTypes(category: string): (r: seq<string>)
    ensures |r| <= 3 && NoDup(r)
  {
    if category in CATEGORY_ROLE_TYPES then PyTake(CATEGORY_ROLE_TYPES[category], 3) else []
  }

  /** A known category contributes the first two or three roles of its table row, an unknown one none. */
  lemma BaseRoleTypesFromTable(category: string)
    ensures category in CATEGORY_ROLE_TYPES ==>
              2 <= |BaseRoleTypes(category)| <= |CATEGORY_ROLE_TYPES[category]|
              && BaseRoleTypes(category) == CATEGORY_ROLE_TYPES[category][..|BaseRoleTypes(category)|]
    ensures category !in CATEGORY_ROLE_TYPES ==> BaseRoleTypes(category) == []
  {
  }

  /** `if cue and role not in xs: xs.append(role)`. */
  function AddRole(xs: seq<string>, role: string, cue: bool): (r: seq<string>)
    requires NoDup(xs)
    ensures NoDup(r) && |xs| <= |r| <= |xs| + 1 && r[..|xs|] == xs
    ensures cue ==> role in r
    ensures role in r <==> role in xs || cue
    ensures forall x | x in r :: x in xs || (x == role && cue)
    ensures |r| == |xs| + Added(xs, role, cue)
  {
    if cue && role !in xs then xs + [role] else xs
  }

  /** How many entries `AddRole` appends: one when the cue fired and the role is new. */
  function Added(xs: seq<string>, role: string, cue: bool): nat {
    if cue && role !in xs then 1 else 0
  }

  predicate MlCue(content: string) {
    Contains(content, "ML") || Contains(content, "Machine Learning") || Contains(Lower(content), "model")
  }

  predicate FullStackCue(content: string) {
    Contains(Lower(content), "full-stack") || (Contains(Lower(content), "frontend") && Contains(Lower(content), "backend"))
  }

  predicate LeadershipCue(title: string, content: string) {
    Contains(Lower(title), "team") || Contains(Lower(content), "mentor") || Contains(Lower(content), "led")
  }

  /** Why a role may appear: it is a table role, or the cue that adds it fired
      (and, for "Senior Engineer", the table roles hold no "Tech Lead"). */
  predicate RoleJustified(x: string, base: seq<string>, ml: bool, fullStack: bool, leadership: bool) {
    || x in base
    || (x == "ML Engineer" && ml)
    || (x == "Full-Stack Engineer" && fullStack)
    || (x == "Senior Engineer" && leadership && "Tech Lead" !in base)
  }

  /** The role list before the cut to four: the table roles `base`, then
      "ML Engineer", "Full-Stack Engineer" and "Senior Engineer" for the cues
      that fired, without duplicates. Each cued role lies within the first four
      entries whenever the roles before it leave room. */
  function RoleCandidates(base: seq<string>, ml: bool, fullStack: bool, leadership: bool): (r: seq<string>)
    requires NoDup(base) && |base| <= 3
    ensures NoDup(r)
    ensures |base| <= |r| && r[..|base|] == base
    ensures ml ==> "ML Engineer" in PyTake(r, MAX_ROLE_TYPES)
    ensures forall x | x in r :: RoleJustified(x, base, ml, fullStack, leadership)
    ensures fullStack && |base| + Added(base, "ML Engineer", ml) < MAX_ROLE_TYPES ==>
              "Full-Stack Engineer" in PyTake(r, MAX_ROLE_TYPES)
    ensures leadership && "Tech Lead" !in base
            && |base| + Added(base, "ML Engineer", ml) + Added(base, "Full-Stack Engineer", fullStack) < MAX_ROLE_TYPES ==>
              "Senior Engineer" in PyTake(r, MAX_ROLE_TYPES)
  {
    var a := AddRole(base, "ML Engineer", ml);
    var b := AddRole(a, "Full-Stack Engineer", fullStack);
    assert "Tech Lead" in b <==> "Tech Lead" in base;
    assert "Full-Stack Engineer" in a <==> "Full-Stack Engineer" in base;
    var c := AddRole(b, "Senior Engineer", leadership && "Tech Lead" !in b);
    CutKeepsRole(a, b, c, "ML Engineer");
    PrefixTrans(base, a, b);
    PrefixTrans(base, b, c);
    assert c[..|c|] == c;
    TakeKeepsMember(b, c, "Full-Stack Engineer");
    TakeKeepsMember(c, c, "Senior Engineer");
    c
  }

  /** A role among the first four entries of a prefix of `c` survives the cut to four. */
  lemma TakeKeepsMember(b: seq<string>, c: seq<string>, role: string)
    requires |b| <= |c| && c[..|b|] == b
    ensures |b| <= MAX_ROLE_TYPES && role in b ==> role in PyTake(c, MAX_ROLE_TYPES)
  {
    if |b| <= MAX_ROLE_TYPES {
      assert PyTake(c, MAX_ROLE_TYPES)[..|b|] == b;
    }
  }

  lemma PrefixTrans(a: seq<string>, b: seq<string>, c: seq<string>)
    requires |a| <= |b| && b[..|a|] == a && |b| <= |c| && c[..|b|] == b
    ensures |a| <= |c| && c[..|a|] == a
  {
    assert c[..|a|] == c[..|b|][..|a|];
  }

  /** A role within the first four entries of `a` survives two more
      extensions and the cut to four. */
  lemma CutKeepsRole(a: seq<string>, b: seq<string>, c: seq<string>, role: string)
    requires |a| <= |b| && b[..|a|] == a && |b| <= |c| && c[..|b|] == b
    requires |a| <= MAX_ROLE_TYPES
    ensures role in a ==> role in PyTake(c, MAX_ROLE_TYPES)
  {
    PrefixTrans(a, b, c);
    var r := PyTake(c, MAX_ROLE_TYPES);
    assert r[..|a|] == a;
  }

  /** The candidates cut to four: still free of duplicates, still led by `base`,
      holding only justified roles, and holding each cued role the cut leaves room for. */
  function CutRoles(base: seq<string>, title: string, content: string): (r: seq<string>)
    requires NoDup(base) && |base| <= 3
    ensures |r| <= MAX_ROLE_TYPES
    ensures NoDup(r)
    ensures |base| <= |r| && r[..|base|] == base
    ensures MlCue(content) ==> "ML Engineer" in r
    ensures forall x | x in r :: RoleJustified(x, base, MlCue(content), FullStackCue(content), LeadershipCue(title, content))
    ensures FullStackCue(content) && |base| + Added(base, "ML Engineer", MlCue(content)) < MAX_ROLE_TYPES ==>
              "Full-Stack Engineer" in r
    ensures LeadershipCue(title, content) && "Tech Lead" !in base
            && |base| + Added(base, "ML Engineer", MlCue(content))
               + Added(base, "Full-Stack Engineer", FullStackCue(content)) < MAX_ROLE_TYPES ==>
              "Senior Engineer" in r
  {
    var c := RoleCandidates(base, MlCue(content), FullStackCue(content), LeadershipCue(title, content));
    NoDupTake(c, MAX_ROLE_TYPES);
    TakeKeepsPrefix(c, base, MAX_ROLE_TYPES);
    var r := PyTake(c, MAX_ROLE_TYPES);
    assert forall x | x in r :: x in c;
    r
  }

  /** Role types: the category's first three table roles, then "ML Engineer",
      "Full-Stack Engineer" and "Senior Engineer" as the content suggests, cut to
      four. The list has no duplicates and starts with the table roles; every
      other entry is a role whose cue fired, "Senior Engineer" only when no
      table role is "Tech Lead"; and each cued role is present whenever the
      roles added before it leave room under the cut. */
  function InferRoleTypes(category: string, title: string, content: string): (r: seq<string>)
    ensures |r| <= MAX_ROLE_TYPES
    ensures NoDup(r)
    ensures |BaseRoleTypes(category)| <= |r| && r[..|BaseRoleTypes(category)|] == BaseRoleTypes(category)
    ensures MlCue(content) ==> "ML Engineer" in r
    ensures forall x | x in r ::
              RoleJustified(x, BaseRoleTypes(category), MlCue(content), FullStackCue(content), LeadershipCue(title, content))
    ensures FullStackCue(content)
            && |BaseRoleTypes(category)| + Added(BaseRoleTypes(category), "ML Engineer", MlCue(content)) < MAX_ROLE_TYPES ==>
              "Full-Stack Engineer" in r
    ensures LeadershipCue(title, content) && "Tech Lead" !in BaseRoleTypes(category)
            && |BaseRoleTypes(category)| + Added(BaseRoleTypes(category), "ML Engineer", MlCue(content))
               + Added(BaseRoleTypes(category), "Full-Stack Engineer", FullStackCue(content)) < MAX_ROLE_TYPES ==>
              "Senior Engineer" in r
  {
    CutRoles(BaseRoleTypes(category), title, content)
  }

  // ----------------------------------------------------------- company types

  predicate ScaleCue(content: string) {
    ContainsAny(content, ["1B+", "billion", "PB", "petabyte", "international", "17 countries"])
  }

  predicate InnovationCue(content: string) {
    ContainsAny(content, ["0-to-1", "MVP", "sole engineer", "ground up", "pioneered"])
  }

  predicate BusinessCue(content: string) {
    Contains(content, "$") || Contains(Lower(content), "revenue") || Contains(Lower(content), "cost savings")
  }

  /** Some company-type cue fires: scale, innovation, business, or the ML category. */
  predicate CompanyCue(category: string, content: string) {
    ScaleCue(content) || InnovationCue(content) || BusinessCue(content) || category == ML_CATEGORY
  }

  /** Why a company tag may appear: the cue that adds it fired. */
  predicate TagJustified(x: string, category: string, content: string) {
    || (x == "Big Tech" && ScaleCue(content))
    || ((x == "Startup" || x == "Scale-up") && InnovationCue(content))
    || (x == "Product-focused" && BusinessCue(content))
    || (x == "ML/AI Company" && category == ML_CATEGORY)
  }

  /** How many tags the scale and innovation cues contribute before the others. */
  function EarlyTags(content: string): nat {
    (if ScaleCue(content) then 1 else 0) + (if InnovationCue(content) then 2 else 0)
  }

  /** The tags the cues append, in the source's order, before the default and
      the cut: every tag is justified, none repeats, and each sits at the
      position the tags before it leave. */
  function CompanyCandidates(category: string, content: string): (d: seq<string>)
    ensures NoDup(d)
    ensures forall x | x in d :: TagJustified(x, category, content)
    ensures d == [] <==> !CompanyCue(category, content)
    ensures ScaleCue(content) ==> d[0] == "Big Tech"
    ensures InnovationCue(content) ==>
              |d| >= EarlyTags(content) && d[EarlyTags(content) - 2] == "Startup" && d[EarlyTags(content) - 1] == "Scale-up"
    ensures BusinessCue(content) ==> |d| > EarlyTags(content) && d[EarlyTags(content)] == "Product-focused"
    ensures category == ML_CATEGORY ==>
              |d| == EarlyTags(content) + (if BusinessCue(content) then 1 else 0) + 1 && d[|d| - 1] == "ML/AI Company"
  {
    var a := if ScaleCue(content) then ["Big Tech"] else [];
    var b := if InnovationCue(content) then a + ["Startup", "Scale-up"] else a;
    var c := if BusinessCue(content) then b + ["Product-focused"] else b;
    if category == ML_CATEGORY then c + ["ML/AI Company"] else c
  }

  /** Company types: one to three distinct tags. With no cue at all the three
      general tags are returned; otherwise every tag is one whose cue fired,
      "Big Tech" leads on a scale cue, "Startup" and "Scale-up" are always kept
      on an innovation cue, and "Product-focused" and "ML/AI Company" are kept
      whenever the tags before them leave room under the cut to three. */
  function InferCompanyTypes(category: string, title: string, content: string): (r: seq<string>)
    ensures 1 <= |r| <= MAX_COMPANY_TYPES
    ensures NoDup(r)
    ensures ScaleCue(content) ==> r[0] == "Big Tech"
    ensures (!ScaleCue(content) && !InnovationCue(content) && !BusinessCue(content)
             && category != ML_CATEGORY) ==> r == DEFAULT_COMPANY_TYPES
    ensures InnovationCue(content) && !ScaleCue(content) ==> |r| >= 2 && r[..2] == ["Startup", "Scale-up"]
    ensures CompanyCue(category, content) ==> forall x | x in r :: TagJustified(x, category, content)
    ensures InnovationCue(content) ==> "Startup" in r && "Scale-up" in r
    ensures BusinessCue(content) && EarlyTags(content) < MAX_COMPANY_TYPES ==> "Product-focused" in r
    ensures category == ML_CATEGORY
            && EarlyTags(content) + (if BusinessCue(content) then 1 else 0) < MAX_COMPANY_TYPES ==>
              "ML/AI Company" in r
  {
    var d := CompanyCandidates(category, content);
    var e := if d == [] then DEFAULT_COMPANY_TYPES else d;
    var r := PyTake(e, MAX_COMPANY_TYPES);
    assert forall k | 0 <= k < |r| :: r[k] == e[k];
    assert forall x | x in r :: x in e;
    r
  }

  // ---------------------------------------------------------------- strength

  /** Impact tier: 3 for headline figures, 2 for money or large-scale markers,
      1 for any number, else 0. */
  function ImpactPoints(content: string): (n: nat)
    ensures n <= 3
    ensures n == 0 <==> !HasDigit(content) && !ContainsAny(content, ["$", "M+", "TB+", "international"])
                        && !ContainsAny(content, ["$10M", "1B+", "PB+", "17 countries", "500M"])
  {
    if ContainsAny(content, ["$10M", "1B+", "PB+", "17 countries", "500M"]) then 3
    else if ContainsAny(content, ["$", "M+", "TB+", "international"]) then 2
    else if HasDigit(content) then 1
    else 0
  }

  /** Leadership tier: 2 for leading or building verbs, 1 for delivery verbs, else 0. */
  function LeadershipPoints(content: string): (n: nat)
    ensures n <= 2
    ensures n == 0 <==> !ContainsAny(content, ["led", "architected", "built", "designed", "sole engineer"])
                        && !ContainsAny(content, ["developed", "implemented", "created"])
  {
    if ContainsAny(content, ["led", "architected", "built", "designed", "sole engineer"]) then 2
    else if ContainsAny(content, ["developed", "implemented", "created"]) then 1
    else 0
  }

  /** Scope tier: 1 for totalising words, else 0. */
  function ScopePoints(content: string): (n: nat)
    ensures n <= 1
    ensures n == 1 <==> ContainsAny(Lower(content), ["zero", "100%", "complete", "comprehensive"])
  {
    if ContainsAny(Lower(content), ["zero", "100%", "complete", "comprehensive"]) then 1 else 0
  }

  /** The scope tier ignores the content's letter case: the check runs on the
      lower-cased content, and lower-casing twice changes nothing. */
  lemma ScopeIgnoresCase(content: string)
    ensures ScopePoints(Lower(content)) == ScopePoints(content)
  {
    LowerIdempotent(content);
  }

  /** The strength score, the sum of the three exclusive tiers. */
  function StrengthScore(content: string): (n: nat)
    ensures n <= 6
  {
    ImpactPoints(content) + LeadershipPoints(content) + ScopePoints(content)
  }

  /** The tier a score maps to: at least 5 is essential, 3 or 4 strong, else good. */
  function TierOf(score: int): string {
    if score >= 5 then "essential" else if score >= 3 then "strong" else "good"
  }

  /** `{"good": 0, "strong": 1, "essential": 2}.get(level, 0)`. */
  function LevelOrder(level: string): (n: nat)
    ensures n <= 2
  {
    if level == "essential" then 2 else if level == "strong" then 1 else 0
  }

  function DetermineStrengthLevel(content: string): string {
    TierOf(StrengthScore(content))
  }

  /** A higher score never gives a lower tier. */
  lemma TierMonotone(a: int, b: int)
    requires a <= b
    ensures LevelOrder(TierOf(a)) <= LevelOrder(TierOf(b))
  {
  }

  /** The level is always one of the three tiers, and an "essential" block
      carries both a figure and a leadership or delivery verb. */
  lemma StrengthLevelShape(content: string)
    ensures DetermineStrengthLevel(content) in {"essential", "strong", "good"}
    ensures DetermineStrengthLevel(content) == "essential" ==>
              ImpactPoints(content) >= 2 && LeadershipPoints(content) >= 1
  {
  }

  // ------------------------------------------------------------------ blocks

  /** A block as the importer assembles it from one category, title and content. */
  function BuildBlock(category: string, title: string, content: string, pm: PatternMatches): LegoBlock {
    LegoBlock(category, None, title, content,
              SkillsOf(content, category), KeywordsOf(content, pm), DetermineStrengthLevel(content),
              InferRoleTypes(category, title, content), InferCompanyTypes(category, title, content))
  }

  /** The shape every imported block has. */
  predicate WellFormed(b: LegoBlock) {
    && |b.keywords| <= MAX_KEYWORDS
    && |b.skills| <= MAX_SKILLS && NoDup(b.skills)
    && |b.roleTypes| <= MAX_ROLE_TYPES && NoDup(b.roleTypes)
    && 1 <= |b.companyTypes| <= MAX_COMPANY_TYPES
    && b.strengthLevel in {"essential", "strong", "good"}
    && b.subcategory.None?
  }

  lemma BuildBlockWellFormed(category: string, title: string, content: string, pm: PatternMatches)
    ensures WellFormed(BuildBlock(category, title, content, pm))
  {
    SkillsShape(content, category);
    StrengthLevelShape(content);
  }
}
