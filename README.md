# CV maker core, modelled in Dafny

This project models the logic at the heart of the CV maker backend. Achievement
"lego blocks" are read from a markdown document. The heuristics tag each block
with skills, keywords, role types, company types and a strength tier. The library
is searched, ranked, grouped and summarised. Blocks are selected and rendered for
a job into a LaTeX CV. Around that core sit a UK take-home-pay calculator, the job
parser's salary, seniority and missing-field heuristics, the markdown importer of
the data-import script, and the staleness colour of a tracked application.

Modules, one per source file or concern:

- `Text`: strings as `seq<char>`. It holds Python's `strip`, `lower`, `upper`,
  `in`, `replace`, `split` and `join`, and the whitespace and digit classes.
- `Collections`: Python's stable descending sort (`SortDesc`), slicing
  (`PyTake`), insertion-ordered grouping into dicts (`GroupBy`), counting
  (`Tally`) and list comprehensions (`Filter`). Each comes with its
  correctness lemmas.
- `LegoInference`: the per-block heuristics of `backend/lego_blocks.py`. That is
  keywords, skills, role types, company types and strength tier.
- `LegoParser`: the line reader of `import_from_markdown` as a function over
  the document's lines.
- `LegoManager`: the `LegoBlockManager` class (a `class` whose `blocks` field
  the import replaces). Beside it are the search, ranking, grouping and
  statistics functions that specify its methods.
- `CvGenerator`: keyword-matching selection, relevance ranking, LaTeX escaping
  and LaTeX generation from `backend/cv_generator.py`.
- `JobParser`: `parse_salary`, `determine_experience_level` and
  `_get_missing_fields` from `backend/job_parser.py`.
- `ImportCv`: `parse_markdown_file` and `extract_skills` from
  `backend/import_cv_data.py`. The reader is a fold of per-line effects.
- `Tax`: `backend/tax_calculator.py`, with `Decimal` as exact `real` arithmetic.
- `Crud`: `get_job_staleness` from `backend/crud.py`. Dates are day numbers
  and "today" is a parameter.

Loops of the source are `method`s with loops. Each is proved equal to a
specification function, and the properties are lemmas about those functions.
Python exceptions become `Err` values of a `Result` datatype, named after the
exception (`ValueError`, `KeyError`, `InvalidOperation`). Two representation
choices apply throughout:

- Python's falsy `None` and `""` are both represented by `""`.
- The lego library's `rank_blocks` scores are counted in half-points. A stored
  score `s` stands for the source's float `s / 2`, so every step (0.5, 1.5,
  2.5, ...) stays integral.

Statements about the behaviour of the code as written:

- A `## ` heading directly under a `### ` title is consumed as that title's
  content line. Its category is therefore lost (`LegoParser.HeadingUnderTitleIgnored`).
- One keyword pattern that matches the same term twice keeps both copies,
  because de-duplication is only against keywords found by earlier patterns
  (`LegoInference.RepeatedMatchKept`).
- `_escape_latex` replaces the backslash last, so the backslash it has just
  inserted for `&` is itself replaced: `&` becomes `\textbackslash{}&`
  (`CvGenerator.EscapeAmpersand`).
- A comma standing alone in a salary string makes `int('')` raise
  (`JobParser.LoneCommaRaises`).
- `recommend_budget(0)` raises `InvalidOperation` on `0 / 0`
  (`Tax.RecommendBudget`).
- `get_summary_stats` raises `KeyError` on a block whose tier is not one of
  the three dictionary keys (`LegoManager.SummaryConsistent`).

## Model

| member | source | states |
|---|---|---|
| LegoInference.ExtractKeywords | backend/lego_blocks.py:155-180 | The loop over the five patterns yields exactly `KeywordsOf`. Each pattern's matches that are not already in the list are appended in order, and the list is cut to 15. |
| LegoInference.KeywordsBounded | backend/lego_blocks.py:165-180 | At most 15 keywords, each found by some pattern. When the patterns find at most 15 values in all, none is dropped. |
| LegoInference.ExtendAllAcrossLists | backend/lego_blocks.py:165-178 | Each pattern contributes only values absent from everything earlier patterns contributed. |
| LegoInference.RepeatedMatchKept | backend/lego_blocks.py:165-167 | A term one pattern matches twice appears twice: de-duplication is only against the list built before that pattern. |
| LegoInference.DollarAmounts | backend/lego_blocks.py:172 | Every `$` amount found is a `$` followed by a digit, and occurs in the content. There is exactly one amount per `$` directly followed by a digit. |
| LegoInference.Percentages | backend/lego_blocks.py:173 | Every percentage found starts with a digit, holds `%`, and occurs in the content. There is exactly one percentage per digit directly followed by `%`. |
| LegoInference.ExtractSkills | backend/lego_blocks.py:182-201 | The skill loop yields exactly `SkillsOf`: the category's first three table skills, then the mentioned technologies, cut to 8. |
| LegoInference.AppendMentioned | backend/lego_blocks.py:197-199 | The technology loop appends, in table order, each technology mentioned case-insensitively and not yet listed. |
| LegoInference.SkillsShape | backend/lego_blocks.py:182-201 | At most 8 skills and no duplicates. A known category's list starts with its first three table skills. Every later entry is a table technology the content mentions, ignoring case. |
| LegoInference.MentionedTechIncluded | backend/lego_blocks.py:197-199 | Before the cut, every technology the content mentions, ignoring case, is in the list. |
| LegoInference.BaseRoleTypesFromTable | backend/lego_blocks.py:207-209 | Role types start from the first three table entries of a known category, and from nothing otherwise. |
| LegoInference.AddRole | backend/lego_blocks.py:212-222 | Adding a role keeps the list free of duplicates and its prefix intact. The role is present afterwards exactly when it was before or its cue fired. |
| LegoInference.InferRoleTypes | backend/lego_blocks.py:203-224 | At most 4 role types, no duplicates, led by the category's table roles. Every other entry is a role whose cue fired, "Senior Engineer" only when no table role is "Tech Lead". "ML Engineer" is present whenever its cue fires. "Full-Stack Engineer" and "Senior Engineer" are present whenever their cue fires and the roles added before them leave room under the cut. |
| LegoInference.CompanyCandidates | backend/lego_blocks.py:229-245 | Before the default and the cut, the tags are distinct, each one added by a cue that fired, and empty exactly when no cue fires. Each tag sits right after the tags of the earlier cues. |
| LegoInference.InferCompanyTypes | backend/lego_blocks.py:226-251 | One to three distinct tags. With no cue the three default tags are returned. Otherwise every tag is one whose cue fired: "Big Tech" for scale, "Startup" and "Scale-up" for innovation, "Product-focused" for business, "ML/AI Company" for the ML category. "Big Tech" leads on a scale cue, "Startup" and "Scale-up" are always kept, and the later tags are kept whenever the earlier ones leave room under the cut to three. |
| LegoInference.ImpactPoints | backend/lego_blocks.py:257-263 | At most 3 points. None exactly when the content has no headline figure, no money or scale marker and no digit. |
| LegoInference.LeadershipPoints | backend/lego_blocks.py:265-269 | At most 2 points. None exactly when neither a leadership verb nor a delivery verb occurs. |
| LegoInference.ScopeIgnoresCase | backend/lego_blocks.py:271-273 | The scope point does not depend on letter case: lower-casing the content first gives the same point. |
| LegoInference.RoleCandidates | backend/lego_blocks.py:207-222 | Before the cut, the roles are free of duplicates and led by the table roles. Each role is justified by the table or its cue. Each cued role lies within the first four whenever the roles before it leave room. |
| LegoInference.StrengthScore | backend/lego_blocks.py:255-273 | The total score never exceeds 6. |
| LegoInference.TierMonotone | backend/lego_blocks.py:275-280 | A higher score never gives a lower tier. |
| LegoInference.StrengthLevelShape | backend/lego_blocks.py:253-280 | The tier is always one of the three names. "essential" needs both an impact figure and a leadership or delivery verb. |
| LegoInference.BuildBlockWellFormed | backend/lego_blocks.py:123-145 | A block built by the importer respects every limit: keywords, skills, role types, company types and a known tier. |
| LegoParser.DropGlyphs | backend/lego_blocks.py:97 | The `[glyphs]*` part of the heading regex removes a prefix made only of glyphs, and leaves no leading glyph. |
| LegoParser.CleanCategorySpec | backend/lego_blocks.py:97-98 | The category is exactly the text after the heading's markup (`##`, whitespace, the longest run of glyphs, whitespace), with only trailing whitespace removed. |
| LegoParser.BoldSpanSpec | backend/lego_blocks.py:119-121 | A bold span exists exactly when two non-overlapping `**` occur. The span holds no `**`. |
| LegoParser.ImporterSound | backend/lego_blocks.py:123-145 | The importer's block builder keeps category, title and content, and yields well-formed blocks. |
| LegoParser.BlockAt | backend/lego_blocks.py:110-148 | A title line yields at most one block. |
| LegoParser.ReadBlockSound | backend/lego_blocks.py:110-145 | A title line followed by a line with a bold span yields exactly the block built from them. That block is sound. |
| LegoParser.ParseFromSound | backend/lego_blocks.py:67-153 | Every imported block: is well formed; lies under a non-empty category that is not a stop heading; has no `**` in its content; and was read from a `### ` line and the bold span of the line after it. There are at most half as many blocks as lines. |
| LegoParser.SkipStep | backend/lego_blocks.py:89-92 | Blank lines, `*Note:` lines and `---` rules are passed over. |
| LegoParser.HeadingStep | backend/lego_blocks.py:95-107 | A `## ` heading ends the import when it is a NOTES ON or ACHIEVEMENT THEMES heading. Otherwise it becomes the current category. |
| LegoParser.OtherStep | backend/lego_blocks.py:109-150 | Any other line, including a title before the first category, is passed over. |
| LegoParser.TitleStep | backend/lego_blocks.py:110-148 | A title under a category yields the block at that line. Reading resumes two lines on, under the same category. |
| LegoParser.TitleLine | backend/lego_blocks.py:90-110 | A `### ` line is neither skipped nor taken for a `## ` heading. |
| LegoParser.HeadingUnderTitleIgnored | backend/lego_blocks.py:110-148 | A `## ` heading right after a title is consumed as content. The next title is filed under the earlier category. |
| LegoParser.EmptyTitleSkipped | backend/lego_blocks.py:115-148 | A title whose next line has no bold span yields nothing, and skips that line. |
| LegoManager.LegoBlockManager.constructor | backend/lego_blocks.py:63-65 | A new manager holds no blocks. |
| LegoManager.LegoBlockManager.ImportFromMarkdown | backend/lego_blocks.py:67-153 | The library is replaced by the parsed document's blocks, which are returned. Every stored block is well formed. |
| LegoManager.ImportLines | backend/lego_blocks.py:84-151 | The reader's loop collects exactly the blocks `ParseFrom` describes. |
| LegoManager.ImportStep | backend/lego_blocks.py:86-150 | One turn advances one or two lines. It never makes a stop heading current. It splits the remaining parse into this turn's blocks and the rest, or ends it at a stop heading. |
| LegoManager.ReadTitle | backend/lego_blocks.py:110-145 | The title branch builds exactly the importer's block for the title and the bold span of the next line. |
| LegoManager.SearchSpec | backend/lego_blocks.py:282-334 | A block is in the result exactly when it is in the library and meets every given criterion. The result keeps library order. With no criterion the whole library comes back. |
| LegoManager.SearchNarrows | backend/lego_blocks.py:305-332 | A stricter set of criteria returns a subsequence of the looser one's result. |
| LegoManager.UnknownStrengthIgnored | backend/lego_blocks.py:328-332 | A minimum strength naming none of the three tiers filters nothing (it counts as "good"). |
| LegoManager.StageStep | backend/lego_blocks.py:305-332 | Each filter stage narrows the previous stage's result to the blocks passing one more criterion. A criterion not given leaves it unchanged. |
| LegoManager.ApplyStage | backend/lego_blocks.py:305-332 | One `if criterion: results = [...]` step leaves the blocks passing one more stage. |
| LegoManager.LegoBlockManager.SearchBlocks | backend/lego_blocks.py:282-334 | The five filters, applied in the source's order, return exactly the matching blocks in library order. |
| LegoManager.RequirementPoints | backend/lego_blocks.py:361-368 | A requirement scores at most 3.0, and 3.0 exactly when the content contains it, ignoring case. |
| LegoManager.SkillPoints | backend/lego_blocks.py:372-376 | A required skill scores at most 2.5. |
| LegoManager.StrengthBoost | backend/lego_blocks.py:383-388 | The tier boost is at most 2.0, and zero exactly for a name outside the three tiers. |
| LegoManager.ContentHits | backend/lego_blocks.py:391-396 | The density bonus counts at most one hit per requirement. |
| LegoManager.RequirementsBounds | backend/lego_blocks.py:361-368 | Requirements add at most 3.0 each, and exactly 3.0 each when the content holds them all. |
| LegoManager.SkillsBound | backend/lego_blocks.py:371-376 | Required skills add at most 2.5 each. |
| LegoManager.ScoreBounds | backend/lego_blocks.py:357-398 | A score is at most 3.5 per requirement plus 2.5 per skill plus 4.0. When the content holds every requirement, it is at least 3.5 per requirement plus the tier boost. |
| LegoManager.ScoreMonotone | backend/lego_blocks.py:361-396 | One more requirement never lowers a score. It raises the score by exactly 3.5 when the content holds it. |
| LegoManager.ScoreBlock | backend/lego_blocks.py:357-396 | The per-block accumulation equals the block's score. |
| LegoManager.ScoreRequirements | backend/lego_blocks.py:361-368 | The requirement loop sums each requirement's content, title or keyword points. |
| LegoManager.ScoreSkills | backend/lego_blocks.py:371-376 | The required-skill loop sums each skill's points. |
| LegoManager.CountContentHits | backend/lego_blocks.py:391-394 | The generator counts the requirements the content holds. |
| LegoManager.LegoBlockManager.RankBlocks | backend/lego_blocks.py:336-403 | The result is the given blocks, each paired with its own score, sorted by score, highest first. It is a permutation of them, and blocks with equal scores keep their input order. |
| LegoManager.LegoBlockManager.GetBlocksByCategory | backend/lego_blocks.py:405-410 | Each group holds exactly the library's blocks of its category, in library order. Categories are distinct and ordered by first appearance. |
| LegoManager.CategoriesOf | backend/lego_blocks.py:416 | The category list has one entry per block, in order. |
| LegoManager.CountLevel | backend/lego_blocks.py:431 | A tier count never exceeds the number of blocks. |
| LegoManager.LevelsPartition | backend/lego_blocks.py:418-431 | When every tier is known, the three tier counts add up to the number of blocks. |
| LegoManager.TopCountsSpec | backend/lego_blocks.py:433-445 | A top list has at most ten entries, ordered by count. Each entry is a value with its exact number of occurrences. No value left out occurs more often than one kept. With at most ten values, nothing is dropped. |
| LegoManager.SummaryConsistent | backend/lego_blocks.py:412-447 | The statistics fail with `KeyError` exactly when some block's tier is unknown. Otherwise the tiers and the category breakdown each count every block once, and `categories` equals the number of breakdown entries. |
| LegoManager.CountCategoriesAndLevels | backend/lego_blocks.py:427-431 | The first statistics loop yields the category tally and the three tier counts, or reports an unknown tier. |
| LegoManager.BumpAll | backend/lego_blocks.py:436-437 | Counting a further list of values extends the tally of everything seen so far. |
| LegoManager.CountSkills | backend/lego_blocks.py:433-437 | The skill counts are the tally of all blocks' skills, in first-seen order. |
| LegoManager.CountRoleTypes | backend/lego_blocks.py:440-444 | The role counts are the tally of all blocks' role types, in first-seen order. |
| LegoManager.LegoBlockManager.GetSummaryStats | backend/lego_blocks.py:412-447 | The method returns exactly `SummaryOf` of the library, including its `KeyError` case. A library of well-formed blocks, as every import leaves it, never raises. |
| Collections.SortDesc | backend/lego_blocks.py:400-401 | The sort's result is a permutation of its input. |
| Collections.SortDescSorted | backend/lego_blocks.py:400-401 | The sort's result is ordered by score, highest first. |
| Collections.SortDescStable | backend/lego_blocks.py:400-401 | For every score, the items with that score keep their input order. |
| Collections.PyTake | backend/cv_generator.py:163 | `xs[:n]` takes the first `n` items; a negative `n` drops the last `-n`. |
| Collections.GroupByCorrect | backend/lego_blocks.py:405-410 | Grouping yields distinct keys. Each key's group is exactly the items with that key, in order. |
| Collections.GroupByFirstAppearance | backend/lego_blocks.py:405-410 | The groups are ordered by the first appearance of their key. |
| Collections.GroupByTotal | backend/lego_blocks.py:405-410 | The groups together hold every item once. |
| Collections.TallyCorrect | backend/lego_blocks.py:428-437 | A tally lists each distinct value once, with its number of occurrences. |
| Collections.TallySum | backend/lego_blocks.py:428-430 | A tally's counts add up to the number of values. |
| Collections.TallyDistinctCount | backend/lego_blocks.py:416 | A tally has one entry per distinct value, as `len(set(...))` counts them. |
| Collections.Filter | backend/lego_blocks.py:307-332 | A list comprehension keeps only items of the list that pass its test, and every item that passes. |
| Collections.FilterSubseq | backend/lego_blocks.py:307-332 | A list comprehension keeps its items in their original order. |
| CvGenerator.JobKeywordsShape | backend/cv_generator.py:128-134 | The ranking's keywords are lower-case and include every lower-cased skill and requirement. The selection's keywords add only words of the lower-cased role. |
| CvGenerator.ListHitsPositive | backend/cv_generator.py:142-151 | A block's skills or keywords score exactly when one of them, lower-cased, is a job keyword. |
| CvGenerator.ListHitsMonotone | backend/cv_generator.py:142-151 | More job keywords never give fewer skill or keyword hits. |
| CvGenerator.ScorePositive | backend/cv_generator.py:141-158 | A block is scored, and so kept, exactly when a skill or keyword is a job keyword, or a job keyword occurs in its title and content. |
| CvGenerator.ScoreMonotone | backend/cv_generator.py:126-156 | More job keywords never lower a block's score. |
| CvGenerator.ScoreBlock | backend/cv_generator.py:138-156 | The scoring loops compute three points per matching skill, two per matching keyword and one per job keyword in the text. |
| CvGenerator.ContentHits | backend/cv_generator.py:154-156 | The loop over the keyword set counts the job keywords occurring in the text. |
| CvGenerator.PositiveScored | backend/cv_generator.py:136-159 | The pairs kept are exactly the given blocks with a positive score, each with that score. |
| CvGenerator.ScoreScoring | backend/cv_generator.py:136-159 | The block loop yields exactly the positively scored blocks in input order. |
| CvGenerator.SelectBlocksFallback | backend/cv_generator.py:124-163 | The scoring loop, the stable descending sort and the slice yield exactly `SelectFallback`, the top `max_blocks` of the positively scored blocks. `SelectionSound` states their order and their number. |
| CvGenerator.SelectionSound | backend/cv_generator.py:158-163 | Every selected block is a given block with a positive score, in non-increasing score order. There are exactly min(`max_blocks`, number of scoring blocks) of them, or the slice's count for a negative `max_blocks`. |
| CvGenerator.SelectionIsTop | backend/cv_generator.py:161-163 | A block scoring higher than some selected block is itself selected. |
| CvGenerator.AllScoringSelected | backend/cv_generator.py:158-163 | When `max_blocks` is at least the number of positively scored blocks, every one of them is selected. |
| CvGenerator.NormalizedMonotone | backend/cv_generator.py:207 | A higher raw score never normalises lower. 100 is reached exactly from ten points on, and 0 only from no points. |
| CvGenerator.RankBlocks | backend/cv_generator.py:165-212 | The method yields `RankingOf`: `ValueError` for a missing job, otherwise the entries sorted by score (so `[]` for an empty library). |
| CvGenerator.RankingShape | backend/cv_generator.py:187-212 | Every block appears in the ranking exactly once, with its id and its normalised score against the keywords without role words. Every score lies in 0..100, and the scores do not increase. |
| CvGenerator.EscapeLatex | backend/cv_generator.py:295-311 | The replacement loop applies the ten replacements in dictionary order, each over the whole string. |
| CvGenerator.EscapePlain | backend/cv_generator.py:309-311 | Text without special characters is returned unchanged. |
| CvGenerator.EscapeKeeps | backend/cv_generator.py:309-311 | Replacements whose character is absent leave the text as it is. |
| CvGenerator.EscapeRemovesTildeCaret | backend/cv_generator.py:305-311 | No `~` or `^` survives escaping. |
| CvGenerator.EscapeAmpersand | backend/cv_generator.py:298-310 | `&` becomes `\textbackslash{}&`, because the backslash replacement comes last. |
| CvGenerator.GroupBySection | backend/cv_generator.py:275-280 | The grouping loop groups the blocks by category, with "General" for none, in first-appearance order. |
| CvGenerator.RenderSection | backend/cv_generator.py:283-290 | A category renders as its escaped subsection heading, then an itemize holding one escaped item per block. |
| CvGenerator.GenerateLatex | backend/cv_generator.py:251-293 | The document is the preamble, the sections in first-appearance order and `\end{document}`. |
| CvGenerator.LatexFrame | backend/cv_generator.py:263-292 | Every document starts with the preamble and ends with `\end{document}`. |
| CvGenerator.LatexHasEveryBlock | backend/cv_generator.py:274-290 | Every given block's escaped item line occurs in the document. |
| CvGenerator.RenderHas | backend/cv_generator.py:283-290 | Whatever one rendered part contains, the concatenation contains. |
| JobParser.CurrencyOf | backend/job_parser.py:435-442 | GBP exactly when `£` or "GBP" occurs. USD exactly when that fails and `$` or "USD" occurs. No currency exactly when none of the six cues occurs. |
| JobParser.NumberRuns | backend/job_parser.py:445 | Every run found is non-empty and consists of digits and commas. |
| JobParser.RunStarts | backend/job_parser.py:445 | The run starts of `s[from..]` (number characters whose left neighbour is not one) are listed, all of them, in strictly increasing order. |
| JobParser.NumberRunsExact | backend/job_parser.py:445 | The runs found are exactly the maximal runs: one per run start, in order of start, each reaching the end of its run, and no others. |
| JobParser.RunStartsAt | backend/job_parser.py:445 | Every maximal run of digits and commas is found. |
| JobParser.RunValueDefined | backend/job_parser.py:452 | A run converts exactly when it holds a digit. |
| JobParser.ConvertRuns | backend/job_parser.py:450-456 | The conversion loop yields each run's value in order, times 1000 under a `k`, or stops at the `ValueError` a comma-only run raises. |
| JobParser.RunValues | backend/job_parser.py:450-456 | All runs convert exactly when each has a value; the values are then, run by run, the run's number times 1000 under `k`. |
| JobParser.ParseSalary | backend/job_parser.py:425-468 | The method yields exactly `SalaryOf`, including its error case. |
| JobParser.SalaryBounds | backend/job_parser.py:445-466 | A parse with numbers gives both bounds and the detected currency. Every run has a value. The minimum and the maximum are each some run's value, scaled by 1000 under `k` and by 40 * 52 when hourly, and they bound every such value. |
| JobParser.SalaryWithoutNumbers | backend/job_parser.py:432-447 | An empty string gives three `None`s. A string without digits or commas gives no bounds and its currency. |
| JobParser.LoneCommaRaises | backend/job_parser.py:445-452 | A comma standing alone makes the parse fail with `ValueError`. |
| JobParser.KiloSingle | backend/job_parser.py:453-466 | With `k` in the string and a single number `n`, both bounds are `n * 1000`, or `n * 1000 * 40 * 52` when the rate is hourly. |
| JobParser.SalaryErrors | backend/job_parser.py:445-456 | The parse fails with `ValueError` exactly when some run of digits and commas holds no digit. |
| JobParser.ExperienceLevel | backend/job_parser.py:470-505 | The level is one of junior, mid, senior, staff, principal. |
| JobParser.FirstYearsCorrect | backend/job_parser.py:492-494 | The years scan returns nothing exactly when no position matches the years pattern. Otherwise it returns the number at the leftmost match. |
| JobParser.LevelPrecedence | backend/job_parser.py:470-505 | A level word decides the level whatever years are stated. A junior word gives junior whatever else occurs. Principal comes only from a principal word with no junior or staff word. |
| JobParser.YearsLevelMonotone | backend/job_parser.py:495-502 | More years never give a more junior level. |
| JobParser.LevelDefault | backend/job_parser.py:504-505 | Without a level word or a years match the level is mid. |
| JobParser.LevelFromYears | backend/job_parser.py:491-502 | Without a level word, the years at the first match decide the level. |
| JobParser.GetMissingFields | backend/job_parser.py:305-314 | The result holds exactly the fields role, company and location, in that order, that are absent or empty. |
| ImportCv.ExtractSkills | backend/import_cv_data.py:79-108 | The keyword loop and the final sort yield exactly `SkillsOf`. |
| ImportCv.CollectMentioned | backend/import_cv_data.py:102-106 | The loop's set holds exactly the table keywords the content mentions, ignoring case. |
| ImportCv.FoundInTableOrder | backend/import_cv_data.py:108 | Listing the found set in table order gives the mentioned keywords in table order. |
| ImportCv.TechKeywordsSorted | backend/import_cv_data.py:92-100 | Held in code-point order, the keyword table is strictly sorted, so table order is `sorted()` order. |
| ImportCv.MentionedShape | backend/import_cv_data.py:104-108 | For a strictly sorted table, the mentioned keywords are sorted and free of duplicates. They are exactly the table keywords the content mentions. |
| ImportCv.SkillsOfShape | backend/import_cv_data.py:79-108 | The skills are sorted, distinct, and exactly the table keywords the content mentions, ignoring case. |
| ImportCv.SkillsGrow | backend/import_cv_data.py:104-106 | Appending text never loses a skill. |
| ImportCv.RemoveGlyphs | backend/import_cv_data.py:46 | The substitution keeps only non-glyph characters of the line. |
| ImportCv.BoldContent | backend/import_cv_data.py:63-64 | A line yields content exactly when it starts and ends with `**`. The content is stripped. |
| ImportCv.BoldContentText | backend/import_cv_data.py:63-64 | The content is the text between the two markers, stripped, and empty when the markers overlap (`**`, `***`). |
| ImportCv.CategoryOf | backend/import_cv_data.py:44-52 | A heading never makes a metadata section the current category. |
| ImportCv.CategoryOfText | backend/import_cv_data.py:44-52 | The category is the text after `## ` with every heading glyph deleted, then stripped. It holds no glyph. A metadata section gives none. |
| ImportCv.TitleLineKind | backend/import_cv_data.py:40-55 | A `### ` line is neither skipped nor a category heading. |
| ImportCv.EffectOf | backend/import_cv_data.py:36-74 | Skipped lines do nothing. Category lines set the category. `### ` lines are titles. |
| ImportCv.ReadLine | backend/import_cv_data.py:36-74 | One turn of the loop applies the line's effect to the blocks and the current category. |
| ImportCv.ReadTitle | backend/import_cv_data.py:55-74 | A title appends one block when the next line is bold, and nothing otherwise. |
| ImportCv.FoldStep | backend/import_cv_data.py:36-74 | The reader's state after a line is that line's effect on the state before it. |
| ImportCv.ParseMarkdownLines | backend/import_cv_data.py:18-76 | The loop over the lines yields exactly the fold of the line effects. |
| ImportCv.FoldWellFormed | backend/import_cv_data.py:36-74 | The current category is never a metadata section. Every block so far is well formed. |
| ImportCv.ImportedWellFormed | backend/import_cv_data.py:18-76 | Every imported block has a non-empty, non-metadata category, stripped title and content, and exactly the content's skills. |
| ImportCv.EffectParts | backend/import_cv_data.py:36-74 | A line is read as a heading exactly when it is a category line. The heading names `CategoryOf` the line. A title carries the line's text after `### ` and the next line's bold content. |
| ImportCv.BlockOrigin | backend/import_cv_data.py:36-74 | Each block after some lines came from a title effect among them. That effect carries the block's title and content. It lies under a heading naming the block's category, with no heading in between. |
| ImportCv.ImportedFromSource | backend/import_cv_data.py:18-76 | Every imported block was read at a `### ` line. Its title is that line's text and its content the bold content of the next line. Its category is the one named by the last heading before that line. |
| ImportCv.BlocksBounded | backend/import_cv_data.py:55-74 | There are no more blocks than `### ` lines. |
| ImportCv.LineGrows | backend/import_cv_data.py:36-74 | A line never removes a block read earlier. |
| ImportCv.SkippedLineInert | backend/import_cv_data.py:39-41 | Blank lines, rules and `*Note:` lines change nothing. |
| ImportCv.MetadataHeadingClears | backend/import_cv_data.py:47-49 | A metadata heading clears the current category. |
| ImportCv.NoCategorySilent | backend/import_cv_data.py:47-55 | After a metadata heading, no block is read until the next category heading. |
| Tax.DefaultSensible | backend/tax_calculator.py:14-41 | The 2025/26 figures are all non-negative. |
| Tax.CalculateIncomeTax | backend/tax_calculator.py:163-213 | The band-by-band computation equals the closed form, and the total is the sum of the three bands. |
| Tax.IncomeTaxNonNegative | backend/tax_calculator.py:179-207 | With non-negative figures, no band is negative. |
| Tax.IncomeTaxMonotone | backend/tax_calculator.py:163-213 | More taxable income never means less tax, in any band or in total. |
| Tax.BasicBandOnly | backend/tax_calculator.py:197-207 | With the default figures, an income within the basic band pays 20% of it, all in the basic band. |
| Tax.CalculateNationalInsurance | backend/tax_calculator.py:216-241 | The computation equals the closed form: nothing when income is not positive, else 8% up to the threshold and 2% above it. |
| Tax.NationalInsuranceMonotone | backend/tax_calculator.py:216-241 | National Insurance is never negative, and never falls as income rises. |
| Tax.StudentLoan | backend/tax_calculator.py:243-270 | Fails with `ValueError` exactly for a plan other than plan1 or plan2, ignoring case. Otherwise it charges the plan's rate on gross above its threshold, and nothing at or below it. |
| Tax.StudentLoanIgnoresCase | backend/tax_calculator.py:256-259 | The plan name's case does not matter. |
| Tax.StudentLoanNonNegative | backend/tax_calculator.py:265-270 | A repayment is never negative. |
| Tax.NetSalary | backend/tax_calculator.py:97-159 | Fails exactly when a loan is included under an unknown plan. Otherwise net pay plus every deduction is gross, and the monthly figures are a twelfth. The tax is the sum of its bands. The loan is the plan's repayment on gross, or zero when not included. |
| Tax.EffectiveRate | backend/tax_calculator.py:140-144 | The effective rate is all deductions as a percentage of a positive gross, and zero otherwise. |
| Tax.ChargedOnTaxable | backend/tax_calculator.py:120-159 | The pension is `gross * pension_pct`. Income tax, each of its three bands, and National Insurance are all charged on gross less the allowance and the pension. The student loan is charged on gross. |
| Tax.NoTaxWithinAllowance | backend/tax_calculator.py:130-137 | Pay within the personal allowance, with a non-negative pension, pays no tax and no National Insurance. |
| Tax.RecommendBudget | backend/tax_calculator.py:273-328 | Fails with `InvalidOperation` exactly for a zero income. Otherwise there are three categories, each with its percentage of income added. |
| Tax.BudgetSplit | backend/tax_calculator.py:289-326 | The three totals add up to the income. Each category's items add up to its total. The percentages are 50, 20 and 30. |
| Crud.JobStaleness | backend/crud.py:88-122 | No day count exactly when the job has neither date, and then the level is gray. The count runs from the last update, else from the application date, and the level is that count's colour band. |
| Crud.LevelBands | backend/crud.py:110-117 | Green under a week, yellow under two, orange under three, red from three weeks on, each band exactly. |
| Crud.LevelMonotone | backend/crud.py:110-117 | More days never give a less urgent colour. |
| Crud.StalenessGrowsWithTime | backend/crud.py:98-117 | With the same reference date, a later today never lowers the urgency. |
| Crud.FutureReferenceIsGreen | backend/crud.py:98-117 | A reference date in the future gives a negative count, which is green. |

## Left out

- Regular expressions for technologies, metrics and years: the two technology patterns and the user-count metric pattern of `_extract_keywords` (backend/lego_blocks.py:160-171) are an input (`PatternMatches`), their `findall` results. The `$` and `%` patterns are modelled as scanners. The years pattern of `determine_experience_level` is modelled as a scanner.
- Case mapping covers ASCII letters only. `\s` and `str.isspace` are an explicit whitespace list. `\d` is the ASCII digits.
- `Decimal` is exact `real` arithmetic: no precision context and no rounding. Formatting (`__str__`, `format_budget`, `calculate_take_home`'s float conversion) is not modelled.
- The class's other attributes, file reading, the database, the LLM client and `customize_block` are not modelled. cv_generator's job and block rows come in as values (`Job`, `StoredBlock`), and a missing job is `None`.
- `get_job_staleness` reads dates from a job row and `date.today()`. Here the dates are day numbers and today is a parameter.
- The lego parser is stated over any block builder (`Builder`). `Importer` is the importer's own builder, and `SoundBuilder` is what the soundness proofs need of a builder.
- `SortDesc` is an insertion sort. Only its result is modelled, not the cost of Python's sort.
- `Text.Split` models `str.split('\n')`. The document's own lines come from it, not from file reading.
- ImportCv.ExtractSkills: `sorted(set)` is modelled as the keyword table's own order. The table is held here in code-point order, and `ImportCv.TechKeywordsSorted` proves that order sorted, so the two agree.
- JobParser.ParseSalary: Python's `int()` accepts `_` separators and Unicode digits. Runs are digits and commas only, so these never arise. Non-ASCII digits are not modelled.
- LegoManager.LegoBlockManager.RankBlocks: scores are integer half-points rather than floats. The order and the ties are the same.
- LegoManager.SearchSpec: `SearchFilters` uses `""` and `[]` for a criterion not given, as Python's truth test does for both `None` and empty.
- Default arguments (`pension_pct=0.05`, `include_student_loan=True`, `plan="plan1"`, `max_blocks=6`, and the 2025/26 `TaxConfig` used when none is given) are not defaults here: each is an explicit parameter, and `Tax.DEFAULT_CONFIG` holds the default configuration.
