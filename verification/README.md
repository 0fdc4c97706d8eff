# EC-Claude-Skills core, modelled in Dafny

This project models the deterministic logic under three of the repository's
skills and proves properties of it.

- **browser-testing.**
  - The `TestManager` session recorder (`TestSession`). It is a class whose
    status, step counter, step list, console log and error message change as
    the session is entered, screenshots are captured, failures are recorded
    and the session is exited.
  - The report numbering rule, and the two reports built from that state.
  - The `run-test.py` runner (`RunTest`): the `.env.test` line parser,
    PYTHONPATH composition, the `--server`/`--port` checks and the
    `with_server.py` command list.
- **document-pptx-pro.**
  - The slide content analyzer (`ContentAnalyzer`): match scores, the
    first-strict-maximum type choice, key elements with their defaults, and
    the presentation summary.
  - The visual decider (`VisualDecider`): decisions, infographic parameters,
    the context string, the in-place budget cap over an array of decisions,
    the estimated cost and decision validation.
  - The HTML slide templating of the image integrator (`ImageIntegrator`):
    template choice, placeholder substitution over defaults, escaping,
    content formatting and page naming.
  - The infographic prompt builders (`InfographicTemplates`).
  - `buildInfographicPrompt` of the image-generation client (`KieAi`).
- **skill-creator.**
  - The SKILL.md validator (`QuickValidate`), as a function of the file's
    text or its absence.
  - The initializer (`InitSkill`): the title-case helper, the generated
    frontmatter, and the directory creation that is refused when the
    target exists. A validly named new skill passes the validator.

`Wrappers` holds `Option` and `Result`. `Text` holds the string helpers:
JavaScript `trim` and Python `strip` whitespace, decimal rendering and
parsing, zero padding, `join`, `split` and Python's path joining. `NodePath` holds Node's
`path.join` with the normalisation it applies.

Regular expressions are modelled two ways. Patterns of the content analyzer
that need a backtracking engine are an oracle: a `Matcher` answers whether
pattern k of a type matches, and `Extractors` supply the captures. The
validator's frontmatter and field regexes, and the report-name regex, are
modelled exactly over ASCII digits; the report-name regex's `\d` and `int()`
also accept other Unicode decimal digits, which the model does not.

## Model

| member | source | states |
|---|---|---|
| TestSession.TestManager.constructor | skills/browser-testing/lib/browser_testing/test_manager.py:25-53 | A new manager is pending, its counter is 0, and its step and log lists are empty; it has no error message, times or directory yet |
| TestSession.TestManager.Enter | skills/browser-testing/lib/browser_testing/test_manager.py:60-74 | Entering sets the status to running, records the start time and the test directory, and changes nothing else |
| TestSession.TestManager.OnConsole | skills/browser-testing/lib/browser_testing/test_manager.py:119-125 | A console message is appended to the log, and the log is otherwise unchanged |
| TestSession.TestManager.Capture | skills/browser-testing/lib/browser_testing/test_manager.py:127-155 | The counter rises by exactly 1 even when the screenshot fails; on success, one step numbered with the new counter and named after it is appended and its path returned; on failure, no step is added; the numbering invariant is kept |
| TestSession.TestManager.Fail | skills/browser-testing/lib/browser_testing/test_manager.py:157-166 | The status becomes failed and the stored message is replaced, so the last call wins; no step is added |
| TestSession.TestManager.Exit | skills/browser-testing/lib/browser_testing/test_manager.py:91-117 | An exception forces failed with its text as message and attempts one failure capture; otherwise running becomes passed and failed stays failed; the exception is never suppressed; both reports share the next report number and agree on counts, error section, the step entries of the run's steps and the run's console logs |
| TestSession.TestManager.ResolveStatus | skills/browser-testing/lib/browser_testing/test_manager.py:91-104 | The end time is set; an exception forces failed with its text and one failure capture; otherwise running becomes passed and an earlier failure stands |
| TestSession.TestManager.BuildReports | skills/browser-testing/lib/browser_testing/test_manager.py:112-113 | Both reports take the next report number, sit in the reports folder and agree on name, status, duration, counts and error section; their step entries are the run's steps in order and their log entries the run's console messages in order, each with its placeholder exactly when the list is empty |
| TestSession.TestManager.GenerateHtml | skills/browser-testing/lib/browser_testing/test_manager.py:208-404 | The HTML report shows the number and name; it is marked passed exactly when the status is passed; its total, success and failure cards count the steps; it has an error section iff the message is non-empty; it has one entry per step and per log line, and a placeholder exactly when there are no steps or no logs |
| TestSession.TestManager.GenerateMarkdown | skills/browser-testing/lib/browser_testing/test_manager.py:406-462 | The Markdown report has the same structure: status, total and failed counts, an error section iff there is a message, entries per step and log line, and placeholders when they are empty |
| TestSession.ScreenshotNameParts | skills/browser-testing/lib/browser_testing/test_manager.py:139 | A screenshot file name is the zero-padded counter, which reads back as the counter, then `_`, the name and `.png` |
| TestSession.ScreenshotNamesDistinct | skills/browser-testing/lib/browser_testing/test_manager.py:138-139 | Different counters give different file names, whatever the step names |
| TestSession.NumberedLowerBound | skills/browser-testing/lib/browser_testing/test_manager.py:138-152 | Under the numbering invariant, the i-th step's number is at least i+1 |
| TestSession.NumberedUpperBound | skills/browser-testing/lib/browser_testing/test_manager.py:138-152 | Under the numbering invariant, each step leaves room below the counter for every later step |
| TestSession.StepsWithinCounter | skills/browser-testing/lib/browser_testing/test_manager.py:138-152 | There are never more steps than the counter |
| TestSession.ConsecutiveNumbers | skills/browser-testing/lib/browser_testing/test_manager.py:138-152 | When no screenshot failed (counter equals the step count), the steps are numbered 1..N in call order |
| TestSession.DistinctScreenshotFiles | skills/browser-testing/lib/browser_testing/test_manager.py:138-152 | No two recorded steps share a screenshot file |
| TestSession.ParseReportName | skills/browser-testing/lib/browser_testing/test_manager.py:172-175 | A name is a report name exactly when it is non-empty leading digits followed by `_result.html` or `_result.md`, optionally with one final newline; a report name yields the value of its leading digits |
| TestSession.ReportNameRoundTrip | skills/browser-testing/lib/browser_testing/test_manager.py:191-198 | The HTML and Markdown report names written under number n are both recognised as number n |
| TestSession.MaxReportNumberBounds | skills/browser-testing/lib/browser_testing/test_manager.py:168-176 | The maximum bounds every recognised number and is itself one of them, or 0 when there is none |
| TestSession.NextReportNumber | skills/browser-testing/lib/browser_testing/test_manager.py:168-176 | The loop returns 1 + the maximum recognised number: larger than every existing report, and 1 or the successor of an existing one |
| TestSession.NextRunTakesNextNumber | skills/browser-testing/lib/browser_testing/test_manager.py:168-198 | After a run writes its two reports under n, the next run takes n+1 |
| TestSession.MaxReportNumberAppend | skills/browser-testing/lib/browser_testing/test_manager.py:168-176 | One more file raises the maximum to its number when it is a larger report number, and leaves it unchanged otherwise |
| TestSession.MaxAfterTwoReports | skills/browser-testing/lib/browser_testing/test_manager.py:168-176 | Two files both recognised as the next number n make n the new maximum |
| TestSession.GapsAreNotReused | skills/browser-testing/lib/browser_testing/test_manager.py:168-176 | Reports numbered 1, 2 and 5 give 6: gaps are not filled |
| TestSession.CountFailed | skills/browser-testing/lib/browser_testing/test_manager.py:385 | The failure count never exceeds the step count |
| TestSession.CountsPartitionSteps | skills/browser-testing/lib/browser_testing/test_manager.py:377-386 | The success and failure cards add up to the total step card |
| TestSession.ErrorSection | skills/browser-testing/lib/browser_testing/test_manager.py:236-242 | A report has an error section exactly when the message is present and non-empty, and it shows that message |
| ContentAnalyzer.MatchScoreBounds | skills/document-pptx-pro/modules/content-analyzer.js:151-163 | A score lies between 0 and 1.5 per pattern; it is 0 iff no pattern matched, and at least 1 when one did |
| ContentAnalyzer.CalculateMatchScore | skills/document-pptx-pro/modules/content-analyzer.js:151-163 | The loop adds 1 per matching pattern plus 0.5 when the match array has more than one entry, and stays within the bounds |
| ContentAnalyzer.TypeScores | skills/document-pptx-pro/modules/content-analyzer.js:111-114 | One score per content type of the pattern table |
| ContentAnalyzer.BestPickIsFirstMaximum | skills/document-pptx-pro/modules/content-analyzer.js:117-126 | The pick is the first index whose score is strictly larger than all before it and no smaller than any other, or none with score 0 |
| ContentAnalyzer.WordAt | skills/document-pptx-pro/modules/content-analyzer.js:188 | The alternative found at a position is one of the listed words and starts there; none means no word starts there |
| ContentAnalyzer.FirstWord | skills/document-pptx-pro/modules/content-analyzer.js:181-190 | An alternation of literal words finds a listed word that occurs in the text, and finds none only when no listed word occurs |
| ContentAnalyzer.RunAtStart | skills/document-pptx-pro/modules/content-analyzer.js:249 | The run taken at a position is a prefix made of ASCII letters and spaces |
| ContentAnalyzer.FirstLetterRun | skills/document-pptx-pro/modules/content-analyzer.js:249-251 | The company-name match is a non-empty run of ASCII letters and spaces in the text, absent only when the text has no such character |
| ContentAnalyzer.SplitArrows | skills/document-pptx-pro/modules/content-analyzer.js:202-204 | Splitting at `→` and `->` gives at least one piece, the first a prefix of the text, and no piece holds an arrow |
| ContentAnalyzer.CollectEvents | skills/document-pptx-pro/modules/content-analyzer.js:227-236 | The loop pushes exactly the events of the year matches, in order |
| ContentAnalyzer.ExtractKeyElements | skills/document-pptx-pro/modules/content-analyzer.js:169-270 | The key elements are those the type's extraction rules give |
| ContentAnalyzer.TrendPrecedence | skills/document-pptx-pro/modules/content-analyzer.js:181-185 | The trend is decrease iff a decrease word occurs; it is increase iff no decrease word but an increase word occurs |
| ContentAnalyzer.ProcessStepsDefault | skills/document-pptx-pro/modules/content-analyzer.js:196-206 | Process steps are never empty; they are the three placeholders exactly when no step was found (or the found ones are those placeholders) |
| ContentAnalyzer.ComparisonItemCountBounds | skills/document-pptx-pro/modules/content-analyzer.js:221-222 | The item count is max(3, ceil(marks/2)): at least 3, at least half the marks, and tight above 3 |
| ContentAnalyzer.TimelineDefault | skills/document-pptx-pro/modules/content-analyzer.js:237-243 | Timeline events are never empty and default to three years when none were found |
| ContentAnalyzer.ConceptDefault | skills/document-pptx-pro/modules/content-analyzer.js:262-263 | The concept is the default `核心概念` exactly when no concept word occurs |
| ContentAnalyzer.EventsKeepYears | skills/document-pptx-pro/modules/content-analyzer.js:227-236 | Every event has a non-empty year taken from a match, and there are no more events than matches |
| ContentAnalyzer.AnalyzeSlide | skills/document-pptx-pro/modules/content-analyzer.js:106-146 | The loop over the types computes the analysis that the specification function defines |
| ContentAnalyzer.TextOnlyIffNoMatch | skills/document-pptx-pro/modules/content-analyzer.js:128-130 | A slide is plain text iff no pattern of any type matched |
| ContentAnalyzer.ChosenIsFirstStrictMaximum | skills/document-pptx-pro/modules/content-analyzer.js:117-130 | The chosen score bounds every type's score; a chosen type scored at least 1 and is the first type with that score |
| ContentAnalyzer.AnalysisFields | skills/document-pptx-pro/modules/content-analyzer.js:7-49 | The visual need is infographic iff the type is not plain text, the infographic type is absent only for plain text, the photo category is always absent, and the index is kept |
| ContentAnalyzer.AnalyzePresentation | skills/document-pptx-pro/modules/content-analyzer.js:276-278 | One analysis per slide, each with its position as slide index and the slide's title |
| ContentAnalyzer.OccurrencesOfDistinct | skills/document-pptx-pro/modules/content-analyzer.js:7-49 | In a list of distinct types, each type occurs once or not at all |
| ContentAnalyzer.CountTypesStep | skills/document-pptx-pro/modules/content-analyzer.js:303-304 | One more analysis adds one to the count of its own type |
| ContentAnalyzer.NoAnalysesNoCounts | skills/document-pptx-pro/modules/content-analyzer.js:286-292 | With no analyses, every type count is 0 |
| ContentAnalyzer.TypeCountsPartition | skills/document-pptx-pro/modules/content-analyzer.js:294-305 | The per-type counts sum to the number of analyses |
| ContentAnalyzer.TotalOverCounts | skills/document-pptx-pro/modules/content-analyzer.js:303-304 | The `byType` map sums to the same total as the per-type counts |
| ContentAnalyzer.GenerateVisualSummary | skills/document-pptx-pro/modules/content-analyzer.js:285-307 | The loop's counts of infographic, photo and no-visual slides sum to the total, `byType` holds exactly the types that occur with their counts and sums to the total, and the cost is 5 cents per infographic |
| VisualDecider.ContextParts | skills/document-pptx-pro/modules/visual-decider.js:124-151 | The title part comes first exactly when there is a title, the type part follows it when there is a type name, and there are at most five parts |
| VisualDecider.ContextDataParts | skills/document-pptx-pro/modules/visual-decider.js:136-151 | A statistics number gives a `數據` part; a statistics trend part reads 上升 exactly for `increase` and 下降 otherwise; a process gives its step count and a timeline its event count |
| VisualDecider.ContextStringShape | skills/document-pptx-pro/modules/visual-decider.js:123-154 | A context starts with the title part when there is a title, and is empty iff there is no part at all |
| VisualDecider.BuildInfographicParams | skills/document-pptx-pro/modules/visual-decider.js:98-117 | Parameters exist iff the type (or `concept` when absent) has a strategy entry; they carry that type, its strategy's style, elements and layout, the key elements, the title and the context string |
| VisualDecider.ColorDefaults | skills/document-pptx-pro/modules/visual-decider.js:108-113 | Each colour is the caller's when truthy, otherwise its fixed default |
| VisualDecider.ParamsBuildForAnalyses | skills/document-pptx-pro/modules/visual-decider.js:99-100 | For every analysis the strategy lookup succeeds; plain text falls back to `concept` |
| VisualDecider.StrategyForEveryType | skills/document-pptx-pro/modules/visual-decider.js:99-100 | The infographic type of every content type, with `concept` for plain text, has an entry in the strategy table |
| VisualDecider.DecisionShape | skills/document-pptx-pro/modules/visual-decider.js:63-93 | The strategy is the infographic one iff the (possibly forced) need is infographic, and only then are there params; a force applies only when it names a strategy key |
| VisualDecider.DecideVisual | skills/document-pptx-pro/modules/visual-decider.js:63-93 | The decision, with its in-place update of the analysis's visual need, is the one the specification function gives |
| VisualDecider.KieIndices | skills/document-pptx-pro/modules/visual-decider.js:196-197 | The positions of infographic decisions, increasing, and all of them |
| VisualDecider.CountsPartitionDecisions | skills/document-pptx-pro/modules/visual-decider.js:176-181 | Infographic and no-visual counts add up to the number of decisions |
| VisualDecider.InsertRanked | skills/document-pptx-pro/modules/visual-decider.js:198 | Inserting a position keeps the ranking a permutation of its input plus that position |
| VisualDecider.SortRanked | skills/document-pptx-pro/modules/visual-decider.js:198 | The stable sort by descending score is a permutation of its input |
| VisualDecider.InsertKeepsRanked | skills/document-pptx-pro/modules/visual-decider.js:198 | Inserting into a ranked list keeps it ranked: descending score, ties in original order |
| VisualDecider.SortIsRanked | skills/document-pptx-pro/modules/visual-decider.js:196-198 | The sorted infographic positions are ranked by descending score, stable on ties |
| VisualDecider.Ranking | skills/document-pptx-pro/modules/visual-decider.js:196-198 | The ranking holds positions of the decision list |
| VisualDecider.DowngradeAt | skills/document-pptx-pro/modules/visual-decider.js:204-208 | Downgrading a set of positions keeps the list length |
| VisualDecider.Optimized | skills/document-pptx-pro/modules/visual-decider.js:192-210 | The capped list has the same length |
| VisualDecider.RankInfographics | skills/document-pptx-pro/modules/visual-decider.js:196-198 | The filter-and-sort loop over the array computes the ranking |
| VisualDecider.DowngradeOneMore | skills/document-pptx-pro/modules/visual-decider.js:204-208 | Downgrading one more position in place equals downgrading the enlarged set |
| VisualDecider.OptimizeForBudget | skills/document-pptx-pro/modules/visual-decider.js:192-210 | The array is updated in place to the capped decisions |
| VisualDecider.DowngradeRanked | skills/document-pptx-pro/modules/visual-decider.js:202-209 | Every decision ranked from the cap on is downgraded in place, and no other entry changes |
| VisualDecider.DistinctCardinality | skills/document-pptx-pro/modules/visual-decider.js:201-202 | The first n of a duplicate-free ranking are n distinct positions |
| VisualDecider.CountKieIsCardinality | skills/document-pptx-pro/modules/visual-decider.js:178 | The infographic count is the number of infographic positions |
| VisualDecider.RankingFacts | skills/document-pptx-pro/modules/visual-decider.js:196-198 | The ranking is ranked, as long as the infographic count, and holds exactly the infographic positions |
| VisualDecider.RankedDistinct | skills/document-pptx-pro/modules/visual-decider.js:198 | A ranked list has no repeated position |
| VisualDecider.OptimizedAt | skills/document-pptx-pro/modules/visual-decider.js:201-209 | After the cap, a decision is an infographic iff it was one and was not dropped |
| VisualDecider.KeptAreKie | skills/document-pptx-pro/modules/visual-decider.js:201-209 | Every position ranked within the cap is still an infographic |
| VisualDecider.KieAreKept | skills/document-pptx-pro/modules/visual-decider.js:201-209 | Every infographic after the cap is ranked within the cap |
| VisualDecider.KieSetAfterCap | skills/document-pptx-pro/modules/visual-decider.js:192-210 | The infographics after the cap are exactly the top min(count, max) of the ranking |
| VisualDecider.CapRespected | skills/document-pptx-pro/modules/visual-decider.js:201-209 | After the cap there are min(count, max) infographic decisions |
| VisualDecider.KeptOutrankDropped | skills/document-pptx-pro/modules/visual-decider.js:196-209 | Every kept infographic outranks every dropped one, and a dropped one was an infographic and is now downgraded (no visual, no params, budget-limited) |
| VisualDecider.PlannedDecisions | skills/document-pptx-pro/modules/visual-decider.js:166-168 | One decision per slide |
| VisualDecider.EstimatedCostCents | skills/document-pptx-pro/modules/visual-decider.js:215-219 | The cost is 5 cents for each decision whose strategy comes from Kie.ai, so a multiple of 5 and at most 5 cents per decision |
| VisualDecider.DecidePresentationVisuals | skills/document-pptx-pro/modules/visual-decider.js:162-187 | The cap applies only for a truthy maximum; the summary counts partition the slides, respect the cap, and cost 5 cents per infographic |
| VisualDecider.ValidateDecision | skills/document-pptx-pro/modules/visual-decider.js:227-247 | Invalid, with exactly the missing-key error, iff the source is `kie-ai` and the key is falsy; one warning iff the score is below 1.5 and the source is not null |
| ImageIntegrator.Placeholder | skills/document-pptx-pro/modules/image-integrator.js:209 | A placeholder is the key inside `{{ }}` |
| ImageIntegrator.TemplateTableKeys | skills/document-pptx-pro/modules/image-integrator.js:173-178 | A template exists exactly for the four table names, and each is well formed with holes from the default keys |
| ImageIntegrator.FromTableWellFormed | skills/document-pptx-pro/modules/image-integrator.js:173-178 | Markup and table keys make a well-formed template |
| ImageIntegrator.EscapeCharSafe | skills/document-pptx-pro/modules/image-integrator.js:317-326 | An escaped character holds no `<`, `>` or quote, and a plain character stays itself |
| ImageIntegrator.NewEntries | skills/document-pptx-pro/modules/image-integrator.js:205 | For a key the defaults lack, the added entries give the caller's value |
| ImageIntegrator.LookupOverridden | skills/document-pptx-pro/modules/image-integrator.js:205 | A default key in the spread result holds the caller's value when given, else the default |
| ImageIntegrator.LookupPastAbsent | skills/document-pptx-pro/modules/image-integrator.js:205 | A key absent from the front of an entry list is looked up in the rest |
| ImageIntegrator.LookupFirstWins | skills/document-pptx-pro/modules/image-integrator.js:205 | A key present in the front of an entry list is found there |
| ImageIntegrator.SameKeysSameAbsence | skills/document-pptx-pro/modules/image-integrator.js:205 | Overriding values does not add keys |
| ImageIntegrator.MergeLookup | skills/document-pptx-pro/modules/image-integrator.js:194-205 | After `{ ...defaults, ...data }`, caller data overrides the defaults and absent keys take the default |
| ImageIntegrator.DefaultsCoverTemplateKeys | skills/document-pptx-pro/modules/image-integrator.js:194-203 | Every key a template uses has a default |
| ImageIntegrator.KeyPresentAt | skills/document-pptx-pro/modules/image-integrator.js:205 | A key of some entry is found by lookup |
| ImageIntegrator.GenerateHtml | skills/document-pptx-pro/modules/image-integrator.js:186-213 | An unknown template name is an error with the source's message; otherwise each merged key's placeholders are replaced in insertion order |
| ImageIntegrator.SubstOne | skills/document-pptx-pro/modules/image-integrator.js:209 | Substituting one key keeps the segment count |
| ImageIntegrator.Fill | skills/document-pptx-pro/modules/image-integrator.js:208-210 | Filling every key keeps the segment count |
| ImageIntegrator.ReplaceSkips | skills/document-pptx-pro/modules/image-integrator.js:209 | Text without `{` is passed over by a placeholder replacement |
| ImageIntegrator.ReplaceAtHole | skills/document-pptx-pro/modules/image-integrator.js:209 | A placeholder is replaced when its key matches and kept otherwise |
| ImageIntegrator.ReplacePassesOtherHole | skills/document-pptx-pro/modules/image-integrator.js:209 | A placeholder of another key is copied through unchanged |
| ImageIntegrator.OtherPlaceholderMismatch | skills/document-pptx-pro/modules/image-integrator.js:209 | The placeholder of one key never starts where a placeholder of a different key is |
| ImageIntegrator.ReplaceInRender | skills/document-pptx-pro/modules/image-integrator.js:209 | Replacing every occurrence of one placeholder in a rendered template equals substituting that key's holes |
| ImageIntegrator.ReplaceEachIsFill | skills/document-pptx-pro/modules/image-integrator.js:208-210 | The sequential replacement loop equals one simultaneous substitution, when values hold no `{` |
| ImageIntegrator.MergeBraceFree | skills/document-pptx-pro/modules/image-integrator.js:205 | Merging brace-free entries gives brace-free entries |
| ImageIntegrator.DefaultsBraceFree | skills/document-pptx-pro/modules/image-integrator.js:194-203 | The default values hold no `{` |
| ImageIntegrator.LookupIsEntry | skills/document-pptx-pro/modules/image-integrator.js:205 | A found value comes from an entry with that key |
| ImageIntegrator.NewEntriesAreEntries | skills/document-pptx-pro/modules/image-integrator.js:205 | Added entries come from the caller's data |
| ImageIntegrator.TemplateHolesFilled | skills/document-pptx-pro/modules/image-integrator.js:194-210 | Every placeholder of a table template becomes the caller's value for its key, or the default |
| ImageIntegrator.FilledTemplateBraceFree | skills/document-pptx-pro/modules/image-integrator.js:194-210 | A filled table template has no `{` left |
| ImageIntegrator.GeneratedPageIsFilled | skills/document-pptx-pro/modules/image-integrator.js:186-213 | The generated page is the template with every placeholder filled, and no placeholder remains |
| ImageIntegrator.RenderOfLiterals | skills/document-pptx-pro/modules/image-integrator.js:208-210 | Rendering brace-free literals gives brace-free text |
| ImageIntegrator.SelectTemplate | skills/document-pptx-pro/modules/image-integrator.js:220-241 | The choice is a table key; an infographic with no content gets `title-image`; `text-image` iff title and content are truthy; `full-image` iff there is no title and that first rule did not apply |
| ImageIntegrator.SelectedTemplateExists | skills/document-pptx-pro/modules/image-integrator.js:220-241 | The selected template exists, and `image-text` is never selected |
| ImageIntegrator.EscapeHtml | skills/document-pptx-pro/modules/image-integrator.js:317-326 | The output has none of `< > " '`, and text without the five characters is unchanged |
| ImageIntegrator.UnescapeEscapedChar | skills/document-pptx-pro/modules/image-integrator.js:318-325 | Each character's escape decodes back to it |
| ImageIntegrator.EscapeRoundTrip | skills/document-pptx-pro/modules/image-integrator.js:317-326 | Unescaping the escaped text gives the text back, so escaping loses nothing |
| ImageIntegrator.NonBlankLines | skills/document-pptx-pro/modules/image-integrator.js:300-301 | The kept lines are lines of the input whose trim is non-empty |
| ImageIntegrator.BulletItems | skills/document-pptx-pro/modules/image-integrator.js:300-302 | There are at most as many items as lines |
| ImageIntegrator.BulletItemsAreTrimmedLines | skills/document-pptx-pro/modules/image-integrator.js:300-302 | Each item is one line, trimmed at both ends |
| ImageIntegrator.FormatContent | skills/document-pptx-pro/modules/image-integrator.js:287-312 | Falsy or non-string non-array content gives ``; an array gives a list of its items; bullet text gives a list of its stripped lines; other text gives one escaped paragraph |
| ImageIntegrator.ParagraphRoundTrip | skills/document-pptx-pro/modules/image-integrator.js:307-308 | The paragraph's inner text has no `<` and unescapes to the content |
| ImageIntegrator.IntegrateMultipleImages | skills/document-pptx-pro/modules/image-integrator.js:334-360 | Without an output directory it fails, with Node's message, exactly when some slide has an image path. Otherwise there is one result per slide: none without an image path, else the Node-joined page path of the directory and prefix (default `slide`) + 2-digit (i+1) + `.html` |
| ImageIntegrator.PagePathsDistinct | skills/document-pptx-pro/modules/image-integrator.js:344 | Different slides get different page paths, and the 2-digit number reads back as i+1 |
| ImageIntegrator.PagePathNormalised | skills/document-pptx-pro/modules/image-integrator.js:344 | A `./` before a relative directory, a trailing `/` on the directory, or a leading `/` on the prefix does not change the page path |
| NodePath.NormalizedIsClean | skills/document-pptx-pro/modules/image-integrator.js:344 | Normalising keeps no empty or `.` segment, and keeps `..` only in a relative path and only after other `..` segments |
| NodePath.NormalizedSkips | skills/document-pptx-pro/modules/image-integrator.js:344 | An empty or `.` segment anywhere in the path leaves the normalised segments unchanged |
| NodePath.JoinNodeKeepsTail | skills/document-pptx-pro/modules/image-integrator.js:344 | A file name piece without `/` and not ending in `.` stays verbatim at the end of the joined path, after a stem fixed by the directory and the prefix |
| NodePath.JoinNodeTailsDistinct | skills/document-pptx-pro/modules/image-integrator.js:344 | Two different such pieces give two different joined paths under the same directory and prefix |
| NodePath.StemIgnoresDotDir | skills/document-pptx-pro/modules/image-integrator.js:344 | A `./` in front of a relative directory does not change where a name lands |
| NodePath.StemIgnoresSlashPrefix | skills/document-pptx-pro/modules/image-integrator.js:344 | A `/` at the start of the name stays inside a non-empty directory |
| NodePath.StemIgnoresTrailingSlash | skills/document-pptx-pro/modules/image-integrator.js:344 | A trailing `/` on the directory does not change where a name lands |
| InfographicTemplates.TrendLineCases | skills/document-pptx-pro/prompts/infographic-templates.js:26-38 | Increase and decrease give their own arrow text; any other or missing trend gives the neutral display |
| InfographicTemplates.CountOrFour | skills/document-pptx-pro/prompts/infographic-templates.js:56-57 | A count is the length when non-zero, else 4 |
| InfographicTemplates.IndustryHintPrecedence | skills/document-pptx-pro/prompts/infographic-templates.js:194-197 | Environmental beats technology, which beats healthcare; the default is `corporate business` |
| InfographicTemplates.GetPromptBuilder | skills/document-pptx-pro/prompts/infographic-templates.js:223-235 | Each of the seven names picks its own builder, and any other name picks the concept builder |
| InfographicTemplates.MergeColors | skills/document-pptx-pro/prompts/infographic-templates.js:244-254 | A colour field the caller sets wins, even when empty; a missing one takes the default |
| InfographicTemplates.PromptStartsWithBaseStyle | skills/document-pptx-pro/prompts/infographic-templates.js:33-199 | Every builder's prompt begins with the shared style block |
| InfographicTemplates.UnknownTypeBuildsConcept | skills/document-pptx-pro/prompts/infographic-templates.js:234-253 | An unknown type builds the concept prompt with the merged colours |
| InfographicTemplates.ProcessPromptCountsSteps | skills/document-pptx-pro/prompts/infographic-templates.js:55-71 | The process prompt states the number of steps, 4 when the steps are missing or empty |
| InfographicTemplates.ComparisonPromptCountsItems | skills/document-pptx-pro/prompts/infographic-templates.js:82-99 | The comparison prompt states the number of items, 4 when they are missing or empty |
| InfographicTemplates.TimelinePromptCountsEvents | skills/document-pptx-pro/prompts/infographic-templates.js:110-127 | The timeline prompt states the number of events, 4 when they are missing or empty |
| InfographicTemplates.HierarchyPromptStatesLevels | skills/document-pptx-pro/prompts/infographic-templates.js:165-171 | The hierarchy prompt states the pyramid depth, 3 when `levels` is missing |
| InfographicTemplates.StatisticsPromptStatesPrimary | skills/document-pptx-pro/prompts/infographic-templates.js:23-44 | The statistics prompt states the caller's primary colour, or the default when none is given |
| InfographicTemplates.CompanyPromptStatesIndustry | skills/document-pptx-pro/prompts/infographic-templates.js:191-206 | The company prompt states the industry hint chosen from the keywords |
| InfographicTemplates.FramedLineIn | skills/document-pptx-pro/prompts/infographic-templates.js:23-206 | Every data line of a prompt occurs in it |
| InfographicTemplates.FramedStartsWith | skills/document-pptx-pro/prompts/infographic-templates.js:6-16 | A prompt starts with its style block |
| KieAi.BuildInfographicPromptAsWritten | skills/document-pptx-pro/modules/kie-ai.js:107-247 | As written, a colour object fails at `join`, and success requires the fields of every template to be present |
| KieAi.BuildInfographicPrompt | skills/document-pptx-pro/modules/kie-ai.js:107-247 | With only the chosen template built, the prompt fails iff the chosen template reads a missing field; colours are joined with `, `; an unknown type gives the concept template |
| KieAi.AsWrittenAgreesWhenItSucceeds | skills/document-pptx-pro/modules/kie-ai.js:107-247 | When the eager version succeeds, it agrees with the corrected one |
| KieAi.StatisticsArrow | skills/document-pptx-pro/modules/kie-ai.js:111-138 | A decrease gives downward and ↓; every other trend, a missing one included, gives upward and ↑ |
| KieAi.ProcessStepsShown | skills/document-pptx-pro/modules/kie-ai.js:139-164 | A process prompt states the number of steps and joins them with ` → ` |
| KieAi.TimelineSpan | skills/document-pptx-pro/modules/kie-ai.js:192-218 | A timeline prompt spans from the first event's year to the last one's |
| KieAi.ConceptSupporting | skills/document-pptx-pro/modules/kie-ai.js:219-246 | Concept elements are joined with `, `, or `key points` when missing or empty |
| KieAi.AsWrittenRejectsAnalyzerData | skills/document-pptx-pro/modules/kie-ai.js:107-247 | As written, the builder fails on the key elements of every analysis, whatever the type and colours |
| KieAi.AsWrittenRejectsPalette | skills/document-pptx-pro/modules/kie-ai.js:108 | As written, a colour object such as a decision's palette is rejected |
| KieAi.StatisticsCounterexample | skills/document-pptx-pro/modules/kie-ai.js:107-247 | A statistics slide with number, trend and subject fails as written and succeeds corrected |
| KieAi.CorrectedAcceptsAnalyses | skills/document-pptx-pro/modules/kie-ai.js:107-247 | Corrected, the builder accepts the type and key elements of every analysis that asks for an infographic |
| QuickValidate.FindFrom | skills/skill-creator/scripts/quick_validate.py:26 | The first occurrence at or after a position, or none when there is none |
| QuickValidate.FindFromFirst | skills/skill-creator/scripts/quick_validate.py:39 | An occurrence with none before it is the one the search finds |
| QuickValidate.Frontmatter | skills/skill-creator/scripts/quick_validate.py:26-28 | The frontmatter is opened by `---` and a newline, closed by a newline and `---`, and is the shortest such block |
| QuickValidate.NoEarlierEnd | skills/skill-creator/scripts/quick_validate.py:26 | The lazy group contains no earlier closing line |
| QuickValidate.TakeLine | skills/skill-creator/scripts/quick_validate.py:39 | What `.+` takes is a newline-free prefix that ends at a newline or at the end |
| QuickValidate.ValidateSkill | skills/skill-creator/scripts/quick_validate.py:16-56 | The checks run in a fixed order and the first that fails decides the message: missing file, missing `---`, malformed frontmatter, no `name:`, no `description:`, a name not in hyphen case, a name with a leading, trailing or doubled hyphen, angle brackets in the description; the verdict is valid iff its message is the success message |
| QuickValidate.ValidIffAllChecksPass | skills/skill-creator/scripts/quick_validate.py:16-56 | A skill passes exactly when its SKILL.md exists and every check passes |
| QuickValidate.NameCheckedBeforeDescription | skills/skill-creator/scripts/quick_validate.py:33-46 | The checks run in order: a badly formed name decides the message before the description is looked at |
| QuickValidate.BodyIsIgnored | skills/skill-creator/scripts/quick_validate.py:26-56 | Only the frontmatter is read: text after its closing line does not change the verdict |
| QuickValidate.FrontmatterOf | skills/skill-creator/scripts/quick_validate.py:26-28 | A block with no inner closing line is read back as the frontmatter |
| InitSkill.Capitalize | skills/skill-creator/scripts/init_skill.py:191 | The first character is upper-cased and the rest lower-cased, keeping the length |
| InitSkill.CapitalizeAll | skills/skill-creator/scripts/init_skill.py:191 | Each word is capitalized |
| InitSkill.HyphensToSpaces | skills/skill-creator/scripts/init_skill.py:191 | Every `-` becomes a space and every other character stays |
| InitSkill.JoinAvoids | skills/skill-creator/scripts/init_skill.py:191 | A character absent from the parts and the separator is absent from the join |
| InitSkill.CapitalizeAvoidsHyphen | skills/skill-creator/scripts/init_skill.py:191 | Capitalizing a word adds no `-` |
| InitSkill.TitleCaseWords | skills/skill-creator/scripts/init_skill.py:189-191 | The title has one word more than the name has hyphens, joins them with spaces, holds no `-`, and no word starts lower-case |
| InitSkill.JoinSplitOn | skills/skill-creator/scripts/init_skill.py:191 | Splitting at `-` and joining with spaces replaces every hyphen by a space and keeps every other character |
| InitSkill.LowerJoin | skills/skill-creator/scripts/init_skill.py:191 | Lower-casing a join lower-cases each part |
| InitSkill.LowerConcat | skills/skill-creator/scripts/init_skill.py:191 | Lower-casing distributes over concatenation |
| InitSkill.LowerCapitalize | skills/skill-creator/scripts/init_skill.py:191 | A capitalized word lower-cases to the lower-cased word |
| InitSkill.TitleCaseLowersToName | skills/skill-creator/scripts/init_skill.py:189-191 | For a valid name, the title lower-cased is the name with spaces for hyphens, so the title loses nothing but case |
| InitSkill.TrimStartOneSpace | skills/skill-creator/scripts/quick_validate.py:39 | The space after a key is what `\s*` skips |
| InitSkill.StripUnchanged | skills/skill-creator/scripts/quick_validate.py:39 | A value without outer whitespace strips to itself |
| InitSkill.TakeLineOf | skills/skill-creator/scripts/quick_validate.py:39 | `.+` takes the value up to the end of its line |
| InitSkill.AfterKeyAt | skills/skill-creator/scripts/quick_validate.py:39-40 | The search for a field value starts right after the first occurrence of its key |
| InitSkill.FieldValueOfLine | skills/skill-creator/scripts/quick_validate.py:39-40 | Whatever value the text after the key yields is the field value |
| InitSkill.LineValueOf | skills/skill-creator/scripts/quick_validate.py:39-40 | A space and then a one-line value with no surrounding whitespace is read back as exactly that value |
| InitSkill.FrontmatterEnds | skills/skill-creator/scripts/init_skill.py:18-21 | The generated frontmatter has no closing line inside it |
| InitSkill.DescriptionFound | skills/skill-creator/scripts/init_skill.py:19-20 | The first `description:` of the generated frontmatter is the one on its second line |
| InitSkill.NoDescriptionBefore | skills/skill-creator/scripts/init_skill.py:19-20 | No `description:` starts before the description line of the generated frontmatter |
| InitSkill.NameFieldOf | skills/skill-creator/scripts/init_skill.py:19 | The generated frontmatter's name field reads back as the skill name |
| InitSkill.DescriptionFieldOf | skills/skill-creator/scripts/init_skill.py:20 | The generated description field reads back as the placeholder note |
| InitSkill.JoinPathDistinct | skills/skill-creator/scripts/init_skill.py:194-270 | Different relative names inside one directory give different paths, so the created files do not overwrite one another |
| InitSkill.GeneratedSkillPasses | skills/skill-creator/scripts/init_skill.py:18-23 | A generated SKILL.md for a valid hyphen-case name passes the validator, whatever follows the title |
| InitSkill.SkillTree.constructor | skills/skill-creator/scripts/init_skill.py:194-206 | The file tree starts from the given directories and files |
| InitSkill.SkillTree.InitSkill | skills/skill-creator/scripts/init_skill.py:194-270 | An existing target is refused with nothing created; otherwise the directory and its three resource directories are created with SKILL.md and the three example files, and the result is the new directory; the SKILL.md read back from the tree is the filled template, which `InitSkill.GeneratedSkillPasses` shows passes validation for a valid name |
| RunTest.ParseEnvLine | skills/browser-testing/commands/run-test.py:36-39 | A line gives a pair iff, stripped, it is non-empty, not a comment and has `=`; key and value come out stripped |
| RunTest.Parsed | skills/browser-testing/commands/run-test.py:35-39 | One parse result per line |
| RunTest.FoldPrefix | skills/browser-testing/commands/run-test.py:35-39 | Each line updates the map built from the lines before it |
| RunTest.LoadEnvFile | skills/browser-testing/commands/run-test.py:30-40 | A missing file gives the empty map; otherwise the loop gives the map of the file's lines |
| RunTest.FoldKeys | skills/browser-testing/commands/run-test.py:37-39 | A key is defined iff some line defines it |
| RunTest.FoldLastWins | skills/browser-testing/commands/run-test.py:39 | A key's value comes from its last defining line |
| RunTest.EnvLineRoundTrip | skills/browser-testing/commands/run-test.py:36-39 | `key=value` parses back to key and value, for a key without `=` or a leading `#`; the value may contain `=` |
| RunTest.ParseSplitsAt | skills/browser-testing/commands/run-test.py:38-39 | A stripped, uncommented line splits at its first `=`: key before it, value after it |
| RunTest.UnpaddedStrip | skills/browser-testing/commands/run-test.py:36 | Stripping text without outer whitespace leaves it |
| RunTest.StrippedLine | skills/browser-testing/commands/run-test.py:36 | A line built from unpadded parts strips to itself |
| RunTest.SkippedLine | skills/browser-testing/commands/run-test.py:37 | A skipped line leaves the map unchanged |
| RunTest.PythonPath | skills/browser-testing/commands/run-test.py:78-82 | The library directory comes first, and alone when the inherited path is missing or empty |
| RunTest.SplitAfterFirst | skills/browser-testing/commands/run-test.py:80 | Splitting after a separator-free head gives the head, then the pieces of the tail |
| RunTest.LibraryFirstOnPath | skills/browser-testing/commands/run-test.py:79-80 | The new path is the library directory, then every inherited entry in order |
| RunTest.ChildEnv | skills/browser-testing/commands/run-test.py:76-82 | The child environment copies every variable and sets only PYTHONPATH |
| RunTest.ServerArgs | skills/browser-testing/commands/run-test.py:93-94 | Four arguments per pair, pairing as `zip` does |
| RunTest.BuildCommand | skills/browser-testing/commands/run-test.py:91-95 | The `extend` loop builds the command list that the specification function gives |
| RunTest.CommandShape | skills/browser-testing/commands/run-test.py:91-95 | The command has length 7+4n: the script with its timeout, one `--server s --port p` group per pair in order, then `-- python test` |
| RunTest.ServerArgsGroup | skills/browser-testing/commands/run-test.py:93-94 | The i-th group names the i-th server and port |
| RunTest.PortsReadBack | skills/browser-testing/commands/run-test.py:94 | Each port argument is a digit string whose value is the port |
| RunTest.ParsePort | skills/browser-testing/commands/run-test.py:69 | A digit string parses to its value, and the empty string does not parse |
| RunTest.LaunchFor | skills/browser-testing/commands/run-test.py:85-103 | With both lists present, unequal counts exit 1 and equal ones run the server command; with either list missing, the test runs directly |
| RunTest.RunPlan | skills/browser-testing/commands/run-test.py:42-105 | A missing test script exits 1 with its message; every launch runs under the child environment and ends with the test script |
| RunTest.RunMain | skills/browser-testing/commands/run-test.py:42-105 | The imperative flow computes the plan the specification function gives |
| RunTest.CountMismatchExits | skills/browser-testing/commands/run-test.py:85-88 | Unequal counts exit 1 before any command is run |
| RunTest.AutoServerNeedsBoth | skills/browser-testing/commands/run-test.py:64-73 | Auto-server without both env-file variables set exits 1 |
| RunTest.AutoServerReplacesLists | skills/browser-testing/commands/run-test.py:64-69 | With both set, the single env-file server and port replace the lists, giving an 11-entry command |
| RunTest.OneListRunsDirectly | skills/browser-testing/commands/run-test.py:100-103 | With either list missing, the test runs directly as `python test` |

## Left out

- Playwright: launching the browser, opening the page, navigation and the console listener. A screenshot is a boolean saying whether it succeeded; the URL and the clock are parameters.
- The test directory found by caller-frame inspection is a parameter of `Enter`. Directory creation is left out.
- Timestamps are naturals, and the report duration is an integer difference. The `.2f`/`.1f` formatting and the execution-time string are left out.
- TestSession.TestManager.GenerateHtml: the literal HTML/CSS text of the reports is not modelled; the reports are modelled by their sections, counts, entries and placeholders.
- TestSession.TestManager.GenerateMarkdown: the literal Markdown text is not modelled, for the same reason.
- Report files are not written; `Exit` returns the two reports with their paths. The console prints are left out.
- The content analyzer's backtracking regular expressions (percentages, steps, comparisons, years) are an oracle. Their captures are parameters, and so is whether pattern k of a type matches. Literal-alternative patterns are exact.
- ContentAnalyzer.GenerateVisualSummary: the cost is in integer cents (5 per infographic), not the `toFixed(2)` string.
- VisualDecider.EstimatedCostCents: integer cents instead of the `toFixed(2)` string, for the same reason.
- VisualDecider.DecidePresentationVisuals: `budget.maxInfographics` is a natural number or absent. A negative or fractional budget, for which JavaScript's `slice` counts from the end or truncates (`-1` turns off only the lowest-scoring infographic), is left out.
- ContentAnalyzer.AnalyzeSlide: an absent title or content (`undefined`) reads as the empty string. A title or content given as `null` is not modelled: the default does not apply to it, and the template literal turns it into the text `null`.
- The `model`, `size` and `quality` fields of the `infographic` visual strategy are not carried; a strategy is modelled by its source only.
- JavaScript object lookups by a caller string (`VISUAL_STRATEGIES[forceType]`, `TEMPLATES[name]`, the builder table) see only the tables' own keys. Inherited `Object.prototype` names such as `constructor` are left out.
- ImageIntegrator.GenerateHtml: keys are used as literal text and replacement values are literal. Regular-expression metacharacters in caller keys and `$` patterns in values are left out.
- The markup and CSS of the four HTML templates are not modelled; a template is its sequence of literal and placeholder segments.
- `integrateImage`, `createPlaceholderHTML`, image copying and file writes are left out. `IntegrateMultipleImages` returns the page paths it would write. Node's `path.join` is modelled for POSIX paths; its Windows variant is left out.
- The fixed prose of the prompt templates is left out; only the lines that carry data, and the shared style block, are modelled.
- `generateImage`, `downloadImage`, `generateInfographic` and the orchestration in `index.js` are HTTP and file I/O, and are left out.
- KieAi.BuildInfographicPrompt takes the colours as a sequence, as `colors.join` requires; no conversion from a colour object is invented.
- The file read in the validator is left out; the validator takes the file's text after `read_text`'s universal-newline translation (so `\r\n` has become `\n`), or None when it does not exist.
- KieAi.BuildInfographicPromptAsWritten: the TypeError for a missing field is Node's message without the trailing `(reading '<field>')`, which names the field whose read failed.
- InitSkill.SkillTree.InitSkill: `Path.resolve` is not modelled (the path is joined as given). Parent-directory creation, the executable bit of the example script, and I/O exceptions during creation are left out.
- InitSkill.SkillTree.InitSkill: the template text after the title line, and the three example-file texts, are parameters.
- InitSkill.Capitalize: covers ASCII case mapping only; Python's Unicode case mapping of other letters is not modelled, because the model has no Unicode tables.
- RunTest.LoadEnvFile: the file is given as its lines. Python's universal-newline splitting and the UTF-8 decoding are left out.
- RunTest.ParsePort: accepts an optional sign and ASCII digits only; `int()`'s underscores, surrounding whitespace and non-ASCII digits are treated as invalid, because those spellings need Unicode digit tables.
- `os.pathsep` is the POSIX `:`; Python's `os.path.join` is modelled as joining with `/` (an absolute name replaces the directory), without normalisation, as Python does.
- Argument parsing by `argparse` is left out; `RunArgs` holds the parsed arguments. The subprocess, its return code and the prints are left out.
- A bad `TEST_SERVER_PORT` raises `ValueError` in the source; the model returns `Crash` with a message.
- The remaining scripts (console check, discovery, screenshot, flowcharts, packaging) and the VS Code extension are not part of this model.

## Findings

| source | as written | input that shows it | evidently intended | confidence | as-written member | corrected member |
|---|---|---|---|---|---|---|
| skills/document-pptx-pro/modules/kie-ai.js:107-247 | All five template literals are evaluated in one object literal before the type picks one, so `data.steps.length`, `data.left.title` and `data.events.length` are read for every type. | type `statistics`, data `{number: '30%', trend: 'increase', subject: '營收'}`, colours `['#1E5128', '#4E9F3D']`: reading `data.steps.length` throws a TypeError | Only the chosen type's template is built, so a statistics prompt needs only the statistics fields | not executed | KieAi.StatisticsCounterexample | KieAi.CorrectedAcceptsAnalyses |
| skills/document-pptx-pro/modules/kie-ai.js:108 | `colors.join(', ')` is called on the colour object that a decision's parameters hold | any decision's params, whose `colors` is `{primary, secondary, accent, background}` | The colours are passed as an array, or converted before joining | not executed | KieAi.AsWrittenRejectsPalette | KieAi.BuildInfographicPrompt |
