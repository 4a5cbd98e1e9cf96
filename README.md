# SEO mini report: scoring and recommendation engine

This project is a Dafny model of the core of the SEO mini report
application. A visitor submits a web address. The application scores it
and lists recommendations. The model covers:

- **The URL-only analyzer** (`client_analyzer.dfy`). It normalises the
  address, classifies the host name by its labels and counts path
  segments. It scores the technical side from point tables, computes a
  fixed-weight overall score and lists five conditional tips followed by
  nine fixed ones.
- **The rendered-document analyzer** (`server_analyzer.dfy`). It walks
  heading levels and counts links and images. It scores four categories,
  clamps each to 100, combines them into a weighted overall score and
  lists fifteen conditional tips in a fixed order. The browser's
  findings are an input record, and so is which awaited browser call,
  if any, throws. A call that throws leaves the record as filled in up
  to that call, plus one error.
- **The static-markup analyzer** (`static_analyzer.dfy`). It computes the
  four `calculate*Score` point sums, the heading-structure flag, the
  averaged `seo` score and the recommendations, capped at ten. It also
  models the error paths for an invalid address and for a failed fetch.
  The markup queries are an input record.
- **The `POST /api/server-analyze` route** (`server_analyze_route.dfy`).
  It checks the configuration and the address, then turns each
  recommendation into an actionable item. Category, priority and effort
  come from keyword search on the lower-cased text. It also builds the
  five priority fixes and the fixed fallback report.
- **The basic scorer of `GET /api/test-analyzer`** (`test_analyzer.dfy`):
  its scores, its six conditional tips and its 400, 500 and 200
  responses.
- **The report views.** Each view has its own file:
  - `actionable_items.dfy`: the category list, the filter, the stable
    sort by priority, effort or impact, and the quick-win and strategic
    lists.
  - `action_plan.dfy`: the action-item mapping and the three timeline
    phases.
  - `results_display.dfy`: score colours, status labels, descriptions,
    overall message and path-depth message.
  - `report_card.dfy`: tile colours and camelCase key labels.
- **The two environment validators** (`validate_env.dfy` and
  `validate_environment.dfy`). `process.env` is a map.

Helper modules:

- `Wrappers`: `Option` and `Result`.
- `Text`: the JavaScript string operations used, namely lower-casing,
  `includes`, `startsWith`, `split`, `trim` and whitespace-run counting.
- `Seqs`: `filter`, `slice(0, n)`, `map` and counting.
- `Rounding`: `Math.round` on a rational number.
- `ReportTypes`: the report shapes shared by the views.

State-changing code is modelled as methods proved against specification
functions. This covers the `+=` accumulators, the `push` sequences, the
heading loop, the link and image `forEach` counters and `logOrThrow`.
The pure views are modelled as functions. Every `Math.round` of a
fraction is an exact integer formula over Euclidean division.

## Model

| member | source | states |
|---|---|---|
| ClientAnalyzer.NormalizeUrl | src/lib/client-seo-analyzer.ts:30-36 | the result always starts with http:// or https://; it equals the input exactly when the input already does, and is otherwise "https://" + input |
| ClientAnalyzer.NormalizeIdempotent | src/lib/client-seo-analyzer.ts:30-36 | normalising twice gives the same address as normalising once |
| ClientAnalyzer.LabelInjective | src/lib/client-seo-analyzer.ts:66-75 | distinct domain forms have distinct texts |
| ClientAnalyzer.ClassifyDomain | src/lib/client-seo-analyzer.ts:58-75 | the if-chain on the dot-split host name gives the form of the label-count table; the form is "Other" exactly when the host name has no dot |
| ClientAnalyzer.PathDepth | src/lib/client-seo-analyzer.ts:61-63 | the depth is the number of non-empty '/'-separated segments, so "/" gives 0 |
| ClientAnalyzer.AnalyzeUrlStructure | src/lib/client-seo-analyzer.ts:53-85 | a parser error is passed on; otherwise the result holds the protocol, www, domain-form, depth, query and fragment facts of the parsed normalised address |
| ClientAnalyzer.TechnicalPoints | src/lib/client-seo-analyzer.ts:92-118 | the technical score lies in [0, 50]; it is 50 exactly for https with a root or www domain, depth 0 and no query |
| ClientAnalyzer.ClientScores | src/lib/client-seo-analyzer.ts:122-130 | the overall score is round(0.4·technical + 0.3·60 + 0.3·50) and lies in [33, 53] |
| ClientAnalyzer.CalculateScores | src/lib/client-seo-analyzer.ts:90-138 | the `+=` accumulation gives exactly the specified scores |
| ClientAnalyzer.FiredTipsExactly | src/lib/client-seo-analyzer.ts:150-172 | a conditional tip is listed exactly when its condition holds |
| ClientAnalyzer.FiredTipsInRuleOrder | src/lib/client-seo-analyzer.ts:150-172 | the conditional tips appear in the order https, www, depth, query, fragment |
| ClientAnalyzer.Recommendations | src/lib/client-seo-analyzer.ts:143-186 | there are between 9 and 14 recommendations, and the last nine are always the fixed generic tips |
| ClientAnalyzer.TipMessagesAreFiredTips | src/lib/client-seo-analyzer.ts:150-172 | the conditional pushes produce the messages of the fired tips, in rule order |
| ClientAnalyzer.GenerateRecommendations | src/lib/client-seo-analyzer.ts:143-186 | the sequence of pushes yields exactly the specified list |
| ClientAnalyzer.AnalyzeSeo | src/lib/client-seo-analyzer.ts:191-217 | fails with "Invalid URL provided" exactly when the address is invalid; otherwise returns the normalised address, its URL facts, the scores and recommendations of those facts, and no errors |
| ClientAnalyzer.RootHomePage | src/lib/client-seo-analyzer.ts:92-157 | an https root-domain home page without www, query or fragment (the shape of example.com) scores 50 technical and 53 overall, and its only conditional tip is the www-consistency tip |
| ServerAnalyzer.HeadingOrder | src/lib/server-seo-analyzer.ts:256-273 | the loop over heading levels computes the proper-order predicate: empty, or starting at 1, with no rise of more than one level |
| ServerAnalyzer.HeadingStructureOf | src/lib/server-seo-analyzer.ts:245-281 | the four counts add up to the number of headings; a proper order with headings has an h1 |
| ServerAnalyzer.LevelsAddUp | src/lib/server-seo-analyzer.ts:245-281 | the six level counts add up to the number of headings, and a list that starts with h1 counts at least one h1 |
| ServerAnalyzer.LinkCountOf | src/lib/server-seo-analyzer.ts:298-333 | internal + external never exceeds the number of anchors |
| ServerAnalyzer.ClassifyLink | src/lib/server-seo-analyzer.ts:305-327 | one anchor's branch of the walk: empty, `javascript:` and bare `#` hrefs are skipped, an href that does not parse is skipped (the `catch`), and a parsed one is internal exactly when its hostname is the page's |
| ServerAnalyzer.CountLinks | src/lib/server-seo-analyzer.ts:298-333 | the `forEach` loop yields the specified counts: skipped hrefs count nowhere, and resolved hrefs count as internal exactly when their host equals the page's host |
| ServerAnalyzer.ImageCountOf | src/lib/server-seo-analyzer.ts:338-357 | withAlt + withoutAlt = count = number of images |
| ServerAnalyzer.CountImages | src/lib/server-seo-analyzer.ts:338-357 | the loop counts an image as having alt text exactly when its trimmed alt is non-empty |
| ServerAnalyzer.SeoPoints | src/lib/server-seo-analyzer.ts:388-432 | SEO points lie in [0, 80]; they are 80 exactly for a 30–60 title, a 120–160 description, a canonical link, at least 3 OG tags, schema blocks and exactly one h1 |
| ServerAnalyzer.SeoScore | src/lib/server-seo-analyzer.ts:388-432 | the accumulation yields the specified SEO points |
| ServerAnalyzer.ContentPoints | src/lib/server-seo-analyzer.ts:435-474 | content points lie in [0, 90], with the full-marks conditions stated |
| ServerAnalyzer.ContentScore | src/lib/server-seo-analyzer.ts:435-474 | the accumulation yields the specified content points |
| ServerAnalyzer.LoadPoints | src/lib/server-seo-analyzer.ts:496-506 | load points are one of 0/5/10/15/20/25; 25 iff load time < 1000 ms; 0 iff ≥ 8000 ms |
| ServerAnalyzer.LoadPointsMonotone | src/lib/server-seo-analyzer.ts:496-506 | a faster page never earns fewer load points |
| ServerAnalyzer.TechnicalPoints | src/lib/server-seo-analyzer.ts:477-520 | technical points lie in [0, 80], with the full-marks conditions stated |
| ServerAnalyzer.TechnicalScore | src/lib/server-seo-analyzer.ts:477-520 | the accumulation yields the specified technical points |
| ServerAnalyzer.AltBand | src/lib/server-seo-analyzer.ts:526-537 | the alt band is one of 0/5/10/15/20; it is 0 with no images or no alt texts, and 20 exactly when every image has alt text |
| ServerAnalyzer.AccessibilityPoints | src/lib/server-seo-analyzer.ts:523-591 | accessibility lies in [50, 100]; it is 100 exactly when every image has alt text, the contrast is good and the heading order is proper |
| ServerAnalyzer.AccessibilityScore | src/lib/server-seo-analyzer.ts:523-591 | the accumulation yields the specified accessibility points |
| ServerAnalyzer.FinalScores | src/lib/server-seo-analyzer.ts:594-605 | each category is clamped with min(100, ·) and unchanged when already at most 100; the overall is round(0.3·seo + 0.3·perf + 0.2·acc + 0.2·bp) |
| ServerAnalyzer.PageScores | src/lib/server-seo-analyzer.ts:386-605 | the four scores are the category points, and the overall lies in [10, 86] |
| ServerAnalyzer.FiredTipsExactly | src/lib/server-seo-analyzer.ts:608-669 | a tip is listed exactly when its condition holds |
| ServerAnalyzer.FiredTipsInRuleOrder | src/lib/server-seo-analyzer.ts:608-669 | the tips appear in the order of the `if` statements |
| ServerAnalyzer.H1TipsExclusive | src/lib/server-seo-analyzer.ts:627-631 | the "add an H1" and "only one H1" tips never both appear |
| ServerAnalyzer.Recommendations | src/lib/server-seo-analyzer.ts:608-669 | one message per fired tip, in rule order, with no cap beyond the number of rules |
| ServerAnalyzer.GenerateRecommendations | src/lib/server-seo-analyzer.ts:608-669 | the sequence of pushes yields exactly the specified list |
| ServerAnalyzer.Analyzed | src/lib/server-seo-analyzer.ts:130-674 | a loaded page yields the normalised address, no errors, the page's metadata, content and technical facts, an overall score in [10, 86] and at most one recommendation per rule |
| ServerAnalyzer.FilledUpTo | src/lib/server-seo-analyzer.ts:133-672 | the record a throwing call leaves has the normalised address and no errors yet; before `browser.close()` its five scores are 0 and it has no recommendations |
| ServerAnalyzer.FilledUpToBySections | src/lib/server-seo-analyzer.ts:133-672 | a failing query leaves the sections written before it; a failing `browser.close()` leaves the scored and recommended record |
| ServerAnalyzer.FailedSetupIsInitial | src/lib/server-seo-analyzer.ts:133-176 | a failure while launching, opening, configuring or navigating leaves the initial record under the normalised address |
| ServerAnalyzer.FailedQueryKeepsEarlierSections | src/lib/server-seo-analyzer.ts:178-384 | each section written before the failing call holds the page's value: URL facts, load time and status code from the title query on, metadata from the heading query on, each content count from the query after its own, the mobile flags from the contrast query on |
| ServerAnalyzer.FailedQueryLeavesLaterSections | src/lib/server-seo-analyzer.ts:178-384 | each section the failing call or a later one would write keeps its initial value |
| ServerAnalyzer.FailedCloseKeepsAnalysis | src/lib/server-seo-analyzer.ts:669-672 | when only `browser.close()` throws, the record is the complete analysis, scores and recommendations included |
| ServerAnalyzer.AnalyzeSeoServer | src/lib/server-seo-analyzer.ts:67-680 | an invalid address returns all-zero scores, no recommendations and the single error "Invalid URL provided"; a throwing browser call returns the record as filled in up to that call plus the one error "Analysis error: …"; a session that completes returns the page's analysis |
| ServerAnalyzer.AnalyzePage | src/lib/server-seo-analyzer.ts:133-680 | the `try` block stops at the first throwing call with the sections written so far and the error appended; otherwise it writes all sections and then the scores and recommendations |
| ServerAnalyzer.WriteSection | src/lib/server-seo-analyzer.ts:178-384 | each assignment step writes exactly the next section of the record |
| ServerAnalyzer.UrlFacts | src/lib/server-seo-analyzer.ts:178-208 | the technical facts of the URL, with load time and status code, and the mobile flags still false |
| ServerAnalyzer.ScorePage | src/lib/server-seo-analyzer.ts:386-669 | the scoring and the pushes give the scored record with its recommendations |
| StaticAnalyzer.WordCount | src/lib/seo-analyzer.ts:55 | the number of pieces of the trimmed body split on whitespace is the number of words, and 1 when there are none; it is never 0 |
| StaticAnalyzer.HeadingsStructure | src/lib/seo-analyzer.ts:60-66 | the flag is false exactly when h2 or h3 appear without an h1, or h3 without an h2 |
| StaticAnalyzer.TitlePoints | src/lib/seo-analyzer.ts:130-133 | title points lie in [10, 25]; an empty title earns 10; 25 exactly for a 10–60 title without '\|', '-' or ':' |
| StaticAnalyzer.DescriptionPoints | src/lib/seo-analyzer.ts:136-138 | description points are 0/10/15/25; 0 iff empty; 25 iff 50–160 characters |
| StaticAnalyzer.MetadataPoints | src/lib/seo-analyzer.ts:129-149 | the metadata score lies in [30, 90], placeholder included, with the full-marks conditions stated |
| StaticAnalyzer.MetadataScore | src/lib/seo-analyzer.ts:120-150 | the accumulation yields the specified metadata score |
| StaticAnalyzer.ContentPoints | src/lib/seo-analyzer.ts:166-181 | the content score lies in [10, 100]; it is 100 exactly with h1, h2, a proper structure, at least 600 words and 75–300 words per image |
| StaticAnalyzer.ContentScore | src/lib/seo-analyzer.ts:155-182 | the accumulation yields the specified content score |
| StaticAnalyzer.PageSizePoints | src/lib/seo-analyzer.ts:202-206 | page-size points are one of 0/5/10/15/20; 20 iff length < 102400; 0 iff length ≥ 409600 |
| StaticAnalyzer.TechnicalPoints | src/lib/seo-analyzer.ts:196-221 | the technical score lies in [20, 100], with the full-marks conditions stated; the mobile bonus needs both the viewport tag and "width=device-width" |
| StaticAnalyzer.TechnicalScore | src/lib/seo-analyzer.ts:187-222 | the accumulation yields the specified technical score |
| StaticAnalyzer.SharePoints | src/lib/seo-analyzer.ts:241-242 | round(20·k/n) lies in [0, 20]; it is 20 with nothing to check or everything passing, and 0 when nothing passes |
| StaticAnalyzer.AccessibilityPoints | src/lib/seo-analyzer.ts:231-281 | the accessibility score lies in [25, 95] |
| StaticAnalyzer.LabelledAreLabelable | src/lib/seo-analyzer.ts:245-253 | the number of labelled fields never exceeds the number of labelable fields |
| StaticAnalyzer.AccessibilityScore | src/lib/seo-analyzer.ts:227-282 | the two `each` counting loops and the accumulation yield the specified accessibility score |
| StaticAnalyzer.PluralSingularIff | src/lib/seo-analyzer.ts:352-355 | the noun is singular exactly when the count is 1 |
| StaticAnalyzer.FiredTipsExactly | src/lib/seo-analyzer.ts:287-388 | a tip is listed exactly when its condition holds |
| StaticAnalyzer.FiredTipsInRuleOrder | src/lib/seo-analyzer.ts:287-388 | the tips appear in rule-declaration order |
| StaticAnalyzer.OneTipPerChain | src/lib/seo-analyzer.ts:305-320 | the title tips are mutually exclusive, and so are the description tips |
| StaticAnalyzer.Recommendations | src/lib/seo-analyzer.ts:287-388 | one message per fired tip, in rule order |
| StaticAnalyzer.GenerateRecommendations | src/lib/seo-analyzer.ts:287-388 | the sequence of pushes yields exactly the specified list |
| StaticAnalyzer.TopTen | src/lib/seo-analyzer.ts:93 | the returned list is the messages of the first min(10, fired) tips |
| StaticAnalyzer.SeoScore | src/lib/seo-analyzer.ts:90 | seo is round((meta + content + technical) / 3) and lies in [20, 97] |
| StaticAnalyzer.PageScores | src/lib/seo-analyzer.ts:86-92 | performance is always 80, and the other scores lie in their ranges |
| StaticAnalyzer.Analysis | src/lib/seo-analyzer.ts:49-105 | at most ten recommendations, namely the first ten in rule order; the word count is at least 1 |
| StaticAnalyzer.AnalyzeSeo | src/lib/seo-analyzer.ts:29-115 | an unparsable address fails with "Invalid URL format: …"; an HTTP error fails with "Failed to fetch URL (status): …"; no response passes its error on; a fetched page gives its analysis |
| StaticAnalyzer.AnalyzePage | src/lib/seo-analyzer.ts:49-105 | assembling the result gives the specified analysis |
| StaticAnalyzer.ScorePage | src/lib/seo-analyzer.ts:74-92 | the four calculations give the specified scores |
| ServerAnalyzeRoute.FirstMatchFrom | src/app/api/server-analyze/route.ts:71-88 | the first category rule from a position whose keywords the text mentions, with no earlier match skipped |
| ServerAnalyzeRoute.CategoryIsFirstMatch | src/app/api/server-analyze/route.ts:71-88 | the if-chain stops at the first rule whose keywords are mentioned, and the category is that rule's name |
| ServerAnalyzeRoute.GeneralIffNoKeyword | src/app/api/server-analyze/route.ts:71-88 | the category is 'general' exactly when no rule's keyword is mentioned |
| ServerAnalyzeRoute.Priority | src/app/api/server-analyze/route.ts:91-111 | 'high' iff a high-priority keyword is mentioned or index < 3; 'low' iff not high and (open graph/schema is mentioned or index > 8) |
| ServerAnalyzeRoute.PriorityFallsWithPosition | src/app/api/server-analyze/route.ts:91-111 | for the same text, a later position never has a higher priority |
| ServerAnalyzeRoute.Effort | src/app/api/server-analyze/route.ts:114-133 | 'low' iff a low-effort keyword is mentioned; 'high' iff not low and a high-effort keyword is mentioned |
| ServerAnalyzeRoute.ItemTitle | src/app/api/server-analyze/route.ts:139 | the title ends in '.' and otherwise is the longest dot-free prefix of the recommendation |
| ServerAnalyzeRoute.TitleWithoutFullStop | src/app/api/server-analyze/route.ts:139 | a text without '.' gives itself plus '.' |
| ServerAnalyzeRoute.ActionableItem | src/app/api/server-analyze/route.ts:138-145 | the description is the recommendation, and impact equals priority |
| ServerAnalyzeRoute.ActionableItems | src/app/api/server-analyze/route.ts:69-146 | one item per recommendation, in order |
| ServerAnalyzeRoute.FirstThreeAreHigh | src/app/api/server-analyze/route.ts:100 | the first three items are always high priority |
| ServerAnalyzeRoute.FixEffort | src/app/api/server-analyze/route.ts:154-158 | 'low' iff title/meta is mentioned; 'high' iff not low and https/speed is mentioned |
| ServerAnalyzeRoute.PriorityFixes | src/app/api/server-analyze/route.ts:148-159 | the first min(5, n) recommendations, with impact 'high' iff index < 2 |
| ServerAnalyzeRoute.FixesAgreeWithItems | src/app/api/server-analyze/route.ts:139-153 | a fix has the title of the corresponding item, and a high-impact fix is a high-priority item |
| ServerAnalyzeRoute.ReportOf | src/app/api/server-analyze/route.ts:42-160 | no analysis error; one actionable item per recommendation, at the same position and with it as description; at most five priority fixes, each with its item's title and text, and a high-impact fix is a high-priority item |
| ServerAnalyzeRoute.FallbackMessages | src/app/api/server-analyze/route.ts:182-187 | exactly four fixed messages |
| ServerAnalyzeRoute.FallbackDiffersFromReports | src/app/api/server-analyze/route.ts:168-196 | the fallback report equals no analysis report: it has no overall score and lists four messages without any actionable item |
| ServerAnalyzeRoute.AnalysisOf | src/lib/server-seo-analyzer.ts:130-680 | no error exactly for a completed session; a throwing call gives its one error, and before `browser.close()` zero scores and no recommendations |
| ServerAnalyzeRoute.Post | src/app/api/server-analyze/route.ts:7-204 | a configuration error gives 500; a missing or empty url gives 400 "URL is required"; an invalid one gives 400 "Invalid URL format"; otherwise 200 with the report of the analysis of the normalised address, which never carries an analysis error |
| ServerAnalyzeRoute.CrashedAnalysisReport | src/app/api/server-analyze/route.ts:31-167 | a throwing browser call still yields a successful report without analysis error, not the fallback report: zero scores and no items or fixes when a query or the set-up throws, and the complete analysis's report when only `browser.close()` throws |
| ActionableItems.Distinct | src/components/ActionableItems.tsx:13 | `new Set` keeps every value exactly once and nothing else |
| ActionableItems.DistinctInFirstAppearanceOrder | src/components/ActionableItems.tsx:13 | the distinct values appear in first-appearance order |
| ActionableItems.Categories | src/components/ActionableItems.tsx:13-14 | 'all' first, then each item category exactly once |
| ActionableItems.FilteredItems | src/components/ActionableItems.tsx:17-19 | 'all' keeps the list; another filter keeps exactly the items of that category, as a subsequence of the list (order preserved) taking no item more often than the list has it |
| ActionableItems.EffortValue | src/components/ActionableItems.tsx:27 | low effort ranks 3, high effort ranks 1 |
| ActionableItems.EffortSortAsWrittenIsHardestFirst | src/components/ActionableItems.tsx:26-28 | the comparator as written sorts effort ranks ascending, so hard items come first |
| ActionableItems.EffortSortAsWrittenCounterexample | src/components/ActionableItems.tsx:26-28 | [low-effort item, high-effort item] comes out as [high, low] |
| ActionableItems.SortedItemsAsWritten | src/components/ActionableItems.tsx:22-34 | the sorted list as written is a permutation of the filtered list, non-increasing in the written comparator's key |
| ActionableItems.SortedItems | src/components/ActionableItems.tsx:22-34 | corrected definition: a permutation of the filtered list, non-increasing in the key the labels describe |
| ActionableItems.EffortSortIsEasiestFirst | src/components/ActionableItems.tsx:26-28 | corrected definition: the effort sort puts the easiest items first, as the "Easiest first" option at line 89 promises |
| ActionableItems.CorrectionOnlyAffectsEffort | src/components/ActionableItems.tsx:22-34 | for every choice but effort, the corrected sort and the sort as written agree |
| ActionableItems.PrioritySortIsStable | src/components/ActionableItems.tsx:23-25 | priority ranks are non-increasing, and items of equal priority keep their order |
| ActionableItems.ImpactSortIsStable | src/components/ActionableItems.tsx:29-31 | items of equal impact keep their order |
| ActionableItems.UnknownSortKeepsOrder | src/components/ActionableItems.tsx:33 | an unknown sort option leaves the order unchanged |
| ActionableItems.QuickWins | src/components/ActionableItems.tsx:150-158 | the first min(3, n) high-impact, low-effort items in sorted order; empty exactly when there is none |
| ActionableItems.StrategicItems | src/components/ActionableItems.tsx:163-171 | the first min(3, n) high-impact, medium- or high-effort items in sorted order; empty exactly when there is none |
| ActionableItems.PlanListsDisjoint | src/components/ActionableItems.tsx:150-168 | no item is both a quick win and a strategic item |
| ActionableItems.ViewOf | src/components/ActionableItems.tsx:8-34 | the view's list, sorted as written, is a permutation of the filtered list, non-increasing in the written key; both plan lists have at most 3 entries |
| StableSort.SortDescending | src/components/ActionableItems.tsx:22 | the insertion sort yields a list in non-increasing key order |
| StableSort.SortStable | src/components/ActionableItems.tsx:22 | elements with equal keys keep their relative order |
| StableSort.SortByConstantKey | src/components/ActionableItems.tsx:33 | a comparator that always returns 0 leaves the list unchanged |
| ActionPlan.PriorityLevel | src/app/admin/action-plan/page.tsx:29-32 | 1 → high, 2 → medium, every other number → low |
| ActionPlan.PriorityLevelInvertsRank | src/app/admin/action-plan/page.tsx:29-32 | on 1..3 the level's rank is 4 − priority |
| ActionPlan.LevelOrMedium | src/app/admin/action-plan/page.tsx:35-41 | a level name passes through, anything else becomes medium |
| ActionPlan.LevelOrMediumOfName | src/app/admin/action-plan/page.tsx:35-41 | the name of a level maps back to that level |
| ActionPlan.StoredRecommendationRoundTrip | src/app/admin/action-plan/page.tsx:43-50 | a recommendation stored with priority 4 − rank and its level names is mapped back to itself |
| ActionPlan.ActionItems | src/app/admin/action-plan/page.tsx:27-51 | one mapped item per action item, in order |
| ActionPlan.ShowsActionableItems | src/app/admin/action-plan/page.tsx:81-90 | the list is shown exactly when there is at least one item |
| ActionPlan.Phase | src/app/admin/action-plan/page.tsx:100-137 | the first min(5, n) high-priority items with the phase's effort, in order; empty exactly when there is none |
| ActionPlan.PhasesDisjoint | src/app/admin/action-plan/page.tsx:100-137 | the three phases are pairwise disjoint |
| ActionPlan.PhaseGroupsPartitionHighPriority | src/app/admin/action-plan/page.tsx:100-137 | the three phase filters split the high-priority items exactly |
| ActionPlan.TimelineBound | src/app/admin/action-plan/page.tsx:100-137 | the timeline lists at most as many items as are high priority, and at most 15 |
| ActionPlan.PhaseLines | src/app/admin/action-plan/page.tsx:100-140 | an empty phase shows its single "No … identified" line; otherwise one title per item |
| ResultsDisplay.ScoreColor | src/components/SeoResultsDisplay.tsx:15-21 | the band for each of ≥90, ≥70, ≥50, ≥30 and below, both directions |
| ResultsDisplay.ScoreColorMonotone | src/components/SeoResultsDisplay.tsx:15-21 | a higher score never gets a lower colour |
| ResultsDisplay.ColorRankBounds | src/components/SeoResultsDisplay.tsx:15-21 | colour rank r > 0 means score ≥ 10 + 20·r |
| ResultsDisplay.ScoreTextColor | src/components/SeoResultsDisplay.tsx:24-27 | white exactly when score ≥ 50 |
| ResultsDisplay.WhiteTextOnBrightColors | src/components/SeoResultsDisplay.tsx:15-27 | white text exactly on the three upper colours |
| ResultsDisplay.StatusLabel | src/components/SeoResultsDisplay.tsx:46 | Good for ≥70, Needs Improvement for 50–69, Poor below |
| ResultsDisplay.StatusMatchesColor | src/components/SeoResultsDisplay.tsx:15-46 | Good on the two green colours, Needs Improvement on yellow, Poor exactly with dark text |
| ResultsDisplay.ParseKind | src/components/SeoResultsDisplay.tsx:57-76 | a recognised type name maps to its kind |
| ResultsDisplay.ParseKindName | src/components/SeoResultsDisplay.tsx:57-76 | each kind's name is recognised as that kind |
| ResultsDisplay.DescriptionText | src/components/SeoResultsDisplay.tsx:58-73 | every description of a known type is non-empty |
| ResultsDisplay.ScoreDescription | src/components/SeoResultsDisplay.tsx:56-77 | '' exactly for an unknown type; otherwise the good or poor text by the threshold 70 |
| ResultsDisplay.DescriptionThreshold | src/components/SeoResultsDisplay.tsx:56-77 | scores on the same side of 70 get the same description |
| ResultsDisplay.DescriptionsDiffer | src/components/SeoResultsDisplay.tsx:58-73 | the good and poor descriptions of each type differ |
| ResultsDisplay.Card | src/components/SeoResultsDisplay.tsx:30-50 | the separately computed parts of a card agree: the good description exactly with the good status, white text unless poor, good status exactly on green |
| ResultsDisplay.ScoreCards | src/components/SeoResultsDisplay.tsx:120-139 | four cards, for seo, performance, accessibility and best practices in that order |
| ResultsDisplay.OverallMessageFor | src/components/SeoResultsDisplay.tsx:104-108 | excellent for ≥80, decent for 60–79, needs work below 60 |
| ResultsDisplay.ShowsOverall | src/components/SeoResultsDisplay.tsx:87 | the overall block is shown exactly when the overall score is present and not 0 |
| ResultsDisplay.ZeroOverallIsHidden | src/components/SeoResultsDisplay.tsx:87 | a zero overall score is hidden, and every other one is shown |
| ResultsDisplay.PathDepthMessage | src/components/SeoResultsDisplay.tsx:168-172 | homepage for 0, good depth for 1–2, deep page above 2 |
| ReportCard.ScoreColor | src/components/ReportCard.tsx:12-16 | green for ≥90, yellow for 70–89, red below, both directions |
| ReportCard.CardAndDisplayBands | src/components/ReportCard.tsx:12-16 | the card's green and yellow match the display's two top bands, and its red covers the display's three lower bands |
| ReportCard.SpaceBeforeCapitals | src/components/ReportCard.tsx:32 | the replacement never shortens the key and is empty only for the empty key |
| ReportCard.SpaceBeforeCapitalsConcat | src/components/ReportCard.tsx:32 | the replacement works character by character |
| ReportCard.NoCapitalsUnchanged | src/components/ReportCard.tsx:32 | a key without capitals is unchanged by the replacement |
| ReportCard.LabelOfKey | src/components/ReportCard.tsx:32 | trimming removes only the space inserted before a leading capital |
| ReportCard.LowerKeyIsItsOwnLabel | src/components/ReportCard.tsx:32 | a key without capitals or spaces is its own label |
| ReportCard.CamelCaseLabel | src/components/ReportCard.tsx:32 | a lower-case word followed by a capitalised word gets exactly one space between them |
| ReportCard.BestPracticesLabel | src/components/ReportCard.tsx:32 | "bestPractices" is labelled "best Practices" |
| ReportCard.Tiles | src/components/ReportCard.tsx:29-36 | one tile per score entry, in order, with its label, value and colour |
| TestAnalyzer.MetadataOf | src/app/api/test-analyzer/route.ts:29-34 | the title is trimmed; the description is '' exactly when the attribute is missing or empty; the word count is at least 1 |
| TestAnalyzer.FiredTipsExactly | src/app/api/test-analyzer/route.ts:47-52 | a tip is listed exactly when its condition holds |
| TestAnalyzer.FiredTipsInRuleOrder | src/app/api/test-analyzer/route.ts:47-52 | tips appear in the order title, description, favicon, h1, content, images, so at most 6 |
| TestAnalyzer.Recommendations | src/app/api/test-analyzer/route.ts:45-52 | one message per fired tip, in order |
| TestAnalyzer.ScoresAgreeWithTips | src/app/api/test-analyzer/route.ts:37-50 | the title or description tip fires exactly when seo is 65; the favicon tip exactly when best practices is 70; the h1 tip exactly when accessibility is 70 |
| TestAnalyzer.BasicRecommendations | src/app/api/test-analyzer/route.ts:45-52 | the sequence of pushes yields exactly the specified list |
| TestAnalyzer.ResponseOf | src/app/api/test-analyzer/route.ts:9-78 | 400 "URL parameter is required" exactly for a missing or empty url; 500 with the error message (or "Unknown error occurred") exactly when the fetch fails; 200 with the analysis otherwise |
| TestAnalyzer.MissingUrlFetchesNothing | src/app/api/test-analyzer/route.ts:9-14 | without a url the response does not depend on the fetch |
| TestAnalyzer.Get | src/app/api/test-analyzer/route.ts:5-80 | the handler returns the specified response |
| ValidateEnv.FailingChecksExactly | src/lib/validate-env.ts:18-42 | a check is reported exactly when it fails |
| ValidateEnv.FailingChecksInOrder | src/lib/validate-env.ts:18-42 | failing checks are reported in the order URL, anon key, service key, then the three formats |
| ValidateEnv.Validation | src/lib/validate-env.ts:9-48 | throws exactly in production with a failing check, and then for the first one; otherwise completes with a warning per failing check, in order; the success line is logged exactly in development with all three values present, whatever their format, and so never in production |
| ValidateEnv.LogOrThrow | src/lib/validate-env.ts:53-58 | throws for the check, or appends its warning |
| ValidateEnv.FirstFailure | src/lib/validate-env.ts:18-42 | a check that fails after all earlier ones pass is the first failure |
| ValidateEnv.ValidateEnvironmentVariables | src/lib/validate-env.ts:9-48 | the sequence of checks with `logOrThrow` yields exactly the specified outcome |
| ValidateEnv.SuccessLineDespiteBadFormat | src/lib/validate-env.ts:31-47 | in development with all three values present, the success line is logged even when the URL format warning is too |
| ValidateEnv.ProductionPassImpliesRequired | src/lib/validate-env.ts:18-24 | a production configuration that passes also passes the required-variable check |
| ValidateEnvironment.RequiredVariables | src/lib/validateEnvironment.ts:11-14 | two required variable names |
| ValidateEnvironment.MissingVariables | src/lib/validateEnvironment.ts:16-18 | the missing or empty required names, in declared order |
| ValidateEnvironment.ValidateEnvironmentVariables | src/lib/validateEnvironment.ts:11-25 | throws exactly when a required variable is missing or empty, naming the missing ones |
| ValidateEnvironment.GetEnvVariable | src/lib/validateEnvironment.ts:35-43 | a non-empty value is returned; an unusable value with a default gives that default; it fails exactly when the value is unusable and no default is given, with "Environment variable … is not set" |
| ValidateEnvironment.EmptyDefaultIsReturned | src/lib/validateEnvironment.ts:36 | an empty default is returned for an unusable value |
| ReportTypes.ParseName | src/app/admin/action-plan/page.tsx:35-41 | the name of a level parses back to the level |
| ReportTypes.Rank | src/components/ActionableItems.tsx:24 | high 3, medium 2, low 1 |
| Text.ToLower | src/app/api/server-analyze/route.ts:72 | `toLowerCase` on ASCII letters, character by character |
| Text.Trim | src/app/api/test-analyzer/route.ts:29 | the result is an infix of the text, every character outside it is whitespace, and it neither starts nor ends with whitespace |
| Text.TrimSplitLength | src/lib/seo-analyzer.ts:55 | splitting the trimmed text on whitespace runs gives the word count, and 1 for no words |
| Text.SplitHead | src/app/api/server-analyze/route.ts:139 | `split('.')[0]` is the longest separator-free prefix |
| Text.NatToString | src/lib/seo-analyzer.ts:110 | a non-empty string of decimal digits whose value is the number, with no leading zero |
| Rounding.Round | src/lib/seo-analyzer.ts:149 | `Math.round(num/den)` is within one half of num/den |
| Rounding.RoundShareOfTwenty | src/lib/seo-analyzer.ts:241-242 | round(20·k/n) lies in [0, 20] and hits both ends |
| Seqs.Take | src/lib/seo-analyzer.ts:93 | `slice(0, n)` is the longest prefix of length at most n |
| Seqs.Filter | src/components/ActionableItems.tsx:19 | `filter` keeps exactly the elements that satisfy the predicate |
| Seqs.FilterIsSubsequence | src/components/ActionableItems.tsx:19 | `filter` keeps the elements it keeps in their original order |
| Seqs.Map | src/app/api/server-analyze/route.ts:69 | `map` applies the function element by element |

## Left out

- The browser session, the HTTP fetch and the markup queries become
  input records of facts: `PageFacts`, `StaticPage` and `TestPage`.
  These are Puppeteer navigation and `page.evaluate`, axios and cheerio.
  Their timeouts, headers and request interception are not modelled.
  Which awaited call throws is part of the input (`PageOutcome`).
  `browser.close()` runs only on the success path; the browser left open
  after a failure is not modelled.
- Address parsing follows the WHATWG URL Standard (section 4.4 of the
  living standard). It is a function parameter `UrlParser`: validity,
  host names and the resolution of relative links are whatever it
  returns.
- Floating point:
  - The weighted overall scores are exact integer formulas. They agree
    with the source except possibly where a float product lands on an
    exact .5 tie.
  - The `toFixed(2)` load-time text is an input string.
  - The contrast luminance heuristic and the mobile render test are
    boolean inputs.
  - `wordCount / imageCount` is compared in integer form.
- Scores are unbounded integers. JavaScript numbers never overflow at
  these magnitudes.
- Strings:
  - JavaScript's `\s` is modelled as JavaScript defines it: `Text.IsSpace`
    holds for the ASCII whitespace, no-break space, the Unicode space
    separators, the line and paragraph separators and the byte order
    mark.
  - `toLowerCase` is ASCII-only.
  - Lengths count characters rather than UTF-16 code units.
- The regular expression `([A-Z])` of the report card is the ASCII
  capital test.
- Request parsing is not modelled. The route receives the `url` field
  and the query parameter as an `Option` value.
- `console.log`, `console.warn` and `console.error` are not modelled.
  The environment validator's logging is modelled as the list of
  warnings and a success flag.
- In the server-analyze route, the report's `date` field is a clock
  reading and is left out. Of `analysisDetails`, only the overall score
  is kept.
- The status code is recorded only for a response whose URL equals the
  normalised address. A server that redirects, even only to add a
  trailing slash, leaves it at 0. The status code is an input of
  `PageFacts`, so the model does not show this.
- The route's fallback report is modelled but unreachable.
  `analyzeSeoServer` catches every error itself, so the route's inner
  `catch` never runs. The model proves what such a request gets instead
  (`CrashedAnalysisReport`).
- In the report card, the order of the `Object.entries(scores)` tiles is
  taken as given by the input list. The recommendation rows repeat the
  recommendations verbatim and carry no logic.
- React rendering, hook state and class names beyond the colour tokens
  are not modelled.
- The colour classes of the `getColorClass` badges are not modelled.
- `src/types/form.ts` is a zod schema; only its shapes are used.
- Database and Supabase code is not part of this model.
- ServerAnalyzer.LinkCountOf: states only that internal + external is
  at most the number of anchors. Which anchors are skipped or counted as
  internal is fixed by its definition and by `CountLinks`.
- StaticAnalyzer.AccessibilityPoints: states only the range [25, 95].
  The individual landmark and language bonuses are fixed by its
  definition.
- ValidateEnvironment.ValidateEnvironmentVariables: the thrown message is
  `MissingMessage` of the missing names. No property of `Join` beyond
  its definition is proved.

## Findings

| source | as written | input that shows it | evidently intended | confidence | as-written member | corrected member |
|---|---|---|---|---|---|---|
| src/components/ActionableItems.tsx:26-28 | the effort comparator `effortValues[a.effort] - effortValues[b.effort]` with low = 3, high = 1 sorts ascending, so high-effort items come first | items = [low-effort item, high-effort item] with sortBy = 'effort' gives [high-effort, low-effort] | "Effort (Easiest first)" (line 89) and the comment "low effort = higher rank": low-effort items first | not executed | ActionableItems.EffortSortAsWrittenCounterexample | ActionableItems.EffortSortIsEasiestFirst |
