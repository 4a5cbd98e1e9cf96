/** `POST /api/server-analyze` (`src/app/api/server-analyze/route.ts`):
    it checks the configuration and the URL, runs the rendered-document
    analysis and turns its recommendations into a report with actionable
    items, each classified by keyword search, and a short list of priority
    fixes. */
module ServerAnalyzeRoute {
  import opened Wrappers
  import opened Text
  import opened Seqs
  import opened ReportTypes
  import opened ProcessEnv
  import ClientAnalyzer
  import ServerAnalyzer
  import ValidateEnv

  /** `recommendation.toLowerCase().includes(word)`. */
  predicate Mentions(recommendation: string, word: string) {
    Contains(ToLower(recommendation), word)
  }

  // ---------------------------------------------------------------------
  // category

  /** The position of the category rule that decides an item: the first
      rule whose keywords the recommendation mentions, and 8 ('general')
      when none does. */
  function CategoryIndex(recommendation: string): int {
    if Mentions(recommendation, "title tag") || Mentions(recommendation, "meta description") then 0
    else if Mentions(recommendation, "heading") || Mentions(recommendation, "content") then 1
    else if Mentions(recommendation, "image") then 2
    else if Mentions(recommendation, "mobile") || Mentions(recommendation, "viewport") then 3
    else if Mentions(recommendation, "load") || Mentions(recommendation, "speed") then 4
    else if Mentions(recommendation, "link") || Mentions(recommendation, "internal") then 5
    else if Mentions(recommendation, "https") || Mentions(recommendation, "canonical") then 6
    else if Mentions(recommendation, "alt text") || Mentions(recommendation, "contrast") then 7
    else 8
  }

  /** The category of an item: the name of the deciding rule, 'general'
      by default. */
  function Category(recommendation: string): string {
    CategoryName(CategoryIndex(recommendation))
  }

  /** The category rules as a table, in the order they are tried: rule `i`
      assigns `CategoryName(i)` to a recommendation that mentions one of
      its two keywords. */
  const CategoryRuleCount := 8

  function CategoryName(i: int): string {
    match i
    case 0 => "meta"
    case 1 => "content"
    case 2 => "media"
    case 3 => "mobile"
    case 4 => "performance"
    case 5 => "links"
    case 6 => "technical"
    case 7 => "accessibility"
    case _ => "general"
  }

  function FirstKeyword(i: int): string {
    match i
    case 0 => "title tag"
    case 1 => "heading"
    case 2 => "image"
    case 3 => "mobile"
    case 4 => "load"
    case 5 => "link"
    case 6 => "https"
    case _ => "alt text"
  }

  /** The second keyword of a rule; the media rule has only one, given
      twice. */
  function SecondKeyword(i: int): string {
    match i
    case 0 => "meta description"
    case 1 => "content"
    case 2 => "image"
    case 3 => "viewport"
    case 4 => "speed"
    case 5 => "internal"
    case 6 => "canonical"
    case _ => "contrast"
  }

  predicate MatchesRule(recommendation: string, i: int) {
    Mentions(recommendation, FirstKeyword(i)) || Mentions(recommendation, SecondKeyword(i))
  }

  /** The first rule, from rule `i` on, that the recommendation matches, or
      `CategoryRuleCount` when none does. */
  function FirstMatchFrom(recommendation: string, i: nat): (j: nat)
    requires i <= CategoryRuleCount
    ensures i <= j <= CategoryRuleCount
    ensures j < CategoryRuleCount ==> MatchesRule(recommendation, j)
    ensures forall k :: i <= k < j ==> !MatchesRule(recommendation, k)
    decreases CategoryRuleCount - i
  {
    if i == CategoryRuleCount then i
    else if MatchesRule(recommendation, i) then i
    else FirstMatchFrom(recommendation, i + 1)
  }

  /** The if-chain is the table search: the category is the name of the
      first matching rule. */
  lemma CategoryIsFirstMatch(recommendation: string)
    ensures CategoryIndex(recommendation) == FirstMatchFrom(recommendation, 0)
    ensures Category(recommendation) == CategoryName(FirstMatchFrom(recommendation, 0))
  {
  }

  /** Only the default rule is named 'general'. */
  lemma GeneralName(i: int)
    requires 0 <= i <= CategoryRuleCount
    ensures CategoryName(i) == "general" <==> i == CategoryRuleCount
  {
  }

  /** A recommendation is 'general' exactly when it mentions none of the
      keywords. */
  lemma GeneralIffNoKeyword(recommendation: string)
    ensures Category(recommendation) == "general" <==>
      forall k :: 0 <= k < CategoryRuleCount ==> !MatchesRule(recommendation, k)
  {
    CategoryIsFirstMatch(recommendation);
    var j := FirstMatchFrom(recommendation, 0);
    GeneralName(j);
    if j < CategoryRuleCount {
      assert MatchesRule(recommendation, j);
    }
  }

  // ---------------------------------------------------------------------
  // priority, effort, title

  predicate HighPriorityWords(recommendation: string) {
    || Mentions(recommendation, "https")
    || Mentions(recommendation, "h1")
    || Mentions(recommendation, "title tag")
    || Mentions(recommendation, "meta description")
    || Mentions(recommendation, "mobile")
  }

  predicate LowPriorityWords(recommendation: string) {
    Mentions(recommendation, "open graph") || Mentions(recommendation, "schema")
  }

  /** The priority of the item at a position of the list: the first three
      are high, as is anything about HTTPS, the H1, the title tag, the meta
      description or mobile; of the rest, Open Graph and schema items and
      everything after the ninth are low. */
  function Priority(recommendation: string, index: int): (p: Level)
    ensures p == High <==> HighPriorityWords(recommendation) || index < 3
    ensures p == Low <==> (!HighPriorityWords(recommendation) && index >= 3
      && (LowPriorityWords(recommendation) || index > 8))
  {
    if HighPriorityWords(recommendation) || index < 3 then High
    else if LowPriorityWords(recommendation) || index > 8 then Low
    else Medium
  }

  /** The same recommendation never gains priority further down the list. */
  lemma PriorityFallsWithPosition(recommendation: string, i: int, j: int)
    requires i <= j
    ensures Rank(Priority(recommendation, j)) <= Rank(Priority(recommendation, i))
  {
  }

  predicate LowEffortWords(recommendation: string) {
    || Mentions(recommendation, "title tag")
    || Mentions(recommendation, "meta description")
    || Mentions(recommendation, "alt text")
    || Mentions(recommendation, "canonical")
  }

  predicate HighEffortWords(recommendation: string) {
    || Mentions(recommendation, "restructure")
    || Mentions(recommendation, "fix mobile")
    || Mentions(recommendation, "improve page load")
    || Mentions(recommendation, "https")
  }

  /** The effort of an item: the low-effort keywords win over the
      high-effort ones, and anything else is medium. */
  function Effort(recommendation: string): (e: Level)
    ensures e == Low <==> LowEffortWords(recommendation)
    ensures e == High <==> !LowEffortWords(recommendation) && HighEffortWords(recommendation)
  {
    if LowEffortWords(recommendation) then Low
    else if HighEffortWords(recommendation) then High
    else Medium
  }

  /** `recommendation.split('.')[0] + '.'`: the text up to the first full
      stop, or all of it when there is none, followed by a full stop. */
  function ItemTitle(recommendation: string): (title: string)
    ensures |title| >= 1 && title[|title| - 1] == '.'
    ensures var head := title[..|title| - 1];
      && StartsWith(recommendation, head)
      && (forall i :: 0 <= i < |head| ==> head[i] != '.')
      && (|head| == |recommendation| || recommendation[|head|] == '.')
  {
    SplitHead(recommendation, IsDot);
    var title := Split(recommendation, IsDot)[0] + ".";
    assert title[..|title| - 1] == Split(recommendation, IsDot)[0];
    title
  }

  /** A recommendation without a full stop is its own title, with one. */
  lemma TitleWithoutFullStop(recommendation: string)
    requires forall i :: 0 <= i < |recommendation| ==> recommendation[i] != '.'
    ensures ItemTitle(recommendation) == recommendation + "."
  {
    var title := ItemTitle(recommendation);
    var head := title[..|title| - 1];
    assert |head| == |recommendation|;
    assert head == recommendation;
    assert title == head + ".";
  }

  // ---------------------------------------------------------------------
  // the report

  /** The actionable item made of the recommendation at `index`. */
  function ActionableItem(recommendation: string, index: int): (item: SeoRecommendation)
    ensures item.description == recommendation && item.impact == item.priority
  {
    SeoRecommendation(ItemTitle(recommendation), recommendation, Category(recommendation),
      Priority(recommendation, index), Effort(recommendation), Priority(recommendation, index))
  }

  /** One item per recommendation, in the same order. */
  function ActionableItems(recommendations: seq<string>): (items: seq<SeoRecommendation>)
    ensures |items| == |recommendations|
    ensures forall i :: 0 <= i < |items| ==> items[i] == ActionableItem(recommendations[i], i)
  {
    seq(|recommendations|, i requires 0 <= i < |recommendations| => ActionableItem(recommendations[i], i))
  }

  /** The first items are high priority whatever they say. */
  lemma FirstThreeAreHigh(recommendations: seq<string>, i: int)
    requires 0 <= i < |recommendations| && i < 3
    ensures ActionableItems(recommendations)[i].priority == High
  {
  }

  /** The effort of a priority fix: anything about the title or meta tags
      is low, then HTTPS and speed are high, and the rest medium. */
  function FixEffort(recommendation: string): (e: Level)
    ensures e == Low <==> Mentions(recommendation, "title") || Mentions(recommendation, "meta")
    ensures e == High <==> (!(Mentions(recommendation, "title") || Mentions(recommendation, "meta"))
      && (Mentions(recommendation, "https") || Mentions(recommendation, "speed")))
  {
    if Mentions(recommendation, "title") || Mentions(recommendation, "meta") then Low
    else if Mentions(recommendation, "https") || Mentions(recommendation, "speed") then High
    else Medium
  }

  /** `priorityFixes`: the first five recommendations at most, the first
      two with high impact and the others with medium impact. */
  function PriorityFixes(recommendations: seq<string>): (fixes: seq<PriorityFix>)
    ensures |fixes| == if |recommendations| < 5 then |recommendations| else 5
    ensures forall i :: 0 <= i < |fixes| ==>
      && fixes[i].description == recommendations[i]
      && fixes[i].title == ItemTitle(recommendations[i])
      && fixes[i].impact == (if i < 2 then High else Medium)
      && fixes[i].effort == FixEffort(recommendations[i])
  {
    var top := Take(recommendations, 5);
    seq(|top|, i requires 0 <= i < |top| =>
      PriorityFix(ItemTitle(top[i]), top[i], if i < 2 then High else Medium, FixEffort(top[i])))
  }

  /** A priority fix has the title of the actionable item it comes from,
      and a high-impact fix is a high-priority item. */
  lemma FixesAgreeWithItems(recommendations: seq<string>, i: int)
    requires 0 <= i < |PriorityFixes(recommendations)|
    ensures PriorityFixes(recommendations)[i].title == ActionableItems(recommendations)[i].title
    ensures PriorityFixes(recommendations)[i].impact == High ==> ActionableItems(recommendations)[i].priority == High
  {
  }

  /** The report of a completed analysis of `normalizedUrl`: the four
      scores under their own names, the overall score, and the analysis's
      recommendations, each with its actionable item at the same position;
      at most five of them are priority fixes, each with the title and the
      text of its item, and a high-impact fix is a high-priority item. */
  function ReportOf(normalizedUrl: string, result: ServerAnalyzer.ServerResult): (report: ReportData)
    ensures report.url == normalizedUrl && report.analysisError.None?
    ensures report.overallScore == Some(result.scores.overall)
    ensures report.scores.seo == result.scores.seo && report.scores.performance == result.scores.performance
    ensures report.scores.accessibility == result.scores.accessibility
    ensures report.scores.bestPractices == result.scores.bestPractices
    ensures report.recommendations == result.recommendations
    ensures |report.actionableItems| == |report.recommendations|
    ensures forall i :: 0 <= i < |report.actionableItems| ==>
      report.actionableItems[i].description == report.recommendations[i]
    ensures |report.priorityFixes| <= 5 && |report.priorityFixes| <= |report.actionableItems|
    ensures forall i :: 0 <= i < |report.priorityFixes| ==>
      && report.priorityFixes[i].title == report.actionableItems[i].title
      && report.priorityFixes[i].description == report.actionableItems[i].description
      && (report.priorityFixes[i].impact == High ==> report.actionableItems[i].priority == High)
  {
    var s := result.scores;
    ReportData(normalizedUrl, ReportScores(s.performance, s.accessibility, s.seo, s.bestPractices),
      result.recommendations, None, Some(s.overall),
      ActionableItems(result.recommendations), PriorityFixes(result.recommendations))
  }

  /** The four fixed messages of the fallback report. */
  function FallbackMessages(): (messages: seq<string>)
    ensures |messages| == 4
  {
    [ "We couldn't fully analyze your website. Please ensure it's publicly accessible.",
      "Check that your URL is correct and the site is online.",
      "Our analysis tool might be experiencing temporary issues.",
      "Try again later or contact support if the problem persists." ]
  }

  /** The report the route builds when the analysis throws: every score is
      50, the messages are the fixed ones and the error is recorded, under
      the address as the request gave it. */
  function FallbackReport(url: string, error: string): (report: ReportData)
    ensures report.scores == ReportScores(50, 50, 50, 50)
    ensures report.recommendations == FallbackMessages() && report.analysisError == Some(error)
    ensures report.actionableItems == [] && report.priorityFixes == []
  {
    ReportData(url, ReportScores(50, 50, 50, 50), FallbackMessages(), Some(error), None, [], [])
  }

  /** The fallback report cannot be mistaken for the report of an
      analysis: it records an error and no overall score, and it lists
      four messages without a single actionable item. */
  lemma FallbackDiffersFromReports(url: string, error: string, normalizedUrl: string, result: ServerAnalyzer.ServerResult)
    ensures FallbackReport(url, error) != ReportOf(normalizedUrl, result)
    ensures FallbackReport(url, error).overallScore.None?
    ensures |FallbackReport(url, error).actionableItems| < |FallbackReport(url, error).recommendations|
  {
  }

  // ---------------------------------------------------------------------
  // the route

  datatype RouteMessage = UrlRequired | InvalidUrlFormat | ReportGenerated | BasicReportGenerated | ProcessingFailed

  function MessageText(m: RouteMessage): string {
    match m
    case UrlRequired => "URL is required"
    case InvalidUrlFormat => "Invalid URL format"
    case ReportGenerated => "Report generated successfully using server-side analysis"
    case BasicReportGenerated => "Basic report generated with limited analysis due to technical issues"
    case ProcessingFailed => "Failed to process request"
  }

  /** The JSON response: its status, `success`, `message` and `report`. */
  datatype Response = Response(status: int, success: bool, message: RouteMessage, report: Option<ReportData>)

  /** What the analysis of an accepted URL returns, by how the browser
      session went: the complete analysis, or the record as far as it was
      filled in with the one error of the call that threw. */
  function AnalysisOf(parser: ClientAnalyzer.UrlParser, normalizedUrl: string, outcome: ServerAnalyzer.PageOutcome): (r: ServerAnalyzer.ServerResult)
    requires parser(normalizedUrl, None).Success?
    ensures r.url == normalizedUrl
    ensures outcome.Loaded? <==> r.errors == []
    ensures outcome.Crashed? ==> r.errors == ["Analysis error: " + outcome.message]
    ensures outcome.Crashed? && outcome.at != ServerAnalyzer.AtClose ==>
      r.scores == ServerAnalyzer.ServerScores(0, 0, 0, 0, 0) && r.recommendations == []
  {
    match outcome
    case Crashed(at, f, message) =>
      ServerAnalyzer.FilledUpTo(parser, normalizedUrl, f, at).(errors := ["Analysis error: " + message])
    case Loaded(f) =>
      ServerAnalyzer.Analyzed(parser, normalizedUrl, f)
  }

  /** `POST`: a configuration that fails validation in production gives a
      500; a missing or empty URL and a URL that does not parse give a 400;
      otherwise the report of the analysis. The analysis reports its own
      failures instead of throwing, so the fallback report is never
      returned (every report has no `analysisError`). */
  method Post(parser: ClientAnalyzer.UrlParser, env: Env, url: Option<string>, outcome: ServerAnalyzer.PageOutcome)
    returns (response: Response)
    ensures ValidateEnv.Validation(env).Thrown? ==> response == Response(500, false, ProcessingFailed, None)
    ensures ValidateEnv.Validation(env).Completed? && (url.None? || url.value == "") ==>
      response == Response(400, false, UrlRequired, None)
    ensures (ValidateEnv.Validation(env).Completed? && url.Some? && url.value != ""
      && !ClientAnalyzer.IsValidUrl(parser, url.value)) ==>
      response == Response(400, false, InvalidUrlFormat, None)
    ensures (ValidateEnv.Validation(env).Completed? && url.Some? && url.value != ""
      && ClientAnalyzer.IsValidUrl(parser, url.value)) ==>
      var normalizedUrl := ClientAnalyzer.NormalizeUrl(url.value);
      response == Response(200, true, ReportGenerated,
        Some(ReportOf(normalizedUrl, AnalysisOf(parser, normalizedUrl, outcome))))
    ensures response.report.Some? ==> response.report.value.analysisError.None?
  {
    var validation := ValidateEnv.ValidateEnvironmentVariables(env);
    if validation.Thrown? {
      return Response(500, false, ProcessingFailed, None);
    }
    if url.None? || url.value == "" {
      return Response(400, false, UrlRequired, None);
    }
    if !ClientAnalyzer.IsValidUrl(parser, url.value) {
      return Response(400, false, InvalidUrlFormat, None);
    }
    var normalizedUrl := ClientAnalyzer.NormalizeUrl(url.value);
    ClientAnalyzer.NormalizeIdempotent(url.value);
    var seoAnalysisResult := ServerAnalyzer.AnalyzeSeoServer(parser, normalizedUrl, outcome);
    assert seoAnalysisResult == AnalysisOf(parser, normalizedUrl, outcome);
    var reportData := ReportOf(normalizedUrl, seoAnalysisResult);
    return Response(200, true, ReportGenerated, Some(reportData));
  }

  /** A browser session that throws still gives a successful report
      rather than the fallback report. When a page query or the session
      set-up throws, every score is 0 and there is nothing to fix; when
      only `browser.close()` throws, the report is the one of the complete
      analysis. */
  lemma CrashedAnalysisReport(parser: ClientAnalyzer.UrlParser, normalizedUrl: string, at: ServerAnalyzer.CrashStage, f: ServerAnalyzer.PageFacts, message: string)
    requires parser(normalizedUrl, None).Success?
    ensures var report := ReportOf(normalizedUrl, AnalysisOf(parser, normalizedUrl, ServerAnalyzer.Crashed(at, f, message)));
      && report.analysisError.None?
      && (at != ServerAnalyzer.AtClose ==>
        && report.scores == ReportScores(0, 0, 0, 0)
        && report.recommendations == [] && report.actionableItems == [] && report.priorityFixes == [])
      && (at == ServerAnalyzer.AtClose ==>
        report == ReportOf(normalizedUrl, AnalysisOf(parser, normalizedUrl, ServerAnalyzer.Loaded(f))))
  {
    if at == ServerAnalyzer.AtClose {
      ServerAnalyzer.FailedCloseKeepsAnalysis(parser, normalizedUrl, f);
    }
  }
}
