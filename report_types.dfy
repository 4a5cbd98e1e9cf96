/** The shapes the report views share: the three-valued levels used for
    priority, effort and impact, an actionable recommendation, a priority
    fix and the report itself. */
module ReportTypes {
  import opened Wrappers

  /** `'high' | 'medium' | 'low'`. */
  datatype Level = High | Medium | Low

  /** The text of a level, as it is stored and displayed. */
  function Name(l: Level): string {
    match l
    case High => "high"
    case Medium => "medium"
    case Low => "low"
  }

  /** Reading a level back from its text; any other text is not a level. */
  function ParseLevel(s: string): (r: Option<Level>)
    ensures r.Some? ==> Name(r.value) == s
  {
    if s == "high" then Some(High)
    else if s == "medium" then Some(Medium)
    else if s == "low" then Some(Low)
    else None
  }

  lemma ParseName(l: Level)
    ensures ParseLevel(Name(l)) == Some(l)
  {
  }

  /** The text of a level determines the level. */
  lemma NameInjective(a: Level, b: Level)
    requires Name(a) == Name(b)
    ensures a == b
  {
    ParseName(a);
    ParseName(b);
  }

  /** `{ high: 3, medium: 2, low: 1 }`, the rank used to sort by priority
      and by impact. */
  function Rank(l: Level): (r: int)
    ensures 1 <= r <= 3
    ensures r == 3 <==> l == High
    ensures r == 1 <==> l == Low
  {
    match l
    case High => 3
    case Medium => 2
    case Low => 1
  }

  /** `SeoRecommendation`: an actionable item of a report. */
  datatype SeoRecommendation = SeoRecommendation(
    title: string, description: string, category: string,
    priority: Level, effort: Level, impact: Level)

  /** An entry of `priorityFixes`. */
  datatype PriorityFix = PriorityFix(title: string, description: string, impact: Level, effort: Level)

  datatype ReportScores = ReportScores(performance: int, accessibility: int, seo: int, bestPractices: int)

  /** `ReportData`; the `date` field is a clock reading and is not part of
      this model, and of the analysis details only the overall score is
      kept. */
  datatype ReportData = ReportData(
    url: string,
    scores: ReportScores,
    recommendations: seq<string>,
    analysisError: Option<string>,
    overallScore: Option<int>,
    actionableItems: seq<SeoRecommendation>,
    priorityFixes: seq<PriorityFix>)
}
