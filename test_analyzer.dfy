/** `src/app/api/test-analyzer/route.ts`: a basic scorer that fetches the
    page at the `url` query parameter, reads a few facts from it, and
    answers fixed scores and up to six recommendations. */
module TestAnalyzer {
  import opened Wrappers
  import opened Text
  import opened Seqs
  import StaticAnalyzer

  /** What the markup selectors read from the fetched page: the text of
      the `title` element, the `content` of the description meta tag if
      there is one, whether an icon link exists, the number of `img`
      elements, the text of the body and whether an `h1` exists. */
  datatype TestPage = TestPage(
    titleText: string, descriptionContent: Option<string>, hasFavicon: bool,
    imageCount: nat, bodyText: string, hasH1: bool)

  /** The fetch: the page, or the error it threw (`None` when the thrown
      value is not an `Error`). */
  datatype FetchOutcome = Fetched(page: TestPage) | FetchFailed(message: Option<string>)

  datatype TestMetadata = TestMetadata(
    title: string, description: string, hasFavicon: bool,
    imageCount: nat, wordCount: nat, hasH1: bool)

  datatype TestScores = TestScores(performance: int, accessibility: int, seo: int, bestPractices: int)

  datatype TestAnalysis = TestAnalysis(scores: TestScores, recommendations: seq<string>, metadata: TestMetadata)

  /** The body of a response: the 400 error, the 500 failure, or the
      analysis of the page. */
  datatype Body =
    | RequiredError(error: string)
    | FetchError(error: string)
    | Analysis(url: string, analysis: TestAnalysis)

  datatype Response = Response(status: int, body: Body)

  /** The facts the route keeps: the trimmed title, the description or ''
      when it is missing or empty, and the word count of the body. */
  function MetadataOf(p: TestPage): (m: TestMetadata)
    ensures m.title == Trim(p.titleText)
    ensures m.description == "" <==> p.descriptionContent.None? || p.descriptionContent.value == ""
    ensures m.description != "" ==> p.descriptionContent == Some(m.description)
    ensures m.wordCount >= 1
    ensures m.hasFavicon == p.hasFavicon && m.imageCount == p.imageCount && m.hasH1 == p.hasH1
  {
    var description := if p.descriptionContent.Some? then p.descriptionContent.value else "";
    TestMetadata(Trim(p.titleText), description, p.hasFavicon, p.imageCount,
      StaticAnalyzer.WordCount(p.bodyText), p.hasH1)
  }

  /** The four fixed scores: performance is always 80; accessibility,
      SEO and best practices each take one of two values. */
  function ScoresOf(m: TestMetadata): (s: TestScores)
    ensures s.performance == 80
    ensures s.accessibility == (if m.hasH1 then 85 else 70)
    ensures s.seo == (if m.title != "" && m.description != "" then 90 else 65)
    ensures s.bestPractices == (if m.hasFavicon then 85 else 70)
  {
    TestScores(80, if m.hasH1 then 85 else 70,
      if m.title != "" && m.description != "" then 90 else 65,
      if m.hasFavicon then 85 else 70)
  }

  // ---------------------------------------------------------------------
  // recommendations

  /** The recommendation rules, in the order they are written. */
  datatype TestTip = AddTitle | AddDescription | AddFavicon | AddH1 | MoreContent | AddImages

  function RuleIndex(t: TestTip): int {
    match t
    case AddTitle => 0
    case AddDescription => 1
    case AddFavicon => 2
    case AddH1 => 3
    case MoreContent => 4
    case AddImages => 5
  }

  const RuleCount := 6

  function TipAt(i: nat): TestTip
    requires i < RuleCount
  {
    match i
    case 0 => AddTitle
    case 1 => AddDescription
    case 2 => AddFavicon
    case 3 => AddH1
    case 4 => MoreContent
    case _ => AddImages
  }

  lemma TipAtIndex(i: nat)
    requires i < RuleCount
    ensures RuleIndex(TipAt(i)) == i
  {
  }

  lemma IndexTipAt(t: TestTip)
    ensures 0 <= RuleIndex(t) < RuleCount && TipAt(RuleIndex(t)) == t
  {
  }

  /** When each rule applies. */
  predicate Fires(m: TestMetadata, t: TestTip) {
    match t
    case AddTitle => m.title == ""
    case AddDescription => m.description == ""
    case AddFavicon => !m.hasFavicon
    case AddH1 => !m.hasH1
    case MoreContent => m.wordCount < 300
    case AddImages => m.imageCount == 0
  }

  function Message(t: TestTip): string {
    match t
    case AddTitle => "Add a title tag to your page"
    case AddDescription => "Add a meta description to your page"
    case AddFavicon => "Add a favicon to your website"
    case AddH1 => "Add an H1 heading to your page"
    case MoreContent => "Add more content to your page"
    case AddImages => "Add images to make your content more engaging"
  }

  /** The tips of the first `k` rules that apply, in rule order. */
  function FiredUpTo(m: TestMetadata, k: nat): (tips: seq<TestTip>)
    requires k <= RuleCount
    ensures |tips| <= k
  {
    if k == 0 then [] else FiredUpTo(m, k - 1) + When(Fires(m, TipAt(k - 1)), TipAt(k - 1))
  }

  function FiredTips(m: TestMetadata): seq<TestTip> {
    FiredUpTo(m, RuleCount)
  }

  lemma {:induction false} FiredUpToMembership(m: TestMetadata, k: nat, t: TestTip)
    requires k <= RuleCount
    ensures t in FiredUpTo(m, k) <==> Fires(m, t) && RuleIndex(t) < k
  {
    if k > 0 {
      var last := TipAt(k - 1);
      FiredUpToMembership(m, k - 1, t);
      IndexTipAt(t);
      TipAtIndex(k - 1);
      assert FiredUpTo(m, k) == FiredUpTo(m, k - 1) + When(Fires(m, last), last);
      assert t == last <==> RuleIndex(t) == k - 1;
    }
  }

  lemma {:induction false} FiredUpToOrdered(m: TestMetadata, k: nat)
    requires k <= RuleCount
    ensures IncreasingBy(FiredUpTo(m, k), RuleIndex)
    ensures AllBelow(FiredUpTo(m, k), k, RuleIndex)
  {
    if k > 0 {
      var prev := FiredUpTo(m, k - 1);
      var tips := FiredUpTo(m, k);
      FiredUpToOrdered(m, k - 1);
      TipAtIndex(k - 1);
      assert tips == prev + When(Fires(m, TipAt(k - 1)), TipAt(k - 1));
      forall i, j | 0 <= i < j < |tips| ensures RuleIndex(tips[i]) < RuleIndex(tips[j]) {
        if j >= |prev| {
          assert tips[j] == TipAt(k - 1) && tips[i] == prev[i];
        } else {
          assert tips[i] == prev[i] && tips[j] == prev[j];
        }
      }
      forall i | 0 <= i < |tips| ensures RuleIndex(tips[i]) < k {
        if i < |prev| {
          assert tips[i] == prev[i];
        }
      }
    }
  }

  /** A tip is given exactly when its rule applies. */
  lemma FiredTipsExactly(m: TestMetadata, t: TestTip)
    ensures t in FiredTips(m) <==> Fires(m, t)
  {
    FiredUpToMembership(m, RuleCount, t);
    IndexTipAt(t);
  }

  /** The tips keep the written order of the rules, so there are at most
      six and none is repeated. */
  lemma FiredTipsInRuleOrder(m: TestMetadata)
    ensures IncreasingBy(FiredTips(m), RuleIndex)
    ensures |FiredTips(m)| <= 6
  {
    FiredUpToOrdered(m, RuleCount);
  }

  /** The recommendation list: the messages of the rules that apply, in
      the order written. */
  function Recommendations(m: TestMetadata): (recs: seq<string>)
    ensures |recs| == |FiredTips(m)| <= RuleCount
    ensures forall i :: 0 <= i < |recs| ==> recs[i] == Message(FiredTips(m)[i])
  {
    Map(FiredTips(m), Message)
  }

  /** The scores and the tips tell the same story: a tip about the title,
      the description, the favicon or the `h1` goes with the lower value
      of the score that fact decides. */
  lemma ScoresAgreeWithTips(m: TestMetadata)
    ensures (AddTitle in FiredTips(m) || AddDescription in FiredTips(m)) <==> ScoresOf(m).seo == 65
    ensures AddFavicon in FiredTips(m) <==> ScoresOf(m).bestPractices == 70
    ensures AddH1 in FiredTips(m) <==> ScoresOf(m).accessibility == 70
  {
    FiredTipsExactly(m, AddTitle);
    FiredTipsExactly(m, AddDescription);
    FiredTipsExactly(m, AddFavicon);
    FiredTipsExactly(m, AddH1);
  }

  function MapFiredUpTo<U>(m: TestMetadata, k: nat, f: TestTip -> U): seq<U>
    requires k <= RuleCount
  {
    if k == 0 then [] else MapFiredUpTo(m, k - 1, f) + When(Fires(m, TipAt(k - 1)), f(TipAt(k - 1)))
  }

  lemma {:induction false} MapFiredUpToIsMap<U>(m: TestMetadata, k: nat, f: TestTip -> U)
    requires k <= RuleCount
    ensures MapFiredUpTo(m, k, f) == Map(FiredUpTo(m, k), f)
  {
    if k > 0 {
      MapFiredUpToIsMap(m, k - 1, f);
      MapWhen(FiredUpTo(m, k - 1), Fires(m, TipAt(k - 1)), TipAt(k - 1), f);
    }
  }

  /** The mapped list of applying tips, written out rule by rule. The
      body states each prefix once so that the solver does not unfold the
      whole definition at every step; it is there to keep the proof cheap. */
  lemma MapFiredUnrolled<U>(m: TestMetadata, f: TestTip -> U)
    ensures MapFiredUpTo(m, RuleCount, f) == When(Fires(m, AddTitle), f(AddTitle)) + When(Fires(m, AddDescription), f(AddDescription)) + When(Fires(m, AddFavicon), f(AddFavicon)) + When(Fires(m, AddH1), f(AddH1)) + When(Fires(m, MoreContent), f(MoreContent)) + When(Fires(m, AddImages), f(AddImages))
  {
    assert MapFiredUpTo(m, 1, f) == When(Fires(m, AddTitle), f(AddTitle));
    assert MapFiredUpTo(m, 2, f) == When(Fires(m, AddTitle), f(AddTitle)) + When(Fires(m, AddDescription), f(AddDescription));
    assert MapFiredUpTo(m, 3, f) == When(Fires(m, AddTitle), f(AddTitle)) + When(Fires(m, AddDescription), f(AddDescription)) + When(Fires(m, AddFavicon), f(AddFavicon));
    assert MapFiredUpTo(m, 4, f) == When(Fires(m, AddTitle), f(AddTitle)) + When(Fires(m, AddDescription), f(AddDescription)) + When(Fires(m, AddFavicon), f(AddFavicon)) + When(Fires(m, AddH1), f(AddH1));
    assert MapFiredUpTo(m, 5, f) == When(Fires(m, AddTitle), f(AddTitle)) + When(Fires(m, AddDescription), f(AddDescription)) + When(Fires(m, AddFavicon), f(AddFavicon)) + When(Fires(m, AddH1), f(AddH1)) + When(Fires(m, MoreContent), f(MoreContent));
    assert MapFiredUpTo(m, 6, f) == When(Fires(m, AddTitle), f(AddTitle)) + When(Fires(m, AddDescription), f(AddDescription)) + When(Fires(m, AddFavicon), f(AddFavicon)) + When(Fires(m, AddH1), f(AddH1)) + When(Fires(m, MoreContent), f(MoreContent)) + When(Fires(m, AddImages), f(AddImages));
  }

  /** The six conditional pushes, in the order written. */
  method BasicRecommendations(m: TestMetadata) returns (recs: seq<string>)
    ensures recs == Recommendations(m)
  {
    recs := When(Fires(m, AddTitle), Message(AddTitle));
    recs := recs + When(Fires(m, AddDescription), Message(AddDescription));
    recs := recs + When(Fires(m, AddFavicon), Message(AddFavicon));
    recs := recs + When(Fires(m, AddH1), Message(AddH1));
    recs := recs + When(Fires(m, MoreContent), Message(MoreContent));
    recs := recs + When(Fires(m, AddImages), Message(AddImages));
    MapFiredUpToIsMap(m, RuleCount, Message);
    MapFiredUnrolled(m, Message);
  }

  // ---------------------------------------------------------------------
  // the route

  const UrlRequired := "URL parameter is required"
  const UnknownError := "Unknown error occurred"

  /** The analysis of a fetched page. */
  function AnalysisOf(p: TestPage): (a: TestAnalysis)
    ensures a.metadata == MetadataOf(p) && a.scores == ScoresOf(a.metadata)
    ensures a.recommendations == Recommendations(a.metadata)
  {
    var m := MetadataOf(p);
    TestAnalysis(ScoresOf(m), Recommendations(m), m)
  }

  /** The answer to a request: a missing or empty `url` is a 400 before
      anything is fetched; a failed fetch is a 500 carrying the error's
      message; otherwise the page's analysis. */
  function ResponseOf(url: Option<string>, outcome: FetchOutcome): (r: Response)
    ensures r.status == 400 <==> url.None? || url.value == ""
    ensures r.status == 400 ==> r.body == RequiredError(UrlRequired)
    ensures r.status == 500 <==> url.Some? && url.value != "" && outcome.FetchFailed?
    ensures r.status == 500 ==> r.body.FetchError? && (outcome.message.Some? ==> r.body.error == outcome.message.value)
    ensures r.status == 500 && outcome.message.None? ==> r.body.error == UnknownError
    ensures r.status == 200 <==> url.Some? && url.value != "" && outcome.Fetched?
    ensures r.status == 200 ==> r.body == Analysis(url.value, AnalysisOf(outcome.page))
  {
    if url.None? || url.value == "" then Response(400, RequiredError(UrlRequired))
    else match outcome
      case FetchFailed(message) =>
        Response(500, FetchError(if message.Some? then message.value else UnknownError))
      case Fetched(p) => Response(200, Analysis(url.value, AnalysisOf(p)))
  }

  /** A request without a `url` is answered the same whatever the fetch
      would have given. */
  lemma MissingUrlFetchesNothing(url: Option<string>, a: FetchOutcome, b: FetchOutcome)
    requires url.None? || url.value == ""
    ensures ResponseOf(url, a) == ResponseOf(url, b)
  {
  }

  /** The GET handler. */
  method Get(url: Option<string>, outcome: FetchOutcome) returns (r: Response)
    ensures r == ResponseOf(url, outcome)
  {
    if url.None? || url.value == "" {
      return Response(400, RequiredError(UrlRequired));
    }
    match outcome
    case FetchFailed(message) =>
      var error := if message.Some? then message.value else UnknownError;
      r := Response(500, FetchError(error));
    case Fetched(p) =>
      var m := MetadataOf(p);
      var scores := ScoresOf(m);
      var recs := BasicRecommendations(m);
      r := Response(200, Analysis(url.value, TestAnalysis(scores, recs, m)));
  }
}
