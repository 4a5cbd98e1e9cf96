/** `src/components/SeoResultsDisplay.tsx`: the colour bands, status
    labels and messages the results view chooses from the scores. */
module ResultsDisplay {
  import opened Wrappers
  import opened ReportTypes

  /** The five background colours of a score, best first. */
  datatype Color = Green500 | Green400 | Yellow400 | Orange400 | Red500

  function ColorClass(c: Color): string {
    match c
    case Green500 => "bg-green-500"
    case Green400 => "bg-green-400"
    case Yellow400 => "bg-yellow-400"
    case Orange400 => "bg-orange-400"
    case Red500 => "bg-red-500"
  }

  /** How good a colour says a score is: red 0 up to bright green 4. */
  function ColorRank(c: Color): (r: int)
    ensures 0 <= r <= 4
  {
    match c
    case Red500 => 0
    case Orange400 => 1
    case Yellow400 => 2
    case Green400 => 3
    case Green500 => 4
  }

  /** The colour bands: 90 and up, 70 and up, 50 and up, 30 and up, and
      everything below. */
  function ScoreColor(score: int): (c: Color)
    ensures c == Green500 <==> score >= 90
    ensures c == Green400 <==> 70 <= score < 90
    ensures c == Yellow400 <==> 50 <= score < 70
    ensures c == Orange400 <==> 30 <= score < 50
    ensures c == Red500 <==> score < 30
  {
    if score >= 90 then Green500
    else if score >= 70 then Green400
    else if score >= 50 then Yellow400
    else if score >= 30 then Orange400
    else Red500
  }

  /** A higher score never gets a worse colour. */
  lemma ScoreColorMonotone(a: int, b: int)
    requires a <= b
    ensures ColorRank(ScoreColor(a)) <= ColorRank(ScoreColor(b))
  {
  }

  /** Every colour but the brightest green is the colour of a band of
      twenty points, so the colours above red each need at least 30. */
  lemma ColorRankBounds(score: int)
    ensures ColorRank(ScoreColor(score)) > 0 ==> score >= 10 + 20 * ColorRank(ScoreColor(score))
    ensures score >= 10 + 20 * ColorRank(ScoreColor(score)) || score < 30
  {
  }

  datatype TextColor = White | Gray900

  function TextColorClass(t: TextColor): string {
    match t
    case White => "text-white"
    case Gray900 => "text-gray-900"
  }

  /** Text on the score circle is white from 50 up and dark below. */
  function ScoreTextColor(score: int): (t: TextColor)
    ensures t == White <==> score >= 50
  {
    if score >= 50 then White else Gray900
  }

  /** White text goes exactly with the yellow and green backgrounds. */
  lemma WhiteTextOnBrightColors(score: int)
    ensures ScoreTextColor(score) == White <==> ColorRank(ScoreColor(score)) >= 2
  {
  }

  datatype Status = Good | NeedsImprovement | Poor

  function StatusText(s: Status): string {
    match s
    case Good => "Good"
    case NeedsImprovement => "Needs Improvement"
    case Poor => "Poor"
  }

  /** The status line under a score card: good from 70, needs improvement
      from 50, poor below. */
  function StatusLabel(score: int): (s: Status)
    ensures s == Good <==> score >= 70
    ensures s == NeedsImprovement <==> 50 <= score < 70
    ensures s == Poor <==> score < 50
  {
    if score >= 70 then Good else if score >= 50 then NeedsImprovement else Poor
  }

  /** The status agrees with the colour: good is green, needs improvement
      is yellow, and poor is orange or red. */
  lemma StatusMatchesColor(score: int)
    ensures StatusLabel(score) == Good <==> ColorRank(ScoreColor(score)) >= 3
    ensures StatusLabel(score) == NeedsImprovement <==> ScoreColor(score) == Yellow400
    ensures StatusLabel(score) == Poor <==> ScoreTextColor(score) == Gray900
  {
  }

  /** The four kinds of score that have a description. */
  datatype ScoreKind = Seo | Performance | Accessibility | BestPractices

  function KindName(k: ScoreKind): string {
    match k
    case Seo => "seo"
    case Performance => "performance"
    case Accessibility => "accessibility"
    case BestPractices => "bestPractices"
  }

  function ParseKind(t: string): (k: Option<ScoreKind>)
    ensures k.Some? ==> KindName(k.value) == t
  {
    if t == "seo" then Some(Seo)
    else if t == "performance" then Some(Performance)
    else if t == "accessibility" then Some(Accessibility)
    else if t == "bestPractices" then Some(BestPractices)
    else None
  }

  lemma ParseKindName(k: ScoreKind)
    ensures ParseKind(KindName(k)) == Some(k)
  {
  }

  /** The sentence for a kind of score, for a good score or not. */
  function DescriptionText(k: ScoreKind, good: bool): (d: string)
    ensures d != ""
  {
    match k
    case Seo => if good then "Your SEO fundamentals are strong." else "Your SEO needs improvement."
    case Performance => if good then "Your site has good technical performance." else "Technical improvements needed."
    case Accessibility => if good then "Your site has good accessibility." else "Accessibility needs improvement."
    case BestPractices => if good then "Your site follows best practices." else "Consider implementing best practices."
  }

  /** `getScoreDescription`: a score of 70 or more gets its kind's good
      sentence and any lower score the other; an unknown kind gets ''. */
  function ScoreDescription(t: string, score: int): (d: string)
    ensures d == "" <==> ParseKind(t).None?
    ensures ParseKind(t).Some? ==> d == DescriptionText(ParseKind(t).value, score >= 70)
  {
    match ParseKind(t)
    case None => ""
    case Some(k) => DescriptionText(k, score >= 70)
  }

  /** Only the side of 70 matters: two scores on the same side get the
      same description. */
  lemma DescriptionThreshold(t: string, a: int, b: int)
    requires (a >= 70) == (b >= 70)
    ensures ScoreDescription(t, a) == ScoreDescription(t, b)
  {
  }

  /** The sentence of a good score and that of a poor one differ. */
  lemma DescriptionsDiffer(k: ScoreKind)
    ensures DescriptionText(k, true) != DescriptionText(k, false)
  {
    match k
    case Seo =>
      assert DescriptionText(k, true)[9] != DescriptionText(k, false)[9];
    case Performance =>
      assert DescriptionText(k, true)[0] != DescriptionText(k, false)[0];
    case Accessibility =>
      assert DescriptionText(k, true)[0] != DescriptionText(k, false)[0];
    case BestPractices =>
      assert DescriptionText(k, true)[0] != DescriptionText(k, false)[0];
  }

  /** A score card: its label, its score, and what is shown around it. */
  datatype ScoreCard = ScoreCard(
    heading: string, score: int, color: Color, textColor: TextColor,
    status: Status, description: string)

  function CardHeading(kind: ScoreKind): string {
    match kind
    case Seo => "SEO Score"
    case Performance => "Performance"
    case Accessibility => "Accessibility"
    case BestPractices => "Best Practices"
  }

  /** The card of one score: the score with its colour, status and
      description. The parts the card computes separately agree: the
      description is the good sentence exactly when the status is good,
      the text is white unless the status is poor, and a good status sits
      on a green background. */
  function Card(kind: ScoreKind, score: int): (c: ScoreCard)
    ensures c.heading == CardHeading(kind) && c.score == score
    ensures c.description == DescriptionText(kind, c.status == Good)
    ensures c.textColor == White <==> c.status != Poor
    ensures c.status == Good <==> c.color == Green500 || c.color == Green400
  {
    ParseKindName(kind);
    ScoreCard(CardHeading(kind), score, ScoreColor(score), ScoreTextColor(score), StatusLabel(score),
      ScoreDescription(KindName(kind), score))
  }

  /** The score breakdown: SEO, performance, accessibility and best
      practices, each card with its own score's colour, status and
      description. */
  function ScoreCards(scores: ReportScores): (cards: seq<ScoreCard>)
    ensures |cards| == 4
    ensures cards[0].score == scores.seo && cards[1].score == scores.performance
    ensures cards[2].score == scores.accessibility && cards[3].score == scores.bestPractices
  {
    [Card(Seo, scores.seo), Card(Performance, scores.performance),
     Card(Accessibility, scores.accessibility), Card(BestPractices, scores.bestPractices)]
  }

  datatype OverallMessage = Excellent | Decent | NeedsWork

  function OverallText(m: OverallMessage): string {
    match m
    case Excellent => "Excellent! Your site has strong SEO fundamentals."
    case Decent => "Good. Your site has decent SEO but could be improved."
    case NeedsWork => "Needs work. We recommend implementing the suggestions below."
  }

  /** The line under the overall score: thresholds 80 and 60. */
  function OverallMessageFor(overall: int): (m: OverallMessage)
    ensures m == Excellent <==> overall >= 80
    ensures m == Decent <==> 60 <= overall < 80
    ensures m == NeedsWork <==> overall < 60
  {
    if overall >= 80 then Excellent else if overall >= 60 then Decent else NeedsWork
  }

  /** The overall block is shown when the report has an overall score
      that is not 0: the test is JavaScript truthiness. */
  function ShowsOverall(overall: Option<int>): (shown: bool)
    ensures shown <==> overall.Some? && overall.value != 0
  {
    match overall
    case None => false
    case Some(v) => v != 0
  }

  /** An overall score of 0 is a score, but it is not shown. */
  lemma ZeroOverallIsHidden()
    ensures !ShowsOverall(Some(0))
    ensures forall v: int :: v != 0 ==> ShowsOverall(Some(v))
  {
  }

  datatype DepthMessage = Homepage | GoodDepth | DeepPage

  function DepthText(m: DepthMessage): string {
    match m
    case Homepage => "Homepage (optimal for domain authority)"
    case GoodDepth => "Good depth for important pages"
    case DeepPage => "Deep page - consider flatter structure"
  }

  /** The note under the path depth: 0 is the homepage, up to 2 is a good
      depth, anything deeper is a deep page. */
  function PathDepthMessage(depth: int): (m: DepthMessage)
    ensures m == Homepage <==> depth == 0
    ensures m == GoodDepth <==> depth != 0 && depth <= 2
    ensures m == DeepPage <==> depth > 2
  {
    if depth == 0 then Homepage else if depth <= 2 then GoodDepth else DeepPage
  }
}
