/** The static-markup analyzer (src/lib/seo-analyzer.ts). Fetching the
    page and querying it with selectors are outside the model: what the
    selectors find is an input record, `StaticPage`. The model keeps the
    heading-structure flag, the four score tables, the averaged `seo`
    score, the recommendation list cut to its first ten entries, and the
    error messages. */
module StaticAnalyzer {
  import opened Wrappers
  import opened Text
  import opened Seqs
  import opened Rounding
  import ClientAnalyzer

  // ---------------------------------------------------------------------
  // what the selectors find

  datatype FieldTag = InputTag | SelectTag | TextareaTag

  /** One `input`, `select` or `textarea` element: its `type` and `id`
      attributes, None when absent. */
  datatype FormField = FormField(tag: FieldTag, fieldType: Option<string>, id: Option<string>)

  /** The facts the `$(...)` queries read from one fetched page. */
  datatype StaticPage = StaticPage(
    titleText: string,           // `$('title').text()`
    description: string,         // the description's `content`, '' when absent
    hasFavicon: bool,
    hasCanonical: bool,
    alts: seq<Option<string>>,   // the `alt` of every `img`, None without one
    bodyText: string,            // `$('body').text()`
    h1Count: nat,
    h2Count: nat,
    h3Count: nat,
    hasMetaViewport: bool,
    hasMetaCharset: bool,
    hasMetaRobots: bool,
    html: string,                // the response body
    fields: seq<FormField>,      // every `input, select, textarea`
    labelFors: set<string>,      // the `for` of every `label`
    hasMain: bool,
    hasNav: bool,
    hasHeader: bool,
    hasFooter: bool,
    hasLang: bool)

  /** What fetching the page gives: the page, an HTTP error response, or
      another failure (no response at all). */
  datatype FetchOutcome = Fetched(page: StaticPage) | HttpError(status: nat, message: string) | NoResponse(message: string)

  datatype StaticScores = StaticScores(performance: int, accessibility: int, seo: int, bestPractices: int)

  datatype StaticMetadata = StaticMetadata(
    title: string, description: string, hasFavicon: bool, hasCanonical: bool,
    imageCount: nat, wordCount: nat, hasH1: bool, hasH2: bool, headingsStructure: bool)

  datatype StaticResult = StaticResult(scores: StaticScores, recommendations: seq<string>, metadata: StaticMetadata)

  // ---------------------------------------------------------------------
  // words and headings

  /** `text.trim().split(/\s+/).length`: the number of words, but at least
      one, since a blank text still splits into one empty piece. */
  function WordCount(text: string): (n: nat)
    ensures n >= 1
    ensures n == if RunCount(text, IsSpace) == 0 then 1 else RunCount(text, IsSpace)
  {
    TrimSplitLength(text);
    |SplitRuns(Trim(text))|
  }

  /** Headings skip no level: `h2` or `h3` only under an `h1`, `h3` only
      under an `h2`. */
  predicate HeadingsNested(h1Count: nat, h2Count: nat, h3Count: nat) {
    (h2Count > 0 ==> h1Count > 0) && (h3Count > 0 ==> h1Count > 0 && h2Count > 0)
  }

  /** The `headingsStructure` flag, cleared by either of two checks. */
  method HeadingsStructure(h1Count: nat, h2Count: nat, h3Count: nat) returns (headingsStructure: bool)
    ensures headingsStructure == HeadingsNested(h1Count, h2Count, h3Count)
  {
    headingsStructure := true;
    if h1Count == 0 && (h2Count > 0 || h3Count > 0) {
      headingsStructure := false;
    }
    if h2Count == 0 && h3Count > 0 {
      headingsStructure := false;
    }
  }

  // ---------------------------------------------------------------------
  // metadata score

  /** No `|`, `-` or `:` in the title. */
  predicate PlainTitle(title: string) {
    !Contains(title, "|") && !Contains(title, "-") && !Contains(title, ":")
  }

  /** The title items: 10 for a title, 10 for 10 to 60 characters, 5 for
      a title without separators, 5 for fewer than 10 characters. The last
      two also reward the empty title, which earns 10. */
  function TitlePoints(title: string): (points: int)
    ensures 10 <= points <= 25
    ensures title == "" ==> points == 10
    ensures points == 25 <==> 10 <= |title| <= 60 && PlainTitle(title)
  {
    assert title == "" ==> PlainTitle(title);
    (if title != "" then 10 else 0)
    + (if 10 <= |title| <= 60 then 10 else 0)
    + (if PlainTitle(title) then 5 else 0)
    + (if |title| < 10 then 5 else 0)
  }

  /** The description items: 10 for a description, then 15 for 50 to 160
      characters or 5 for fewer than 50. */
  function DescriptionPoints(description: string): (points: int)
    ensures points in {0, 10, 15, 25}
    ensures points == 0 <==> description == ""
    ensures points == 25 <==> 50 <= |description| <= 160
  {
    (if description != "" then 10 else 0)
    + (if 50 <= |description| <= 160 then 15 else 0)
    + (if 0 < |description| < 50 then 5 else 0)
  }

  /** `calculateMetadataScore`: title and description items, 10 for a
      favicon, 10 for a canonical link and a fixed 20, clamped to 100. The
      total lies in [30, 90], so the clamp never bites. */
  function MetadataPoints(title: string, description: string, hasFavicon: bool, hasCanonical: bool): (points: int)
    ensures 30 <= points <= 90
    ensures points == 90 <==>
      10 <= |title| <= 60 && PlainTitle(title) && 50 <= |description| <= 160 && hasFavicon && hasCanonical
  {
    Min(100, TitlePoints(title) + DescriptionPoints(description)
      + (if hasFavicon then 10 else 0) + (if hasCanonical then 10 else 0) + 20)
  }

  method MetadataScore(title: string, description: string, hasFavicon: bool, hasCanonical: bool) returns (score: int)
    ensures score == MetadataPoints(title, description, hasFavicon, hasCanonical)
  {
    score := 0;
    if title != "" { score := score + 10; }
    if |title| >= 10 && |title| <= 60 { score := score + 10; }
    if !Contains(title, "|") && !Contains(title, "-") && !Contains(title, ":") { score := score + 5; }
    if |title| < 10 { score := score + 5; }
    if description != "" { score := score + 10; }
    if |description| >= 50 && |description| <= 160 { score := score + 15; }
    if |description| > 0 && |description| < 50 { score := score + 5; }
    if hasFavicon { score := score + 10; }
    if hasCanonical { score := score + 10; }
    score := score + 20;
    score := Min(100, score);
  }

  function Min(a: int, b: int): int {
    if a <= b then a else b
  }

  // ---------------------------------------------------------------------
  // content score

  /** Between 75 and 300 words per image, for a page with images
      (`wordCount / imageCount` compared as a ratio). */
  predicate WordsPerImageInRange(wordCount: nat, imageCount: nat) {
    imageCount > 0 && 75 * imageCount <= wordCount <= 300 * imageCount
  }

  /** `calculateContentScore`: 15 for an `h1`, 10 for an `h2`, 15 for the
      structure flag, 15 for 300 words and 15 more for 600, 10 for images,
      10 for a word-per-image ratio in range, and a fixed 10. Between 10
      and 100, and 100 exactly when every item is met. */
  function ContentPoints(hasH1: bool, hasH2: bool, headingsStructure: bool, wordCount: nat, imageCount: nat): (points: int)
    ensures 10 <= points <= 100
    ensures points == 100 <==>
      hasH1 && hasH2 && headingsStructure && wordCount >= 600 && WordsPerImageInRange(wordCount, imageCount)
  {
    Min(100,
      (if hasH1 then 15 else 0) + (if hasH2 then 10 else 0) + (if headingsStructure then 15 else 0)
      + (if wordCount >= 300 then 15 else 0) + (if wordCount >= 600 then 15 else 0)
      + (if imageCount > 0 then 10 else 0)
      + (if WordsPerImageInRange(wordCount, imageCount) then 10 else 0)
      + 10)
  }

  method ContentScore(hasH1: bool, hasH2: bool, headingsStructure: bool, wordCount: nat, imageCount: nat) returns (score: int)
    ensures score == ContentPoints(hasH1, hasH2, headingsStructure, wordCount, imageCount)
  {
    score := 0;
    if hasH1 { score := score + 15; }
    if hasH2 { score := score + 10; }
    if headingsStructure { score := score + 15; }
    if wordCount >= 300 { score := score + 15; }
    if wordCount >= 600 { score := score + 15; }
    if imageCount > 0 { score := score + 10; }
    if imageCount > 0 && wordCount <= 300 * imageCount && wordCount >= 75 * imageCount { score := score + 10; }
    score := score + 10;
    score := Min(100, score);
  }

  // ---------------------------------------------------------------------
  // technical score

  /** The page-size band: `html.length / 1024` below 100, 200, 300 or 400
      kilobytes earns 20, 15, 10 or 5. */
  function PageSizePoints(length: nat): (points: int)
    ensures points in {0, 5, 10, 15, 20}
    ensures points == 20 <==> length < 102400
    ensures points == 0 <==> length >= 409600
  {
    if length < 102400 then 20
    else if length < 204800 then 15
    else if length < 307200 then 10
    else if length < 409600 then 5
    else 0
  }

  predicate HasStructuredData(html: string) {
    Contains(html, "application/ld+json") || Contains(html, "itemscope") || Contains(html, "itemtype")
  }

  /** The mobile item needs both the viewport tag and the text
      `width=device-width` somewhere in the page. */
  predicate MobileFriendly(hasMetaViewport: bool, html: string) {
    hasMetaViewport && Contains(html, "width=device-width")
  }

  /** `calculateTechnicalScore`: 10 for each of the viewport, charset and
      robots tags, the page-size band, 20 for structured data, 10 for the
      mobile item and a fixed 20. Between 20 and 100. */
  function TechnicalPoints(hasMetaViewport: bool, hasMetaCharset: bool, hasMetaRobots: bool, html: string): (points: int)
    ensures 20 <= points <= 100
    ensures points == 100 <==>
      hasMetaCharset && hasMetaRobots && |html| < 102400 && HasStructuredData(html) && MobileFriendly(hasMetaViewport, html)
  {
    Min(100,
      (if hasMetaViewport then 10 else 0) + (if hasMetaCharset then 10 else 0) + (if hasMetaRobots then 10 else 0)
      + PageSizePoints(|html|)
      + (if HasStructuredData(html) then 20 else 0)
      + (if MobileFriendly(hasMetaViewport, html) then 10 else 0)
      + 20)
  }

  method TechnicalScore(hasMetaViewport: bool, hasMetaCharset: bool, hasMetaRobots: bool, html: string) returns (score: int)
    ensures score == TechnicalPoints(hasMetaViewport, hasMetaCharset, hasMetaRobots, html)
  {
    score := 0;
    if hasMetaViewport { score := score + 10; }
    if hasMetaCharset { score := score + 10; }
    if hasMetaRobots { score := score + 10; }
    var length := |html|;
    if length < 102400 {
      score := score + 20;
    } else if length < 204800 {
      score := score + 15;
    } else if length < 307200 {
      score := score + 10;
    } else if length < 409600 {
      score := score + 5;
    }
    if Contains(html, "application/ld+json") || Contains(html, "itemscope") || Contains(html, "itemtype") {
      score := score + 20;
    }
    if hasMetaViewport && Contains(html, "width=device-width") {
      score := score + 10;
    }
    score := score + 20;
    score := Min(100, score);
  }

  // ---------------------------------------------------------------------
  // accessibility score

  /** An image whose `alt` is present and not empty. */
  predicate AltGiven(alt: Option<string>) {
    alt.Some? && alt.value != ""
  }

  /** A form field the label check looks at: not a button-like `input`
      type. */
  predicate Labelable(field: FormField) {
    !(field.fieldType.Some? && field.fieldType.value in {"submit", "button", "reset", "hidden"})
  }

  /** A field with an `id` that some `label[for]` names. */
  predicate Labelled(labelFors: set<string>, field: FormField) {
    field.id.Some? && field.id.value != "" && field.id.value in labelFors
  }

  function LabelledIn(labelFors: set<string>): FormField -> bool {
    field => Labelable(field) && Labelled(labelFors, field)
  }

  /** `Math.round(k / n * 20)`, or the full 20 when there is nothing to
      check. */
  function SharePoints(k: nat, n: nat): (points: int)
    ensures k <= n ==> 0 <= points <= 20
    ensures n == 0 || k == n ==> points == 20
    ensures n > 0 && k == 0 ==> points == 0
  {
    if n > 0 then
      RoundShareOfTwenty(if k <= n then k else n, n);
      Round(20 * k, n)
    else 20
  }

  /** `calculateAccessibilityScore`: the alt-text share and the label share
      of 20 points each, a fixed 15 for contrast, 5 for each of the main,
      navigation, header and footer landmarks, a fixed 10, and 10 for a
      `lang` attribute. Between 25 and 95. */
  function AccessibilityPoints(p: StaticPage): (points: int)
    ensures 25 <= points <= 95
  {
    var fields := Filter(p.fields, Labelable);
    var labelled := Count(p.fields, LabelledIn(p.labelFors));
    assert labelled <= |fields| by {
      LabelledAreLabelable(p.fields, p.labelFors);
    }
    Min(100,
      SharePoints(Count(p.alts, AltGiven), |p.alts|)
      + SharePoints(labelled, |fields|)
      + 15
      + (if p.hasMain then 5 else 0) + (if p.hasNav then 5 else 0)
      + (if p.hasHeader then 5 else 0) + (if p.hasFooter then 5 else 0)
      + 10
      + (if p.hasLang then 10 else 0))
  }

  /** Every labelled field counted is among the labelable ones. */
  lemma {:induction false} LabelledAreLabelable(fields: seq<FormField>, labelFors: set<string>)
    ensures Count(fields, LabelledIn(labelFors)) <= |Filter(fields, Labelable)|
    decreases |fields|
  {
    if fields != [] {
      LabelledAreLabelable(fields[1..], labelFors);
    }
  }

  /** The two `each` walks and the additions of
      `calculateAccessibilityScore`. */
  method AccessibilityScore(p: StaticPage) returns (score: int)
    ensures score == AccessibilityPoints(p)
  {
    score := 0;
    var imagesWithAlt := 0;
    var i := 0;
    while i < |p.alts|
      invariant 0 <= i <= |p.alts|
      invariant imagesWithAlt == Count(p.alts[..i], AltGiven)
    {
      CountStep(p.alts, i, AltGiven);
      if p.alts[i].Some? && p.alts[i].value != "" {
        imagesWithAlt := imagesWithAlt + 1;
      }
      i := i + 1;
    }
    assert p.alts[..i] == p.alts;
    score := score + SharePoints(imagesWithAlt, |p.alts|);

    var formFields := 0;
    var fieldsWithLabels := 0;
    var j := 0;
    while j < |p.fields|
      invariant 0 <= j <= |p.fields|
      invariant formFields == Count(p.fields[..j], Labelable)
      invariant fieldsWithLabels == Count(p.fields[..j], LabelledIn(p.labelFors))
    {
      CountStep(p.fields, j, Labelable);
      CountStep(p.fields, j, LabelledIn(p.labelFors));
      var field := p.fields[j];
      if Labelable(field) {
        formFields := formFields + 1;
        if field.id.Some? && field.id.value != "" && field.id.value in p.labelFors {
          fieldsWithLabels := fieldsWithLabels + 1;
        }
      }
      j := j + 1;
    }
    assert p.fields[..j] == p.fields;
    score := score + SharePoints(fieldsWithLabels, formFields);

    score := score + 15;
    if p.hasMain { score := score + 5; }
    if p.hasNav { score := score + 5; }
    if p.hasHeader { score := score + 5; }
    if p.hasFooter { score := score + 5; }
    score := score + 10;
    if p.hasLang { score := score + 10; }
    score := Min(100, score);
  }

  // ---------------------------------------------------------------------
  // recommendations

  /** What `generateRecommendations` looks at: the analysed facts and the
      two counts it queries itself. */
  datatype Findings = Findings(
    title: string, description: string, hasFavicon: bool, hasCanonical: bool,
    hasH1: bool, hasH2: bool, headingsStructure: bool, imageCount: nat, wordCount: nat,
    hasMetaViewport: bool, hasMetaCharset: bool,
    missingAltCount: nat,        // `img:not([alt])`
    unlabelledInputCount: nat,   // labelable `input`s without a matching label
    hasMain: bool, hasLang: bool)

  /** The recommendation rules, in the order they are written; the three
      title tips and the three description tips are `if`/`else if`
      chains. */
  datatype StaticTip =
    | AddTitle | TitleTooShort | TitleTooLong | AddDescription | DescriptionTooShort
    | DescriptionTooLong | AddFavicon | AddCanonical | AddH1 | AddH2
    | FixHeadings | MoreWords | AddImages | AddAltText | AddViewport
    | AddCharset | AddLabels | AddMainLandmark | AddLang

  const RuleCount := 19

  function RuleIndex(t: StaticTip): int {
    match t
    case AddTitle => 0
    case TitleTooShort => 1
    case TitleTooLong => 2
    case AddDescription => 3
    case DescriptionTooShort => 4
    case DescriptionTooLong => 5
    case AddFavicon => 6
    case AddCanonical => 7
    case AddH1 => 8
    case AddH2 => 9
    case FixHeadings => 10
    case MoreWords => 11
    case AddImages => 12
    case AddAltText => 13
    case AddViewport => 14
    case AddCharset => 15
    case AddLabels => 16
    case AddMainLandmark => 17
    case AddLang => 18
  }

  /** The rule written at position `i`. */
  function TipAt(i: nat): StaticTip
    requires i < RuleCount
  {
    match i
    case 0 => AddTitle
    case 1 => TitleTooShort
    case 2 => TitleTooLong
    case 3 => AddDescription
    case 4 => DescriptionTooShort
    case 5 => DescriptionTooLong
    case 6 => AddFavicon
    case 7 => AddCanonical
    case 8 => AddH1
    case 9 => AddH2
    case 10 => FixHeadings
    case 11 => MoreWords
    case 12 => AddImages
    case 13 => AddAltText
    case 14 => AddViewport
    case 15 => AddCharset
    case 16 => AddLabels
    case 17 => AddMainLandmark
    case _ => AddLang
  }

  lemma TipAtIndex(i: nat)
    requires i < RuleCount
    ensures RuleIndex(TipAt(i)) == i
  {
  }

  lemma IndexTipAt(t: StaticTip)
    ensures 0 <= RuleIndex(t) < RuleCount && TipAt(RuleIndex(t)) == t
  {
  }

  /** When each rule applies. In the title and description chains a later
      branch applies only when the earlier ones do not. */
  predicate Fires(f: Findings, t: StaticTip) {
    match t
    case AddTitle => f.title == ""
    case TitleTooShort => f.title != "" && |f.title| < 10
    case TitleTooLong => |f.title| > 60
    case AddDescription => f.description == ""
    case DescriptionTooShort => f.description != "" && |f.description| < 50
    case DescriptionTooLong => |f.description| > 160
    case AddFavicon => !f.hasFavicon
    case AddCanonical => !f.hasCanonical
    case AddH1 => !f.hasH1
    case AddH2 => !f.hasH2
    case FixHeadings => !f.headingsStructure
    case MoreWords => f.wordCount < 300
    case AddImages => f.imageCount == 0
    case AddAltText => f.missingAltCount > 0
    case AddViewport => !f.hasMetaViewport
    case AddCharset => !f.hasMetaCharset
    case AddLabels => f.unlabelledInputCount > 0
    case AddMainLandmark => !f.hasMain
    case AddLang => !f.hasLang
  }

  /** `noun`, with an `s` for a count above one. */
  function Plural(noun: string, count: nat): string {
    noun + (if count > 1 then "s" else "")
  }

  /** The noun stays singular exactly for a count of one (the rules that
      use it only fire on a positive count). */
  lemma PluralSingularIff(noun: string, count: nat)
    requires count >= 1
    ensures Plural(noun, count) == noun <==> count == 1
    ensures count > 1 ==> Plural(noun, count) == noun + "s"
  {
    if count > 1 {
      assert |Plural(noun, count)| == |noun| + 1;
    }
  }

  /** The text of each rule. */
  function Message(f: Findings, t: StaticTip): string {
    match t
    case AddTitle => "Add a title tag to your page"
    case TitleTooShort => "Your title is too short. Make it more descriptive"
    case TitleTooLong => "Your title is too long. Keep it under 60 characters for better SEO"
    case AddDescription => "Add a meta description to your page"
    case DescriptionTooShort => "Your meta description is too short. Aim for 50-160 characters"
    case DescriptionTooLong => "Your meta description is too long. Keep it under 160 characters"
    case AddFavicon => "Add a favicon to your website"
    case AddCanonical => "Add a canonical URL to prevent duplicate content issues"
    case AddH1 => "Add an H1 heading to your page"
    case AddH2 => "Add H2 headings to organize your content"
    case FixHeadings => "Fix your heading structure - don't skip heading levels"
    case MoreWords => "Add more content to your page. Aim for at least 300 words"
    case AddImages => "Add images to make your content more engaging"
    case AddAltText => "Add alt text to " + NatToString(f.missingAltCount) + Plural(" image", f.missingAltCount)
    case AddViewport => "Add a meta viewport tag for better mobile optimization"
    case AddCharset => "Add a meta charset tag to specify character encoding"
    case AddLabels => "Add proper labels to " + NatToString(f.unlabelledInputCount) + Plural(" form field", f.unlabelledInputCount)
    case AddMainLandmark => "Add a main landmark for better accessibility"
    case AddLang => "Add a lang attribute to your HTML tag"
  }

  function MessageOf(f: Findings): StaticTip -> string {
    t => Message(f, t)
  }

  /** The tips of the first `k` rules that apply, in rule order. */
  function FiredUpTo(f: Findings, k: nat): (tips: seq<StaticTip>)
    requires k <= RuleCount
    ensures |tips| <= k
  {
    if k == 0 then [] else FiredUpTo(f, k - 1) + When(Fires(f, TipAt(k - 1)), TipAt(k - 1))
  }

  /** The tips of all rules that apply, in rule order. */
  function FiredTips(f: Findings): seq<StaticTip> {
    FiredUpTo(f, RuleCount)
  }

  lemma {:induction false} FiredUpToMembership(f: Findings, k: nat, t: StaticTip)
    requires k <= RuleCount
    ensures t in FiredUpTo(f, k) <==> Fires(f, t) && RuleIndex(t) < k
  {
    if k > 0 {
      var last := TipAt(k - 1);
      FiredUpToMembership(f, k - 1, t);
      IndexTipAt(t);
      TipAtIndex(k - 1);
      assert FiredUpTo(f, k) == FiredUpTo(f, k - 1) + When(Fires(f, last), last);
      assert t == last <==> RuleIndex(t) == k - 1;
    }
  }

  lemma {:induction false} FiredUpToOrdered(f: Findings, k: nat)
    requires k <= RuleCount
    ensures IncreasingBy(FiredUpTo(f, k), RuleIndex)
    ensures AllBelow(FiredUpTo(f, k), k, RuleIndex)
  {
    if k > 0 {
      var prev := FiredUpTo(f, k - 1);
      var tips := FiredUpTo(f, k);
      FiredUpToOrdered(f, k - 1);
      TipAtIndex(k - 1);
      assert tips == prev + When(Fires(f, TipAt(k - 1)), TipAt(k - 1));
      forall i, j | 0 <= i < j < |tips| ensures RuleIndex(tips[i]) < RuleIndex(tips[j]) {
        if j >= |prev| {
          assert tips[j] == TipAt(k - 1) && tips[i] == prev[i];
        } else {
          assert tips[i] == prev[i] && tips[j] == prev[j];
        }
      }
      forall i | 0 <= i < |tips| ensures RuleIndex(tips[i]) < k {
        if i < |prev| {
          assert tips[i] == prev[i];
        }
      }
    }
  }

  /** A tip is listed exactly when its rule applies. */
  lemma FiredTipsExactly(f: Findings, t: StaticTip)
    ensures t in FiredTips(f) <==> Fires(f, t)
  {
    FiredUpToMembership(f, RuleCount, t);
    IndexTipAt(t);
  }

  /** The listed tips keep the order in which the rules are written, so
      each appears at most once. */
  lemma FiredTipsInRuleOrder(f: Findings)
    ensures IncreasingBy(FiredTips(f), RuleIndex)
  {
    FiredUpToOrdered(f, RuleCount);
  }

  /** A title or a description gets at most one tip each. */
  lemma OneTipPerChain(f: Findings)
    ensures AddTitle in FiredTips(f) ==> TitleTooShort !in FiredTips(f) && TitleTooLong !in FiredTips(f)
    ensures !(TitleTooShort in FiredTips(f) && TitleTooLong in FiredTips(f))
    ensures AddDescription in FiredTips(f) ==>
      DescriptionTooShort !in FiredTips(f) && DescriptionTooLong !in FiredTips(f)
    ensures !(DescriptionTooShort in FiredTips(f) && DescriptionTooLong in FiredTips(f))
  {
    FiredTipsExactly(f, AddTitle);
    FiredTipsExactly(f, TitleTooShort);
    FiredTipsExactly(f, TitleTooLong);
    FiredTipsExactly(f, AddDescription);
    FiredTipsExactly(f, DescriptionTooShort);
    FiredTipsExactly(f, DescriptionTooLong);
  }

  /** What the recommendation list is: the messages of the rules that
      apply, in rule order. */
  function Recommendations(f: Findings): (recs: seq<string>)
    ensures |recs| == |FiredTips(f)| <= RuleCount
    ensures forall i :: 0 <= i < |recs| ==> recs[i] == Message(f, FiredTips(f)[i])
  {
    Map(FiredTips(f), MessageOf(f))
  }

  /** The images under `g` of the first `k` applying tips, one rule at a
      time. */
  function MapFiredUpTo<U>(f: Findings, k: nat, g: StaticTip -> U): seq<U>
    requires k <= RuleCount
  {
    if k == 0 then [] else MapFiredUpTo(f, k - 1, g) + When(Fires(f, TipAt(k - 1)), g(TipAt(k - 1)))
  }

  lemma {:induction false} MapFiredUpToIsMap<U>(f: Findings, k: nat, g: StaticTip -> U)
    requires k <= RuleCount
    ensures MapFiredUpTo(f, k, g) == Map(FiredUpTo(f, k), g)
  {
    if k > 0 {
      MapFiredUpToIsMap(f, k - 1, g);
      MapWhen(FiredUpTo(f, k - 1), Fires(f, TipAt(k - 1)), TipAt(k - 1), g);
    }
  }

  /** The mapped list of applying tips, written out rule by rule. The
      body states each prefix once so that the solver does not unfold the
      whole definition at every step; it is there to keep the proof cheap. */
  lemma MapFiredUnrolled<U>(f: Findings, g: StaticTip -> U)
    ensures MapFiredUpTo(f, RuleCount, g) == When(Fires(f, AddTitle), g(AddTitle)) + When(Fires(f, TitleTooShort), g(TitleTooShort)) + When(Fires(f, TitleTooLong), g(TitleTooLong)) + When(Fires(f, AddDescription), g(AddDescription)) + When(Fires(f, DescriptionTooShort), g(DescriptionTooShort)) + When(Fires(f, DescriptionTooLong), g(DescriptionTooLong)) + When(Fires(f, AddFavicon), g(AddFavicon)) + When(Fires(f, AddCanonical), g(AddCanonical)) + When(Fires(f, AddH1), g(AddH1)) + When(Fires(f, AddH2), g(AddH2)) + When(Fires(f, FixHeadings), g(FixHeadings)) + When(Fires(f, MoreWords), g(MoreWords)) + When(Fires(f, AddImages), g(AddImages)) + When(Fires(f, AddAltText), g(AddAltText)) + When(Fires(f, AddViewport), g(AddViewport)) + When(Fires(f, AddCharset), g(AddCharset)) + When(Fires(f, AddLabels), g(AddLabels)) + When(Fires(f, AddMainLandmark), g(AddMainLandmark)) + When(Fires(f, AddLang), g(AddLang))
  {
    assert MapFiredUpTo(f, 1, g) == When(Fires(f, AddTitle), g(AddTitle));
    assert MapFiredUpTo(f, 2, g) == When(Fires(f, AddTitle), g(AddTitle)) + When(Fires(f, TitleTooShort), g(TitleTooShort));
    assert MapFiredUpTo(f, 3, g) == When(Fires(f, AddTitle), g(AddTitle)) + When(Fires(f, TitleTooShort), g(TitleTooShort)) + When(Fires(f, TitleTooLong), g(TitleTooLong));
    assert MapFiredUpTo(f, 4, g) == When(Fires(f, AddTitle), g(AddTitle)) + When(Fires(f, TitleTooShort), g(TitleTooShort)) + When(Fires(f, TitleTooLong), g(TitleTooLong)) + When(Fires(f, AddDescription), g(AddDescription));
    assert MapFiredUpTo(f, 5, g) == When(Fires(f, AddTitle), g(AddTitle)) + When(Fires(f, TitleTooShort), g(TitleTooShort)) + When(Fires(f, TitleTooLong), g(TitleTooLong)) + When(Fires(f, AddDescription), g(AddDescription)) + When(Fires(f, DescriptionTooShort), g(DescriptionTooShort));
    assert MapFiredUpTo(f, 6, g) == When(Fires(f, AddTitle), g(AddTitle)) + When(Fires(f, TitleTooShort), g(TitleTooShort)) + When(Fires(f, TitleTooLong), g(TitleTooLong)) + When(Fires(f, AddDescription), g(AddDescription)) + When(Fires(f, DescriptionTooShort), g(DescriptionTooShort)) + When(Fires(f, DescriptionTooLong), g(DescriptionTooLong));
    assert MapFiredUpTo(f, 7, g) == When(Fires(f, AddTitle), g(AddTitle)) + When(Fires(f, TitleTooShort), g(TitleTooShort)) + When(Fires(f, TitleTooLong), g(TitleTooLong)) + When(Fires(f, AddDescription), g(AddDescription)) + When(Fires(f, DescriptionTooShort), g(DescriptionTooShort)) + When(Fires(f, DescriptionTooLong), g(DescriptionTooLong)) + When(Fires(f, AddFavicon), g(AddFavicon));
    assert MapFiredUpTo(f, 8, g) == When(Fires(f, AddTitle), g(AddTitle)) + When(Fires(f, TitleTooShort), g(TitleTooShort)) + When(Fires(f, TitleTooLong), g(TitleTooLong)) + When(Fires(f, AddDescription), g(AddDescription)) + When(Fires(f, DescriptionTooShort), g(DescriptionTooShort)) + When(Fires(f, DescriptionTooLong), g(DescriptionTooLong)) + When(Fires(f, AddFavicon), g(AddFavicon)) + When(Fires(f, AddCanonical), g(AddCanonical));
    assert MapFiredUpTo(f, 9, g) == When(Fires(f, AddTitle), g(AddTitle)) + When(Fires(f, TitleTooShort), g(TitleTooShort)) + When(Fires(f, TitleTooLong), g(TitleTooLong)) + When(Fires(f, AddDescription), g(AddDescription)) + When(Fires(f, DescriptionTooShort), g(DescriptionTooShort)) + When(Fires(f, DescriptionTooLong), g(DescriptionTooLong)) + When(Fires(f, AddFavicon), g(AddFavicon)) + When(Fires(f, AddCanonical), g(AddCanonical)) + When(Fires(f, AddH1), g(AddH1));
    assert MapFiredUpTo(f, 10, g) == When(Fires(f, AddTitle), g(AddTitle)) + When(Fires(f, TitleTooShort), g(TitleTooShort)) + When(Fires(f, TitleTooLong), g(TitleTooLong)) + When(Fires(f, AddDescription), g(AddDescription)) + When(Fires(f, DescriptionTooShort), g(DescriptionTooShort)) + When(Fires(f, DescriptionTooLong), g(DescriptionTooLong)) + When(Fires(f, AddFavicon), g(AddFavicon)) + When(Fires(f, AddCanonical), g(AddCanonical)) + When(Fires(f, AddH1), g(AddH1)) + When(Fires(f, AddH2), g(AddH2));
    assert MapFiredUpTo(f, 11, g) == When(Fires(f, AddTitle), g(AddTitle)) + When(Fires(f, TitleTooShort), g(TitleTooShort)) + When(Fires(f, TitleTooLong), g(TitleTooLong)) + When(Fires(f, AddDescription), g(AddDescription)) + When(Fires(f, DescriptionTooShort), g(DescriptionTooShort)) + When(Fires(f, DescriptionTooLong), g(DescriptionTooLong)) + When(Fires(f, AddFavicon), g(AddFavicon)) + When(Fires(f, AddCanonical), g(AddCanonical)) + When(Fires(f, AddH1), g(AddH1)) + When(Fires(f, AddH2), g(AddH2)) + When(Fires(f, FixHeadings), g(FixHeadings));
    assert MapFiredUpTo(f, 12, g) == When(Fires(f, AddTitle), g(AddTitle)) + When(Fires(f, TitleTooShort), g(TitleTooShort)) + When(Fires(f, TitleTooLong), g(TitleTooLong)) + When(Fires(f, AddDescription), g(AddDescription)) + When(Fires(f, DescriptionTooShort), g(DescriptionTooShort)) + When(Fires(f, DescriptionTooLong), g(DescriptionTooLong)) + When(Fires(f, AddFavicon), g(AddFavicon)) + When(Fires(f, AddCanonical), g(AddCanonical)) + When(Fires(f, AddH1), g(AddH1)) + When(Fires(f, AddH2), g(AddH2)) + When(Fires(f, FixHeadings), g(FixHeadings)) + When(Fires(f, MoreWords), g(MoreWords));
    assert MapFiredUpTo(f, 13, g) == When(Fires(f, AddTitle), g(AddTitle)) + When(Fires(f, TitleTooShort), g(TitleTooShort)) + When(Fires(f, TitleTooLong), g(TitleTooLong)) + When(Fires(f, AddDescription), g(AddDescription)) + When(Fires(f, DescriptionTooShort), g(DescriptionTooShort)) + When(Fires(f, DescriptionTooLong), g(DescriptionTooLong)) + When(Fires(f, AddFavicon), g(AddFavicon)) + When(Fires(f, AddCanonical), g(AddCanonical)) + When(Fires(f, AddH1), g(AddH1)) + When(Fires(f, AddH2), g(AddH2)) + When(Fires(f, FixHeadings), g(FixHeadings)) + When(Fires(f, MoreWords), g(MoreWords)) + When(Fires(f, AddImages), g(AddImages));
    assert MapFiredUpTo(f, 14, g) == When(Fires(f, AddTitle), g(AddTitle)) + When(Fires(f, TitleTooShort), g(TitleTooShort)) + When(Fires(f, TitleTooLong), g(TitleTooLong)) + When(Fires(f, AddDescription), g(AddDescription)) + When(Fires(f, DescriptionTooShort), g(DescriptionTooShort)) + When(Fires(f, DescriptionTooLong), g(DescriptionTooLong)) + When(Fires(f, AddFavicon), g(AddFavicon)) + When(Fires(f, AddCanonical), g(AddCanonical)) + When(Fires(f, AddH1), g(AddH1)) + When(Fires(f, AddH2), g(AddH2)) + When(Fires(f, FixHeadings), g(FixHeadings)) + When(Fires(f, MoreWords), g(MoreWords)) + When(Fires(f, AddImages), g(AddImages)) + When(Fires(f, AddAltText), g(AddAltText));
    assert MapFiredUpTo(f, 15, g) == When(Fires(f, AddTitle), g(AddTitle)) + When(Fires(f, TitleTooShort), g(TitleTooShort)) + When(Fires(f, TitleTooLong), g(TitleTooLong)) + When(Fires(f, AddDescription), g(AddDescription)) + When(Fires(f, DescriptionTooShort), g(DescriptionTooShort)) + When(Fires(f, DescriptionTooLong), g(DescriptionTooLong)) + When(Fires(f, AddFavicon), g(AddFavicon)) + When(Fires(f, AddCanonical), g(AddCanonical)) + When(Fires(f, AddH1), g(AddH1)) + When(Fires(f, AddH2), g(AddH2)) + When(Fires(f, FixHeadings), g(FixHeadings)) + When(Fires(f, MoreWords), g(MoreWords)) + When(Fires(f, AddImages), g(AddImages)) + When(Fires(f, AddAltText), g(AddAltText)) + When(Fires(f, AddViewport), g(AddViewport));
    assert MapFiredUpTo(f, 16, g) == When(Fires(f, AddTitle), g(AddTitle)) + When(Fires(f, TitleTooShort), g(TitleTooShort)) + When(Fires(f, TitleTooLong), g(TitleTooLong)) + When(Fires(f, AddDescription), g(AddDescription)) + When(Fires(f, DescriptionTooShort), g(DescriptionTooShort)) + When(Fires(f, DescriptionTooLong), g(DescriptionTooLong)) + When(Fires(f, AddFavicon), g(AddFavicon)) + When(Fires(f, AddCanonical), g(AddCanonical)) + When(Fires(f, AddH1), g(AddH1)) + When(Fires(f, AddH2), g(AddH2)) + When(Fires(f, FixHeadings), g(FixHeadings)) + When(Fires(f, MoreWords), g(MoreWords)) + When(Fires(f, AddImages), g(AddImages)) + When(Fires(f, AddAltText), g(AddAltText)) + When(Fires(f, AddViewport), g(AddViewport)) + When(Fires(f, AddCharset), g(AddCharset));
    assert MapFiredUpTo(f, 17, g) == When(Fires(f, AddTitle), g(AddTitle)) + When(Fires(f, TitleTooShort), g(TitleTooShort)) + When(Fires(f, TitleTooLong), g(TitleTooLong)) + When(Fires(f, AddDescription), g(AddDescription)) + When(Fires(f, DescriptionTooShort), g(DescriptionTooShort)) + When(Fires(f, DescriptionTooLong), g(DescriptionTooLong)) + When(Fires(f, AddFavicon), g(AddFavicon)) + When(Fires(f, AddCanonical), g(AddCanonical)) + When(Fires(f, AddH1), g(AddH1)) + When(Fires(f, AddH2), g(AddH2)) + When(Fires(f, FixHeadings), g(FixHeadings)) + When(Fires(f, MoreWords), g(MoreWords)) + When(Fires(f, AddImages), g(AddImages)) + When(Fires(f, AddAltText), g(AddAltText)) + When(Fires(f, AddViewport), g(AddViewport)) + When(Fires(f, AddCharset), g(AddCharset)) + When(Fires(f, AddLabels), g(AddLabels));
    assert MapFiredUpTo(f, 18, g) == When(Fires(f, AddTitle), g(AddTitle)) + When(Fires(f, TitleTooShort), g(TitleTooShort)) + When(Fires(f, TitleTooLong), g(TitleTooLong)) + When(Fires(f, AddDescription), g(AddDescription)) + When(Fires(f, DescriptionTooShort), g(DescriptionTooShort)) + When(Fires(f, DescriptionTooLong), g(DescriptionTooLong)) + When(Fires(f, AddFavicon), g(AddFavicon)) + When(Fires(f, AddCanonical), g(AddCanonical)) + When(Fires(f, AddH1), g(AddH1)) + When(Fires(f, AddH2), g(AddH2)) + When(Fires(f, FixHeadings), g(FixHeadings)) + When(Fires(f, MoreWords), g(MoreWords)) + When(Fires(f, AddImages), g(AddImages)) + When(Fires(f, AddAltText), g(AddAltText)) + When(Fires(f, AddViewport), g(AddViewport)) + When(Fires(f, AddCharset), g(AddCharset)) + When(Fires(f, AddLabels), g(AddLabels)) + When(Fires(f, AddMainLandmark), g(AddMainLandmark));
  }

  /** `generateRecommendations`: one conditional `push` per rule, in the
      order written, each guarded by that rule's condition (`Fires`). */
  method GenerateRecommendations(f: Findings) returns (recs: seq<string>)
    ensures recs == Recommendations(f)
  {
    var message := MessageOf(f);
    recs := When(Fires(f, AddTitle), message(AddTitle));
    recs := recs + When(Fires(f, TitleTooShort), message(TitleTooShort));
    recs := recs + When(Fires(f, TitleTooLong), message(TitleTooLong));
    recs := recs + When(Fires(f, AddDescription), message(AddDescription));
    recs := recs + When(Fires(f, DescriptionTooShort), message(DescriptionTooShort));
    recs := recs + When(Fires(f, DescriptionTooLong), message(DescriptionTooLong));
    recs := recs + When(Fires(f, AddFavicon), message(AddFavicon));
    recs := recs + When(Fires(f, AddCanonical), message(AddCanonical));
    recs := recs + When(Fires(f, AddH1), message(AddH1));
    recs := recs + When(Fires(f, AddH2), message(AddH2));
    recs := recs + When(Fires(f, FixHeadings), message(FixHeadings));
    recs := recs + When(Fires(f, MoreWords), message(MoreWords));
    recs := recs + When(Fires(f, AddImages), message(AddImages));
    recs := recs + When(Fires(f, AddAltText), message(AddAltText));
    recs := recs + When(Fires(f, AddViewport), message(AddViewport));
    recs := recs + When(Fires(f, AddCharset), message(AddCharset));
    recs := recs + When(Fires(f, AddLabels), message(AddLabels));
    recs := recs + When(Fires(f, AddMainLandmark), message(AddMainLandmark));
    recs := recs + When(Fires(f, AddLang), message(AddLang));
    MapFiredUpToIsMap(f, RuleCount, message);
    MapFiredUnrolled(f, message);
  }

  /** The list `analyzeSeo` returns is the first ten recommendations, in
      rule order. */
  lemma TopTen(f: Findings)
    ensures |Take(Recommendations(f), 10)| == if |FiredTips(f)| < 10 then |FiredTips(f)| else 10
    ensures forall i :: 0 <= i < |Take(Recommendations(f), 10)| ==>
      Take(Recommendations(f), 10)[i] == Message(f, FiredTips(f)[i])
  {
  }

  // ---------------------------------------------------------------------
  // the whole analysis

  /** An `img` without an `alt` attribute (`img:not([alt])`); an empty
      `alt` does not count here. */
  predicate NoAltAttribute(alt: Option<string>) {
    alt.None?
  }

  /** A labelable `input` with no usable label; `select` and `textarea`
      are not looked at here. */
  function UnlabelledInput(labelFors: set<string>): FormField -> bool {
    (field: FormField) => field.tag == InputTag && Labelable(field) && !Labelled(labelFors, field)
  }

  /** What the analysis knows about a page when it builds the
      recommendations. */
  function FindingsOf(p: StaticPage): Findings {
    Findings(
      Trim(p.titleText), p.description, p.hasFavicon, p.hasCanonical,
      p.h1Count > 0, p.h2Count > 0, HeadingsNested(p.h1Count, p.h2Count, p.h3Count),
      |p.alts|, WordCount(p.bodyText),
      p.hasMetaViewport, p.hasMetaCharset,
      Count(p.alts, NoAltAttribute), Count(p.fields, UnlabelledInput(p.labelFors)),
      p.hasMain, p.hasLang)
  }

  /** The SEO score: the rounded mean of the metadata, content and
      technical scores, which lies in [20, 97] for scores in their ranges. */
  function SeoScore(metadataScore: int, contentScore: int, technicalScore: int): (score: int)
    requires 30 <= metadataScore <= 90 && 10 <= contentScore <= 100 && 20 <= technicalScore <= 100
    ensures 20 <= score <= 97
    ensures 6 * score - 3 <= 2 * (metadataScore + contentScore + technicalScore) < 6 * score + 3
  {
    Round(metadataScore + contentScore + technicalScore, 3)
  }

  /** The returned scores: `performance` is fixed at 80 and
      `bestPractices` is the technical score. */
  function PageScores(p: StaticPage): (s: StaticScores)
    ensures s.performance == 80
    ensures 25 <= s.accessibility <= 95
    ensures 20 <= s.bestPractices <= 100 && 20 <= s.seo <= 97
  {
    var title := Trim(p.titleText);
    var metadataScore := MetadataPoints(title, p.description, p.hasFavicon, p.hasCanonical);
    var contentScore := ContentPoints(p.h1Count > 0, p.h2Count > 0,
      HeadingsNested(p.h1Count, p.h2Count, p.h3Count), WordCount(p.bodyText), |p.alts|);
    var technicalScore := TechnicalPoints(p.hasMetaViewport, p.hasMetaCharset, p.hasMetaRobots, p.html);
    StaticScores(80, AccessibilityPoints(p), SeoScore(metadataScore, contentScore, technicalScore), technicalScore)
  }

  /** The result for a fetched page. */
  function Analysis(p: StaticPage): (r: StaticResult)
    ensures |r.recommendations| <= 10
    ensures r.recommendations == Take(Recommendations(FindingsOf(p)), 10)
    ensures r.metadata.wordCount >= 1 && r.metadata.imageCount == |p.alts|
  {
    var f := FindingsOf(p);
    StaticResult(
      PageScores(p),
      Take(Recommendations(f), 10),
      StaticMetadata(f.title, f.description, f.hasFavicon, f.hasCanonical,
        f.imageCount, f.wordCount, f.hasH1, f.hasH2, f.headingsStructure))
  }

  /** `analyzeSeo`: a URL that does not parse fails with "Invalid URL
      format: " and the URL; a fetch answered with an error status fails
      with that status and the error's message; any other fetch failure is
      passed on as it is; a fetched page is analysed. */
  method AnalyzeSeo(parser: ClientAnalyzer.UrlParser, url: string, outcome: FetchOutcome) returns (r: Result<StaticResult>)
    ensures parser(url, None).Failure? ==> r == Failure("Invalid URL format: " + url)
    ensures parser(url, None).Success? && outcome.HttpError? ==>
      r == Failure("Failed to fetch URL (" + NatToString(outcome.status) + "): " + outcome.message)
    ensures parser(url, None).Success? && outcome.NoResponse? ==> r == Failure(outcome.message)
    ensures parser(url, None).Success? && outcome.Fetched? ==> r == Success(Analysis(outcome.page))
  {
    if parser(url, None).Failure? {
      return Failure("Invalid URL format: " + url);
    }
    match outcome
    case HttpError(status, message) =>
      return Failure("Failed to fetch URL (" + NatToString(status) + "): " + message);
    case NoResponse(message) =>
      return Failure(message);
    case Fetched(p) =>
      var result := AnalyzePage(p);
      return Success(result);
  }

  /** The analysis of a fetched page. */
  method AnalyzePage(p: StaticPage) returns (result: StaticResult)
    ensures result == Analysis(p)
  {
    var scores := ScorePage(p);
    var findings := FindingsOf(p);
    var recommendations := GenerateRecommendations(findings);
    var metadata := StaticMetadata(findings.title, p.description, p.hasFavicon, p.hasCanonical,
      findings.imageCount, findings.wordCount, findings.hasH1, findings.hasH2, findings.headingsStructure);
    result := StaticResult(scores, Take(recommendations, 10), metadata);
  }

  /** The four scores of a fetched page. */
  method ScorePage(p: StaticPage) returns (scores: StaticScores)
    ensures scores == PageScores(p)
  {
    var title := Trim(p.titleText);
    var wordCount := WordCount(p.bodyText);
    var hasH1 := p.h1Count > 0;
    var hasH2 := p.h2Count > 0;
    var headingsStructure := HeadingsStructure(p.h1Count, p.h2Count, p.h3Count);
    var metadataScore := MetadataScore(title, p.description, p.hasFavicon, p.hasCanonical);
    var contentScore := ContentScore(hasH1, hasH2, headingsStructure, wordCount, |p.alts|);
    var technicalScore := TechnicalScore(p.hasMetaViewport, p.hasMetaCharset, p.hasMetaRobots, p.html);
    var accessibilityScore := AccessibilityScore(p);
    PageScoresOf(p);
    scores := StaticScores(80, accessibilityScore, SeoScore(metadataScore, contentScore, technicalScore), technicalScore);
  }

  /** `PageScores` spelled out field by field. */
  lemma PageScoresOf(p: StaticPage)
    ensures var technicalScore := TechnicalPoints(p.hasMetaViewport, p.hasMetaCharset, p.hasMetaRobots, p.html);
      PageScores(p) == StaticScores(80, AccessibilityPoints(p),
        SeoScore(MetadataPoints(Trim(p.titleText), p.description, p.hasFavicon, p.hasCanonical),
          ContentPoints(p.h1Count > 0, p.h2Count > 0, HeadingsNested(p.h1Count, p.h2Count, p.h3Count), WordCount(p.bodyText), |p.alts|),
          technicalScore),
        technicalScore)
  {
    var s := PageScores(p);
    assert s.performance == 80 && s.accessibility == AccessibilityPoints(p);
    assert s.bestPractices == TechnicalPoints(p.hasMetaViewport, p.hasMetaCharset, p.hasMetaRobots, p.html);
    assert s.seo == SeoScore(MetadataPoints(Trim(p.titleText), p.description, p.hasFavicon, p.hasCanonical),
      ContentPoints(p.h1Count > 0, p.h2Count > 0, HeadingsNested(p.h1Count, p.h2Count, p.h3Count), WordCount(p.bodyText), |p.alts|),
      s.bestPractices);
  }

}
