/** The rendered-page analyzer (src/lib/server-seo-analyzer.ts). The
    browser session is outside the model: what the page queries return is
    an input record, `PageFacts`, and which awaited call throws, if any,
    is part of the input too. The model keeps what the analyzer does
    with those facts: the URL facts, the heading-order walk, the link and
    image counts, the four point tables with their `Math.min(100, ...)`
    clamps, the weighted overall score, the recommendation list, and the
    partly filled record a throwing call leaves. */
module ServerAnalyzer {
  import opened Wrappers
  import opened Text
  import opened Seqs
  import opened Rounding
  import ClientAnalyzer

  // ---------------------------------------------------------------------
  // what the browser reports

  /** The level of an `h1`...`h6` element. */
  type HeadingLevel = l: int | 1 <= l <= 6 witness 1

  /** The results of the browser queries for one loaded page. */
  datatype PageFacts = PageFacts(
    loadTime: nat,              // milliseconds from launch to network idle
    statusCode: int,            // the main document's status, 0 when unseen
    title: string,              // `page.title()`
    description: string,        // the description's `content`, '' when absent
    canonical: Option<string>,  // the canonical link's `href`, None without the tag
    ogTagCount: nat,            // distinct `og:` properties with a content
    schemaCount: nat,           // JSON-LD script blocks
    headingLevels: seq<HeadingLevel>,  // every heading, in document order
    bodyText: string,           // `document.body.innerText`
    paragraphCount: nat,
    hrefs: seq<string>,         // the `href` of every `a[href]`
    alts: seq<Option<string>>,  // the `alt` of every `img`, None without one
    renders: bool,              // the body fits the mobile viewport
    hasViewportMeta: bool,
    hasGoodContrast: bool,
    loadSecondsText: string)    // `(loadTime / 1000).toFixed(2)`

  /** A browser session either reports the page and closes, or one of its
      calls throws: `at` names that call, `facts` holds what the queries
      before it returned (the rest of it is never read) and `message` is
      the error's message. */
  datatype PageOutcome =
    | Loaded(facts: PageFacts)
    | Crashed(at: CrashStage, facts: PageFacts, message: string)

  // ---------------------------------------------------------------------
  // the result record

  datatype ServerScores = ServerScores(
    performance: int, accessibility: int, seo: int, bestPractices: int, overall: int)

  datatype Metadata = Metadata(
    title: string, description: string, canonical: Option<string>, ogTagCount: nat, schemaCount: nat)

  datatype HeadingStructure = HeadingStructure(
    h1Count: nat, h2Count: nat, h3Count: nat, otherHeadingsCount: nat, hasProperHeadingOrder: bool)

  datatype LinkCount = LinkCount(internal: nat, external: nat)

  datatype ImageCount = ImageCount(count: nat, withAlt: nat, withoutAlt: nat)

  datatype Content = Content(
    headingStructure: HeadingStructure,
    wordCount: nat,
    paragraphCount: nat,
    linkCount: LinkCount,
    images: ImageCount)

  datatype Technical = Technical(
    httpsProtocol: bool,
    domainHasWww: bool,
    domainStructure: string,
    pathDepth: nat,
    hasQueryParams: bool,
    hasFragment: bool,
    loadTime: nat,
    renders: bool,
    responsive: bool,
    statusCode: int)

  datatype ServerResult = ServerResult(
    url: string,
    scores: ServerScores,
    metadata: Metadata,
    content: Content,
    technical: Technical,
    recommendations: seq<string>,
    errors: seq<string>)

  /** The result record as initialised, before any analysis. */
  function InitialResult(url: string): ServerResult {
    ServerResult(
      url,
      ServerScores(0, 0, 0, 0, 0),
      Metadata("", "", None, 0, 0),
      Content(HeadingStructure(0, 0, 0, 0, false), 0, 0, LinkCount(0, 0), ImageCount(0, 0, 0)),
      Technical(false, false, "", 0, false, false, 0, false, false, 0),
      [],
      [])
  }

  // ---------------------------------------------------------------------
  // headings

  /** Headings in proper order: none at all, or a first `h1` and no step
      down the outline that skips a level. Going back up by any number of
      levels is allowed. */
  predicate ProperOrder(levels: seq<HeadingLevel>) {
    levels == [] ||
    (levels[0] == 1 && forall i :: 1 <= i < |levels| ==> levels[i] as int <= levels[i - 1] as int + 1)
  }

  /** The heading-order walk: the flag falls when the first heading is not
      an `h1` or when a heading is more than one level below the one before
      it. */
  method HeadingOrder(levels: seq<HeadingLevel>) returns (hasProperOrder: bool)
    ensures hasProperOrder == ProperOrder(levels)
  {
    hasProperOrder := true;
    var previousLevel: int := 0;
    var i := 0;
    while i < |levels|
      invariant 0 <= i <= |levels|
      invariant previousLevel == (if i == 0 then 0 else levels[i - 1] as int)
      invariant hasProperOrder == ProperOrder(levels[..i])
    {
      var level: int := levels[i];
      if previousLevel == 0 {
        if level != 1 {
          hasProperOrder := false;
        }
      } else if level > previousLevel && level - previousLevel > 1 {
        hasProperOrder := false;
      }
      assert levels[..i + 1][..i] == levels[..i];
      previousLevel := level;
      i := i + 1;
    }
    assert levels[..i] == levels;
  }

  /** The number of headings of one level. */
  function LevelCount(levels: seq<HeadingLevel>, n: HeadingLevel): nat {
    multiset(levels)[n]
  }

  /** `headingStructure`: the per-level counts, `h4` to `h6` together, and
      the order flag. */
  function HeadingStructureOf(levels: seq<HeadingLevel>): (h: HeadingStructure)
    ensures h.h1Count + h.h2Count + h.h3Count + h.otherHeadingsCount == |levels|
    ensures h.hasProperHeadingOrder && levels != [] ==> h.h1Count > 0
  {
    LevelsAddUp(levels);
    HeadingStructure(
      LevelCount(levels, 1), LevelCount(levels, 2), LevelCount(levels, 3),
      LevelCount(levels, 4) + LevelCount(levels, 5) + LevelCount(levels, 6),
      ProperOrder(levels))
  }

  lemma {:induction false} LevelsAddUp(levels: seq<HeadingLevel>)
    ensures LevelCount(levels, 1) + LevelCount(levels, 2) + LevelCount(levels, 3)
          + LevelCount(levels, 4) + LevelCount(levels, 5) + LevelCount(levels, 6) == |levels|
    ensures levels != [] && levels[0] == 1 ==> LevelCount(levels, 1) > 0
  {
    if levels != [] {
      var last := |levels| - 1;
      var init := levels[..last];
      var x := levels[last];
      LevelsAddUp(init);
      assert levels == init + [x];
      assert multiset(levels) == multiset(init) + multiset{x};
      OneLevelCounted(x);
      assert levels[0] in multiset(levels);
    }
  }

  /** A single heading counts once, at its own level. */
  lemma OneLevelCounted(x: HeadingLevel)
    ensures multiset{x}[1] + multiset{x}[2] + multiset{x}[3]
      + multiset{x}[4] + multiset{x}[5] + multiset{x}[6] == 1
  {
    if x == 1 {
    } else if x == 2 {
    } else if x == 3 {
    } else if x == 4 {
    } else if x == 5 {
    } else {
    }
  }

  // ---------------------------------------------------------------------
  // links

  datatype LinkKind = Skipped | Internal | External

  /** How the link walk treats one `href`: empty, `javascript:` and bare
      `#` links are skipped; an `href` starting with `http` is parsed on its
      own, any other against the page URL; one that does not parse is
      skipped; the rest are internal exactly when their hostname is the
      page's. */
  function KindOf(parser: ClientAnalyzer.UrlParser, pageUrl: string, pageHost: string, href: string): LinkKind {
    if href == "" || StartsWith(href, "javascript:") || href == "#" then Skipped
    else
      var url := if StartsWith(href, "http") then parser(href, None) else parser(href, Some(pageUrl));
      if url.Failure? then Skipped
      else if url.value.hostname == pageHost then Internal
      else External
  }

  function IsKind(parser: ClientAnalyzer.UrlParser, pageUrl: string, pageHost: string, kind: LinkKind): string -> bool {
    href => KindOf(parser, pageUrl, pageHost, href) == kind
  }

  /** The link counts of a page. */
  function LinkCountOf(parser: ClientAnalyzer.UrlParser, pageUrl: string, pageHost: string, hrefs: seq<string>): (c: LinkCount)
    ensures c.internal + c.external <= |hrefs|
  {
    CountDisjoint(hrefs, IsKind(parser, pageUrl, pageHost, Internal), IsKind(parser, pageUrl, pageHost, External));
    LinkCount(
      Count(hrefs, IsKind(parser, pageUrl, pageHost, Internal)),
      Count(hrefs, IsKind(parser, pageUrl, pageHost, External)))
  }

  /** One more anchor adds one to the count of its own kind. */
  lemma LinkStep(parser: ClientAnalyzer.UrlParser, pageUrl: string, pageHost: string, hrefs: seq<string>, i: nat, kind: LinkKind)
    requires i < |hrefs|
    ensures Count(hrefs[..i + 1], IsKind(parser, pageUrl, pageHost, kind))
      == Count(hrefs[..i], IsKind(parser, pageUrl, pageHost, kind))
        + (if KindOf(parser, pageUrl, pageHost, hrefs[i]) == kind then 1 else 0)
  {
    CountStep(hrefs, i, IsKind(parser, pageUrl, pageHost, kind));
  }

  /** The body of the link walk for one `href`: skip it, or parse it and
      compare its hostname with the page's. */
  method ClassifyLink(parser: ClientAnalyzer.UrlParser, pageUrl: string, currentHostname: string, href: string)
    returns (kind: LinkKind)
    ensures kind == KindOf(parser, pageUrl, currentHostname, href)
  {
    if href == "" || StartsWith(href, "javascript:") || href == "#" {
      return Skipped;
    }
    var url := if StartsWith(href, "http") then parser(href, None) else parser(href, Some(pageUrl));
    if url.Failure? {
      return Skipped;
    }
    if url.value.hostname == currentHostname {
      kind := Internal;
    } else {
      kind := External;
    }
  }

  /** The link walk over every anchor with an `href`. */
  method CountLinks(parser: ClientAnalyzer.UrlParser, pageUrl: string, hrefs: seq<string>) returns (c: LinkCount)
    requires parser(pageUrl, None).Success?
    ensures c == LinkCountOf(parser, pageUrl, parser(pageUrl, None).value.hostname, hrefs)
  {
    var currentHostname := parser(pageUrl, None).value.hostname;
    var internalCount := 0;
    var externalCount := 0;
    var i := 0;
    while i < |hrefs|
      invariant 0 <= i <= |hrefs|
      invariant internalCount == Count(hrefs[..i], IsKind(parser, pageUrl, currentHostname, Internal))
      invariant externalCount == Count(hrefs[..i], IsKind(parser, pageUrl, currentHostname, External))
    {
      LinkStep(parser, pageUrl, currentHostname, hrefs, i, Internal);
      LinkStep(parser, pageUrl, currentHostname, hrefs, i, External);
      var kind := ClassifyLink(parser, pageUrl, currentHostname, hrefs[i]);
      if kind == Internal {
        internalCount := internalCount + 1;
      } else if kind == External {
        externalCount := externalCount + 1;
      }
      i := i + 1;
    }
    assert hrefs[..i] == hrefs;
    c := LinkCount(internalCount, externalCount);
  }

  // ---------------------------------------------------------------------
  // images

  /** An image has alt text when its `alt` attribute is present and not
      blank. */
  predicate HasAlt(alt: Option<string>) {
    alt.Some? && Trim(alt.value) != ""
  }

  predicate LacksAlt(alt: Option<string>) {
    !HasAlt(alt)
  }

  /** The image counts of a page: every image is counted once, with or
      without alt text. */
  function ImageCountOf(alts: seq<Option<string>>): (c: ImageCount)
    ensures c.withAlt + c.withoutAlt == c.count == |alts|
  {
    CountComplement(alts, HasAlt, LacksAlt);
    ImageCount(|alts|, Count(alts, HasAlt), Count(alts, LacksAlt))
  }

  /** The image walk. */
  method CountImages(alts: seq<Option<string>>) returns (c: ImageCount)
    ensures c == ImageCountOf(alts)
  {
    var withAlt := 0;
    var withoutAlt := 0;
    var i := 0;
    while i < |alts|
      invariant 0 <= i <= |alts|
      invariant withAlt == Count(alts[..i], HasAlt)
      invariant withoutAlt == Count(alts[..i], LacksAlt)
    {
      CountStep(alts, i, HasAlt);
      CountStep(alts, i, LacksAlt);
      if alts[i].Some? && Trim(alts[i].value) != "" {
        withAlt := withAlt + 1;
      } else {
        withoutAlt := withoutAlt + 1;
      }
      i := i + 1;
    }
    assert alts[..i] == alts;
    c := ImageCount(|alts|, withAlt, withoutAlt);
  }

  // ---------------------------------------------------------------------
  // point tables

  /** A canonical `href` counts when the tag is there and not empty. */
  predicate HasCanonical(m: Metadata) {
    m.canonical.Some? && m.canonical.value != ""
  }

  /** The SEO table: 20 for a title of 30 to 60 characters, 10 for a
      shorter or longer one; likewise 20 or 10 for a description, ideally
      of 120 to 160 characters; 10 for a canonical link; 10 for three Open
      Graph tags or more, 5 for one or two; 10 for JSON-LD; 10 for a single
      `h1`, 5 for several. At most 80, reached exactly when every item is
      ideal. */
  function SeoPoints(m: Metadata, h1Count: nat): (points: int)
    ensures 0 <= points <= 80
    ensures points == 80 <==>
      30 <= |m.title| <= 60 && 120 <= |m.description| <= 160 && HasCanonical(m)
      && m.ogTagCount >= 3 && m.schemaCount > 0 && h1Count == 1
  {
    (if 30 <= |m.title| <= 60 then 20 else if |m.title| > 0 then 10 else 0)
    + (if 120 <= |m.description| <= 160 then 20 else if |m.description| > 0 then 10 else 0)
    + (if HasCanonical(m) then 10 else 0)
    + (if m.ogTagCount >= 3 then 10 else if m.ogTagCount > 0 then 5 else 0)
    + (if m.schemaCount > 0 then 10 else 0)
    + (if h1Count == 1 then 10 else if h1Count > 1 then 5 else 0)
  }

  method SeoScore(m: Metadata, h: HeadingStructure) returns (seoScore: int)
    ensures seoScore == SeoPoints(m, h.h1Count)
  {
    seoScore := 0;
    if m.title != "" {
      var titleLength := |m.title|;
      if titleLength >= 30 && titleLength <= 60 {
        seoScore := seoScore + 20;
      } else if titleLength > 0 {
        seoScore := seoScore + 10;
      }
    }
    if m.description != "" {
      var descLength := |m.description|;
      if descLength >= 120 && descLength <= 160 {
        seoScore := seoScore + 20;
      } else if descLength > 0 {
        seoScore := seoScore + 10;
      }
    }
    if m.canonical.Some? && m.canonical.value != "" {
      seoScore := seoScore + 10;
    }
    if m.ogTagCount >= 3 {
      seoScore := seoScore + 10;
    } else if m.ogTagCount > 0 {
      seoScore := seoScore + 5;
    }
    if m.schemaCount > 0 {
      seoScore := seoScore + 10;
    }
    if h.h1Count == 1 {
      seoScore := seoScore + 10;
    } else if h.h1Count > 1 {
      seoScore := seoScore + 5;
    }
  }

  /** The content table: 20 for 600 words or more, 10 for 300; 20 for
      `h2` subheadings in proper order, 10 for `h2` subheadings otherwise;
      10 for five paragraphs, 5 for one; 20 for both internal and external
      links, 10 for either; 20 when at least 80% of the images have alt
      text, 10 when some do. At most 90, reached exactly when every item
      earns its full points. */
  function ContentPoints(c: Content): (points: int)
    ensures 0 <= points <= 90
    ensures points == 90 <==>
      c.wordCount >= 600 && c.headingStructure.hasProperHeadingOrder && c.headingStructure.h2Count > 0
      && c.paragraphCount >= 5 && c.linkCount.internal > 0 && c.linkCount.external > 0
      && c.images.count > 0 && 5 * c.images.withAlt >= 4 * c.images.count
  {
    var h := c.headingStructure;
    (if c.wordCount >= 600 then 20 else if c.wordCount >= 300 then 10 else 0)
    + (if h.hasProperHeadingOrder && h.h2Count > 0 then 20 else if h.h2Count > 0 then 10 else 0)
    + (if c.paragraphCount >= 5 then 10 else if c.paragraphCount > 0 then 5 else 0)
    + (if c.linkCount.internal > 0 && c.linkCount.external > 0 then 20
       else if c.linkCount.internal > 0 || c.linkCount.external > 0 then 10 else 0)
    + (if c.images.count == 0 then 0
       else if 5 * c.images.withAlt >= 4 * c.images.count then 20
       else if c.images.withAlt > 0 then 10 else 0)
  }

  method ContentScore(c: Content) returns (contentScore: int)
    ensures contentScore == ContentPoints(c)
  {
    contentScore := 0;
    if c.wordCount >= 600 {
      contentScore := contentScore + 20;
    } else if c.wordCount >= 300 {
      contentScore := contentScore + 10;
    }
    var h := c.headingStructure;
    if h.hasProperHeadingOrder && h.h2Count > 0 {
      contentScore := contentScore + 20;
    } else if h.h2Count > 0 {
      contentScore := contentScore + 10;
    }
    if c.paragraphCount >= 5 {
      contentScore := contentScore + 10;
    } else if c.paragraphCount > 0 {
      contentScore := contentScore + 5;
    }
    if c.linkCount.internal > 0 && c.linkCount.external > 0 {
      contentScore := contentScore + 20;
    } else if c.linkCount.internal > 0 || c.linkCount.external > 0 {
      contentScore := contentScore + 10;
    }
    if c.images.count > 0 {
      // withAlt / count >= 0.8, and withAlt / count > 0
      if 5 * c.images.withAlt >= 4 * c.images.count {
        contentScore := contentScore + 20;
      } else if c.images.withAlt > 0 {
        contentScore := contentScore + 10;
      }
    }
  }

  /** The load-time bands, each an upper bound in milliseconds that the
      load time must stay strictly below. */
  function LoadPoints(loadTime: nat): (points: int)
    ensures points in {0, 5, 10, 15, 20, 25}
    ensures points == 25 <==> loadTime < 1000
    ensures points == 0 <==> loadTime >= 8000
  {
    if loadTime < 1000 then 25
    else if loadTime < 2000 then 20
    else if loadTime < 3000 then 15
    else if loadTime < 5000 then 10
    else if loadTime < 8000 then 5
    else 0
  }

  /** A slower page never earns more load-time points. */
  lemma LoadPointsMonotone(faster: nat, slower: nat)
    requires faster <= slower
    ensures LoadPoints(faster) >= LoadPoints(slower)
  {
  }

  /** The mobile points: 15 for a page that fits the viewport and declares
      one, 10 for one that only declares it, 5 for one that only fits. */
  function MobilePoints(renders: bool, responsive: bool): int {
    if renders && responsive then 15 else if responsive then 10 else if renders then 5 else 0
  }

  /** The technical table: 15 for HTTPS, 5 for a root or `www` domain, 5
      for a path at most three segments deep, the load-time band, 15 for
      status 200 and the mobile points. At most 80, reached exactly when
      every item earns its full points. */
  function TechnicalPoints(t: Technical): (points: int)
    ensures 0 <= points <= 80
    ensures points == 80 <==>
      t.httpsProtocol && t.domainStructure in {"WWW Subdomain", "Root Domain"} && t.pathDepth <= 3
      && t.loadTime < 1000 && t.statusCode == 200 && t.renders && t.responsive
  {
    (if t.httpsProtocol then 15 else 0)
    + (if t.domainStructure == "WWW Subdomain" || t.domainStructure == "Root Domain" then 5 else 0)
    + (if t.pathDepth <= 3 then 5 else 0)
    + LoadPoints(t.loadTime)
    + (if t.statusCode == 200 then 15 else 0)
    + MobilePoints(t.renders, t.responsive)
  }

  method TechnicalScore(t: Technical) returns (technicalScore: int)
    ensures technicalScore == TechnicalPoints(t)
  {
    technicalScore := 0;
    if t.httpsProtocol {
      technicalScore := technicalScore + 15;
    }
    if t.domainStructure == "WWW Subdomain" || t.domainStructure == "Root Domain" {
      technicalScore := technicalScore + 5;
    }
    if t.pathDepth <= 3 {
      technicalScore := technicalScore + 5;
    }
    if t.loadTime < 1000 {
      technicalScore := technicalScore + 25;
    } else if t.loadTime < 2000 {
      technicalScore := technicalScore + 20;
    } else if t.loadTime < 3000 {
      technicalScore := technicalScore + 15;
    } else if t.loadTime < 5000 {
      technicalScore := technicalScore + 10;
    } else if t.loadTime < 8000 {
      technicalScore := technicalScore + 5;
    }
    if t.statusCode == 200 {
      technicalScore := technicalScore + 15;
    }
    if t.renders && t.responsive {
      technicalScore := technicalScore + 15;
    } else if t.responsive {
      technicalScore := technicalScore + 10;
    } else if t.renders {
      technicalScore := technicalScore + 5;
    }
  }

  /** The alt-text band of the accessibility table: 20 when every image
      has alt text, 15 for at least 80%, 10 for at least half, 5 for some;
      nothing for a page without images. */
  function AltBand(images: ImageCount): (points: int)
    ensures points in {0, 5, 10, 15, 20}
    ensures images.count == 0 || images.withAlt == 0 ==> points == 0
    ensures points == 20 <==> images.count > 0 && images.withAlt == images.count
  {
    if images.count == 0 then 0
    else if images.withAlt == images.count then 20
    else if 5 * images.withAlt >= 4 * images.count then 15
    else if 2 * images.withAlt >= images.count then 10
    else if images.withAlt > 0 then 5
    else 0
  }

  /** The accessibility table: a base of 50, the alt-text band, 15 for
      good contrast and 15 for proper heading order. Between 50 and 100,
      and 100 exactly when all of a page's images have alt text, its
      contrast is good and its headings are in order. */
  function AccessibilityPoints(c: Content, hasGoodContrast: bool): (points: int)
    ensures 50 <= points <= 100
    ensures points == 100 <==>
      c.images.count > 0 && c.images.withAlt == c.images.count
      && hasGoodContrast && c.headingStructure.hasProperHeadingOrder
  {
    50 + AltBand(c.images)
    + (if hasGoodContrast then 15 else 0)
    + (if c.headingStructure.hasProperHeadingOrder then 15 else 0)
  }

  method AccessibilityScore(c: Content, hasGoodContrast: bool) returns (accessibilityScore: int)
    ensures accessibilityScore == AccessibilityPoints(c, hasGoodContrast)
  {
    accessibilityScore := 50;
    if c.images.count > 0 {
      // withAlt / count === 1, >= 0.8, >= 0.5, > 0
      if c.images.withAlt == c.images.count {
        accessibilityScore := accessibilityScore + 20;
      } else if 5 * c.images.withAlt >= 4 * c.images.count {
        accessibilityScore := accessibilityScore + 15;
      } else if 2 * c.images.withAlt >= c.images.count {
        accessibilityScore := accessibilityScore + 10;
      } else if c.images.withAlt > 0 {
        accessibilityScore := accessibilityScore + 5;
      }
    }
    if hasGoodContrast {
      accessibilityScore := accessibilityScore + 15;
    }
    if c.headingStructure.hasProperHeadingOrder {
      accessibilityScore := accessibilityScore + 15;
    }
  }

  function Min(a: int, b: int): int {
    if a <= b then a else b
  }

  /** The final scores: each category clamped to 100, and the
      0.3/0.3/0.2/0.2 weighted overall score of the clamped categories.
      A category already within 100 is kept as it is, and when none is
      negative the overall score lies in [0, 100]. */
  function FinalScores(seoScore: int, technicalScore: int, contentScore: int, accessibilityScore: int): (s: ServerScores)
    ensures s.seo <= 100 && s.performance <= 100 && s.bestPractices <= 100 && s.accessibility <= 100
    ensures seoScore <= 100 ==> s.seo == seoScore
    ensures technicalScore <= 100 ==> s.performance == technicalScore
    ensures contentScore <= 100 ==> s.bestPractices == contentScore
    ensures accessibilityScore <= 100 ==> s.accessibility == accessibilityScore
    ensures s.overall == Round(3 * s.seo + 3 * s.performance + 2 * s.accessibility + 2 * s.bestPractices, 10)
    ensures 0 <= seoScore && 0 <= technicalScore && 0 <= contentScore && 0 <= accessibilityScore ==>
      0 <= s.overall <= 100
  {
    var seo := Min(100, seoScore);
    var performance := Min(100, technicalScore);
    var bestPractices := Min(100, contentScore);
    var accessibility := Min(100, accessibilityScore);
    ServerScores(performance, accessibility, seo, bestPractices,
      Round(3 * seo + 3 * performance + 2 * accessibility + 2 * bestPractices, 10))
  }

  /** The scores of an analysed page: the clamps never bite, since no
      table exceeds 100, and the overall score lies in [10, 86]. */
  function PageScores(m: Metadata, c: Content, t: Technical, hasGoodContrast: bool): (s: ServerScores)
    ensures s.seo == SeoPoints(m, c.headingStructure.h1Count) && s.performance == TechnicalPoints(t)
    ensures s.bestPractices == ContentPoints(c) && s.accessibility == AccessibilityPoints(c, hasGoodContrast)
    ensures 10 <= s.overall <= 86
  {
    FinalScores(SeoPoints(m, c.headingStructure.h1Count), TechnicalPoints(t),
      ContentPoints(c), AccessibilityPoints(c, hasGoodContrast))
  }

  // ---------------------------------------------------------------------
  // recommendations

  /** The recommendation rules, in the order they are written. */
  datatype ServerTip =
    | TitleLength | DescriptionLength | AddCanonical | AddOpenGraph
    | AddH1 | SingleH1 | FixHeadingOrder | MoreContent | AddAltText
    | AddInternalLinks | AddExternalLinks | ServeOverHttps | FasterLoad
    | AddViewport | FixMobileRendering

  function RuleIndex(t: ServerTip): int {
    match t
    case TitleLength => 0
    case DescriptionLength => 1
    case AddCanonical => 2
    case AddOpenGraph => 3
    case AddH1 => 4
    case SingleH1 => 5
    case FixHeadingOrder => 6
    case MoreContent => 7
    case AddAltText => 8
    case AddInternalLinks => 9
    case AddExternalLinks => 10
    case ServeOverHttps => 11
    case FasterLoad => 12
    case AddViewport => 13
    case FixMobileRendering => 14
  }

  /** When each rule applies to an analysed result. */
  predicate Fires(r: ServerResult, t: ServerTip) {
    match t
    case TitleLength => r.metadata.title == "" || |r.metadata.title| < 30 || |r.metadata.title| > 60
    case DescriptionLength =>
      r.metadata.description == "" || |r.metadata.description| < 120 || |r.metadata.description| > 160
    case AddCanonical => !HasCanonical(r.metadata)
    case AddOpenGraph => r.metadata.ogTagCount < 3
    case AddH1 => r.content.headingStructure.h1Count == 0
    case SingleH1 => r.content.headingStructure.h1Count > 1
    case FixHeadingOrder => !r.content.headingStructure.hasProperHeadingOrder
    case MoreContent => r.content.wordCount < 300
    case AddAltText => r.content.images.withoutAlt > 0
    case AddInternalLinks => r.content.linkCount.internal == 0
    case AddExternalLinks => r.content.linkCount.external == 0
    case ServeOverHttps => !r.technical.httpsProtocol
    case FasterLoad => r.technical.loadTime > 3000
    case AddViewport => !r.technical.responsive
    case FixMobileRendering => !r.technical.renders
  }

  /** The text of each rule; `loadSecondsText` is the load time in seconds
      as `toFixed(2)` writes it. */
  function Message(r: ServerResult, loadSecondsText: string, t: ServerTip): string {
    match t
    case TitleLength =>
      "Optimize your title tag. Ideal length is 30-60 characters. Current: "
      + NatToString(|r.metadata.title|) + " characters."
    case DescriptionLength =>
      "Improve your meta description. Ideal length is 120-160 characters. Current: "
      + NatToString(|r.metadata.description|) + " characters."
    case AddCanonical => "Add a canonical URL tag to prevent duplicate content issues."
    case AddOpenGraph => "Add Open Graph meta tags to improve social media sharing."
    case AddH1 => "Add an H1 heading to your page."
    case SingleH1 =>
      "Use only one H1 heading per page. Current: " + NatToString(r.content.headingStructure.h1Count) + "."
    case FixHeadingOrder =>
      "Fix your heading structure. Use headings in the proper order (H1, then H2, then H3, etc.)."
    case MoreContent => "Add more content to your page. Current word count: " + NatToString(r.content.wordCount) + "."
    case AddAltText =>
      "Add alt text to all images. Missing alt text on " + NatToString(r.content.images.withoutAlt) + " images."
    case AddInternalLinks => "Add internal links to other pages on your site."
    case AddExternalLinks => "Add external links to authoritative sources to improve credibility."
    case ServeOverHttps => "Implement HTTPS to secure your website and improve search rankings."
    case FasterLoad => "Improve page load speed. Current load time: " + loadSecondsText + " seconds."
    case AddViewport => "Add a proper viewport meta tag for better mobile responsiveness."
    case FixMobileRendering =>
      "Fix mobile viewport rendering issues. Your page does not display properly on mobile devices."
  }

  function MessageOf(r: ServerResult, loadSecondsText: string): ServerTip -> string {
    t => Message(r, loadSecondsText, t)
  }

  const RuleCount := 15

  /** The rule written at position `i`. */
  function TipAt(i: nat): ServerTip
    requires i < RuleCount
  {
    match i
    case 0 => TitleLength
    case 1 => DescriptionLength
    case 2 => AddCanonical
    case 3 => AddOpenGraph
    case 4 => AddH1
    case 5 => SingleH1
    case 6 => FixHeadingOrder
    case 7 => MoreContent
    case 8 => AddAltText
    case 9 => AddInternalLinks
    case 10 => AddExternalLinks
    case 11 => ServeOverHttps
    case 12 => FasterLoad
    case 13 => AddViewport
    case _ => FixMobileRendering
  }

  /** Rule `i` is the rule at position `i`. */
  lemma TipAtIndex(i: nat)
    requires i < RuleCount
    ensures RuleIndex(TipAt(i)) == i
  {
  }

  lemma IndexTipAt(t: ServerTip)
    ensures 0 <= RuleIndex(t) < RuleCount && TipAt(RuleIndex(t)) == t
  {
  }

  /** The tips of the first `k` rules that apply to `r`, in rule order. */
  function FiredUpTo(r: ServerResult, k: nat): (tips: seq<ServerTip>)
    requires k <= RuleCount
    ensures |tips| <= k
  {
    if k == 0 then [] else FiredUpTo(r, k - 1) + When(Fires(r, TipAt(k - 1)), TipAt(k - 1))
  }

  /** The tips of all rules that apply to `r`, in rule order. */
  function FiredTips(r: ServerResult): seq<ServerTip> {
    FiredUpTo(r, RuleCount)
  }

  lemma {:induction false} FiredUpToMembership(r: ServerResult, k: nat, t: ServerTip)
    requires k <= RuleCount
    ensures t in FiredUpTo(r, k) <==> Fires(r, t) && RuleIndex(t) < k
  {
    if k > 0 {
      var last := TipAt(k - 1);
      FiredUpToMembership(r, k - 1, t);
      IndexTipAt(t);
      TipAtIndex(k - 1);
      assert FiredUpTo(r, k) == FiredUpTo(r, k - 1) + When(Fires(r, last), last);
      assert t == last <==> RuleIndex(t) == k - 1;
    }
  }

  lemma {:induction false} FiredUpToOrdered(r: ServerResult, k: nat)
    requires k <= RuleCount
    ensures IncreasingBy(FiredUpTo(r, k), RuleIndex)
    ensures AllBelow(FiredUpTo(r, k), k, RuleIndex)
  {
    if k > 0 {
      var prev := FiredUpTo(r, k - 1);
      var tips := FiredUpTo(r, k);
      FiredUpToOrdered(r, k - 1);
      TipAtIndex(k - 1);
      assert tips == prev + When(Fires(r, TipAt(k - 1)), TipAt(k - 1));
      forall i, j | 0 <= i < j < |tips| ensures RuleIndex(tips[i]) < RuleIndex(tips[j]) {
        if j >= |prev| {
          assert tips[j] == TipAt(k - 1) && tips[i] == prev[i];
        } else {
          assert tips[i] == prev[i] && tips[j] == prev[j];
        }
      }
      forall i | 0 <= i < |tips| ensures RuleIndex(tips[i]) < k {
        if i < |prev| {
          assert tips[i] == prev[i];
        }
      }
    }
  }

  /** A tip is listed exactly when its rule applies. */
  lemma FiredTipsExactly(r: ServerResult, t: ServerTip)
    ensures t in FiredTips(r) <==> Fires(r, t)
  {
    FiredUpToMembership(r, RuleCount, t);
    IndexTipAt(t);
  }

  /** The listed tips keep the order in which the rules are written, so
      each appears at most once. */
  lemma FiredTipsInRuleOrder(r: ServerResult)
    ensures IncreasingBy(FiredTips(r), RuleIndex)
  {
    FiredUpToOrdered(r, RuleCount);
  }

  /** At most one of the two `h1` tips is given. */
  lemma H1TipsExclusive(r: ServerResult)
    ensures !(AddH1 in FiredTips(r) && SingleH1 in FiredTips(r))
  {
    FiredTipsExactly(r, AddH1);
    FiredTipsExactly(r, SingleH1);
  }

  /** What the recommendation list of an analysed result is: the messages
      of the rules that apply, in rule order, with no cap on their number. */
  function Recommendations(r: ServerResult, loadSecondsText: string): (recs: seq<string>)
    ensures |recs| == |FiredTips(r)| <= RuleCount
    ensures forall i :: 0 <= i < |recs| ==> recs[i] == Message(r, loadSecondsText, FiredTips(r)[i])
  {
    FiredUpToOrdered(r, RuleCount);
    Map(FiredTips(r), MessageOf(r, loadSecondsText))
  }

  /** The images under `f` of the first `k` applying tips, one rule at a
      time. */
  function MapFiredUpTo<U>(r: ServerResult, k: nat, f: ServerTip -> U): seq<U>
    requires k <= RuleCount
  {
    if k == 0 then [] else MapFiredUpTo(r, k - 1, f) + When(Fires(r, TipAt(k - 1)), f(TipAt(k - 1)))
  }

  lemma {:induction false} MapFiredUpToIsMap<U>(r: ServerResult, k: nat, f: ServerTip -> U)
    requires k <= RuleCount
    ensures MapFiredUpTo(r, k, f) == Map(FiredUpTo(r, k), f)
  {
    if k > 0 {
      MapFiredUpToIsMap(r, k - 1, f);
      MapWhen(FiredUpTo(r, k - 1), Fires(r, TipAt(k - 1)), TipAt(k - 1), f);
    }
  }

  /** The mapped list of applying tips, written out rule by rule. The
      body states each prefix once so that the solver does not unfold the
      whole definition at every step; it is there to keep the proof cheap. */
  lemma MapFiredUnrolled<U>(r: ServerResult, f: ServerTip -> U)
    ensures MapFiredUpTo(r, RuleCount, f) == When(Fires(r, TitleLength), f(TitleLength)) + When(Fires(r, DescriptionLength), f(DescriptionLength)) + When(Fires(r, AddCanonical), f(AddCanonical)) + When(Fires(r, AddOpenGraph), f(AddOpenGraph)) + When(Fires(r, AddH1), f(AddH1)) + When(Fires(r, SingleH1), f(SingleH1)) + When(Fires(r, FixHeadingOrder), f(FixHeadingOrder)) + When(Fires(r, MoreContent), f(MoreContent)) + When(Fires(r, AddAltText), f(AddAltText)) + When(Fires(r, AddInternalLinks), f(AddInternalLinks)) + When(Fires(r, AddExternalLinks), f(AddExternalLinks)) + When(Fires(r, ServeOverHttps), f(ServeOverHttps)) + When(Fires(r, FasterLoad), f(FasterLoad)) + When(Fires(r, AddViewport), f(AddViewport)) + When(Fires(r, FixMobileRendering), f(FixMobileRendering))
  {
    assert MapFiredUpTo(r, 1, f) == When(Fires(r, TitleLength), f(TitleLength));
    assert MapFiredUpTo(r, 2, f) == When(Fires(r, TitleLength), f(TitleLength)) + When(Fires(r, DescriptionLength), f(DescriptionLength));
    assert MapFiredUpTo(r, 3, f) == When(Fires(r, TitleLength), f(TitleLength)) + When(Fires(r, DescriptionLength), f(DescriptionLength)) + When(Fires(r, AddCanonical), f(AddCanonical));
    assert MapFiredUpTo(r, 4, f) == When(Fires(r, TitleLength), f(TitleLength)) + When(Fires(r, DescriptionLength), f(DescriptionLength)) + When(Fires(r, AddCanonical), f(AddCanonical)) + When(Fires(r, AddOpenGraph), f(AddOpenGraph));
    assert MapFiredUpTo(r, 5, f) == When(Fires(r, TitleLength), f(TitleLength)) + When(Fires(r, DescriptionLength), f(DescriptionLength)) + When(Fires(r, AddCanonical), f(AddCanonical)) + When(Fires(r, AddOpenGraph), f(AddOpenGraph)) + When(Fires(r, AddH1), f(AddH1));
    assert MapFiredUpTo(r, 6, f) == When(Fires(r, TitleLength), f(TitleLength)) + When(Fires(r, DescriptionLength), f(DescriptionLength)) + When(Fires(r, AddCanonical), f(AddCanonical)) + When(Fires(r, AddOpenGraph), f(AddOpenGraph)) + When(Fires(r, AddH1), f(AddH1)) + When(Fires(r, SingleH1), f(SingleH1));
    assert MapFiredUpTo(r, 7, f) == When(Fires(r, TitleLength), f(TitleLength)) + When(Fires(r, DescriptionLength), f(DescriptionLength)) + When(Fires(r, AddCanonical), f(AddCanonical)) + When(Fires(r, AddOpenGraph), f(AddOpenGraph)) + When(Fires(r, AddH1), f(AddH1)) + When(Fires(r, SingleH1), f(SingleH1)) + When(Fires(r, FixHeadingOrder), f(FixHeadingOrder));
    assert MapFiredUpTo(r, 8, f) == When(Fires(r, TitleLength), f(TitleLength)) + When(Fires(r, DescriptionLength), f(DescriptionLength)) + When(Fires(r, AddCanonical), f(AddCanonical)) + When(Fires(r, AddOpenGraph), f(AddOpenGraph)) + When(Fires(r, AddH1), f(AddH1)) + When(Fires(r, SingleH1), f(SingleH1)) + When(Fires(r, FixHeadingOrder), f(FixHeadingOrder)) + When(Fires(r, MoreContent), f(MoreContent));
    assert MapFiredUpTo(r, 9, f) == When(Fires(r, TitleLength), f(TitleLength)) + When(Fires(r, DescriptionLength), f(DescriptionLength)) + When(Fires(r, AddCanonical), f(AddCanonical)) + When(Fires(r, AddOpenGraph), f(AddOpenGraph)) + When(Fires(r, AddH1), f(AddH1)) + When(Fires(r, SingleH1), f(SingleH1)) + When(Fires(r, FixHeadingOrder), f(FixHeadingOrder)) + When(Fires(r, MoreContent), f(MoreContent)) + When(Fires(r, AddAltText), f(AddAltText));
    assert MapFiredUpTo(r, 10, f) == When(Fires(r, TitleLength), f(TitleLength)) + When(Fires(r, DescriptionLength), f(DescriptionLength)) + When(Fires(r, AddCanonical), f(AddCanonical)) + When(Fires(r, AddOpenGraph), f(AddOpenGraph)) + When(Fires(r, AddH1), f(AddH1)) + When(Fires(r, SingleH1), f(SingleH1)) + When(Fires(r, FixHeadingOrder), f(FixHeadingOrder)) + When(Fires(r, MoreContent), f(MoreContent)) + When(Fires(r, AddAltText), f(AddAltText)) + When(Fires(r, AddInternalLinks), f(AddInternalLinks));
    assert MapFiredUpTo(r, 11, f) == When(Fires(r, TitleLength), f(TitleLength)) + When(Fires(r, DescriptionLength), f(DescriptionLength)) + When(Fires(r, AddCanonical), f(AddCanonical)) + When(Fires(r, AddOpenGraph), f(AddOpenGraph)) + When(Fires(r, AddH1), f(AddH1)) + When(Fires(r, SingleH1), f(SingleH1)) + When(Fires(r, FixHeadingOrder), f(FixHeadingOrder)) + When(Fires(r, MoreContent), f(MoreContent)) + When(Fires(r, AddAltText), f(AddAltText)) + When(Fires(r, AddInternalLinks), f(AddInternalLinks)) + When(Fires(r, AddExternalLinks), f(AddExternalLinks));
    assert MapFiredUpTo(r, 12, f) == When(Fires(r, TitleLength), f(TitleLength)) + When(Fires(r, DescriptionLength), f(DescriptionLength)) + When(Fires(r, AddCanonical), f(AddCanonical)) + When(Fires(r, AddOpenGraph), f(AddOpenGraph)) + When(Fires(r, AddH1), f(AddH1)) + When(Fires(r, SingleH1), f(SingleH1)) + When(Fires(r, FixHeadingOrder), f(FixHeadingOrder)) + When(Fires(r, MoreContent), f(MoreContent)) + When(Fires(r, AddAltText), f(AddAltText)) + When(Fires(r, AddInternalLinks), f(AddInternalLinks)) + When(Fires(r, AddExternalLinks), f(AddExternalLinks)) + When(Fires(r, ServeOverHttps), f(ServeOverHttps));
    assert MapFiredUpTo(r, 13, f) == When(Fires(r, TitleLength), f(TitleLength)) + When(Fires(r, DescriptionLength), f(DescriptionLength)) + When(Fires(r, AddCanonical), f(AddCanonical)) + When(Fires(r, AddOpenGraph), f(AddOpenGraph)) + When(Fires(r, AddH1), f(AddH1)) + When(Fires(r, SingleH1), f(SingleH1)) + When(Fires(r, FixHeadingOrder), f(FixHeadingOrder)) + When(Fires(r, MoreContent), f(MoreContent)) + When(Fires(r, AddAltText), f(AddAltText)) + When(Fires(r, AddInternalLinks), f(AddInternalLinks)) + When(Fires(r, AddExternalLinks), f(AddExternalLinks)) + When(Fires(r, ServeOverHttps), f(ServeOverHttps)) + When(Fires(r, FasterLoad), f(FasterLoad));
    assert MapFiredUpTo(r, 14, f) == When(Fires(r, TitleLength), f(TitleLength)) + When(Fires(r, DescriptionLength), f(DescriptionLength)) + When(Fires(r, AddCanonical), f(AddCanonical)) + When(Fires(r, AddOpenGraph), f(AddOpenGraph)) + When(Fires(r, AddH1), f(AddH1)) + When(Fires(r, SingleH1), f(SingleH1)) + When(Fires(r, FixHeadingOrder), f(FixHeadingOrder)) + When(Fires(r, MoreContent), f(MoreContent)) + When(Fires(r, AddAltText), f(AddAltText)) + When(Fires(r, AddInternalLinks), f(AddInternalLinks)) + When(Fires(r, AddExternalLinks), f(AddExternalLinks)) + When(Fires(r, ServeOverHttps), f(ServeOverHttps)) + When(Fires(r, FasterLoad), f(FasterLoad)) + When(Fires(r, AddViewport), f(AddViewport));
    assert MapFiredUpTo(r, 15, f) == When(Fires(r, TitleLength), f(TitleLength)) + When(Fires(r, DescriptionLength), f(DescriptionLength)) + When(Fires(r, AddCanonical), f(AddCanonical)) + When(Fires(r, AddOpenGraph), f(AddOpenGraph)) + When(Fires(r, AddH1), f(AddH1)) + When(Fires(r, SingleH1), f(SingleH1)) + When(Fires(r, FixHeadingOrder), f(FixHeadingOrder)) + When(Fires(r, MoreContent), f(MoreContent)) + When(Fires(r, AddAltText), f(AddAltText)) + When(Fires(r, AddInternalLinks), f(AddInternalLinks)) + When(Fires(r, AddExternalLinks), f(AddExternalLinks)) + When(Fires(r, ServeOverHttps), f(ServeOverHttps)) + When(Fires(r, FasterLoad), f(FasterLoad)) + When(Fires(r, AddViewport), f(AddViewport)) + When(Fires(r, FixMobileRendering), f(FixMobileRendering));
  }

  /** The recommendation pushes of `analyzeSeoServer`: one conditional
      `push` per rule, in the order written, each guarded by that rule's
      condition (`Fires`). The `h1` pair is an `if`/`else if` in the
      original, written here as two pushes whose conditions exclude each
      other. */
  method GenerateRecommendations(r: ServerResult, loadSecondsText: string) returns (recs: seq<string>)
    ensures recs == Recommendations(r, loadSecondsText)
  {
    var message := MessageOf(r, loadSecondsText);
    recs := When(Fires(r, TitleLength), message(TitleLength));
    recs := recs + When(Fires(r, DescriptionLength), message(DescriptionLength));
    recs := recs + When(Fires(r, AddCanonical), message(AddCanonical));
    recs := recs + When(Fires(r, AddOpenGraph), message(AddOpenGraph));
    recs := recs + When(Fires(r, AddH1), message(AddH1));
    recs := recs + When(Fires(r, SingleH1), message(SingleH1));
    recs := recs + When(Fires(r, FixHeadingOrder), message(FixHeadingOrder));
    recs := recs + When(Fires(r, MoreContent), message(MoreContent));
    recs := recs + When(Fires(r, AddAltText), message(AddAltText));
    recs := recs + When(Fires(r, AddInternalLinks), message(AddInternalLinks));
    recs := recs + When(Fires(r, AddExternalLinks), message(AddExternalLinks));
    recs := recs + When(Fires(r, ServeOverHttps), message(ServeOverHttps));
    recs := recs + When(Fires(r, FasterLoad), message(FasterLoad));
    recs := recs + When(Fires(r, AddViewport), message(AddViewport));
    recs := recs + When(Fires(r, FixMobileRendering), message(FixMobileRendering));
    MapFiredUpToIsMap(r, RuleCount, message);
    MapFiredUnrolled(r, message);
  }

  // ---------------------------------------------------------------------
  // the whole analysis

  /** What the page and its URL say, before any score is computed. */
  function PageMetadata(f: PageFacts): Metadata {
    Metadata(f.title, f.description, f.canonical, f.ogTagCount, f.schemaCount)
  }

  function PageContent(parser: ClientAnalyzer.UrlParser, normalizedUrl: string, f: PageFacts): Content
    requires parser(normalizedUrl, None).Success?
  {
    Content(
      HeadingStructureOf(f.headingLevels),
      RunCount(f.bodyText, IsSpace),
      f.paragraphCount,
      LinkCountOf(parser, normalizedUrl, parser(normalizedUrl, None).value.hostname, f.hrefs),
      ImageCountOf(f.alts))
  }

  function PageTechnical(u: ClientAnalyzer.UrlParts, f: PageFacts): Technical {
    Technical(
      u.protocol == "https:",
      StartsWith(u.hostname, "www."),
      ClientAnalyzer.DomainFormOf(u.hostname).Label(),
      RunCount(u.pathname, IsSlash),
      u.search != "",
      u.hash != "",
      f.loadTime,
      f.renders,
      f.hasViewportMeta,
      f.statusCode)
  }

  /** The scores of a filled-in record, then the recommendations its
      facts and scores call for. */
  function Completed(r: ServerResult, f: PageFacts): (completed: ServerResult)
    ensures completed.(scores := r.scores, recommendations := r.recommendations) == r
  {
    var scored := r.(scores := PageScores(r.metadata, r.content, r.technical, f.hasGoodContrast));
    scored.(recommendations := Recommendations(scored, f.loadSecondsText))
  }

  /** The result for a page that loaded: its facts, the scores of the four
      tables, and the recommendations those facts call for. */
  function Analyzed(parser: ClientAnalyzer.UrlParser, normalizedUrl: string, f: PageFacts): (r: ServerResult)
    requires parser(normalizedUrl, None).Success?
    ensures r.url == normalizedUrl && r.errors == []
    ensures r.metadata == PageMetadata(f) && r.content == PageContent(parser, normalizedUrl, f)
    ensures r.technical == PageTechnical(parser(normalizedUrl, None).value, f)
    ensures 10 <= r.scores.overall <= 86
    ensures |r.recommendations| <= RuleCount
  {
    var m := PageMetadata(f);
    var c := PageContent(parser, normalizedUrl, f);
    var t := PageTechnical(parser(normalizedUrl, None).value, f);
    Completed(ServerResult(normalizedUrl, ServerScores(0, 0, 0, 0, 0), m, c, t, [], []), f)
  }

  // ---------------------------------------------------------------------
  // a browser session that throws

  /** The awaited browser call that throws, in the order the `try` block
      reaches them: the session set-up (launch, new page, viewport,
      request interception, navigation), the page title, the heading,
      word, paragraph, link, image, mobile and contrast queries, and the
      final `browser.close()`. The description, canonical, Open Graph and
      schema queries catch their own errors and never throw. */
  datatype CrashStage =
    BeforeLoad | AtTitle | AtHeadings | AtWordCount | AtParagraphs | AtLinks | AtImages | AtMobile | AtContrast | AtClose
  {
    /** How many sections of the record were written before the call. */
    function Index(): nat {
      match this
      case BeforeLoad => 0
      case AtTitle => 1
      case AtHeadings => 2
      case AtWordCount => 3
      case AtParagraphs => 4
      case AtLinks => 5
      case AtImages => 6
      case AtMobile => 7
      case AtContrast => 8
      case AtClose => 9
    }
  }

  /** The record after the first `written` sections of the `try` block:
      each section is written in place as soon as its query returns, so
      those sections hold the page's values and the rest their initial
      ones. The URL facts, the load time and the status code come first;
      then the metadata; then the headings, words, paragraphs, links and
      images one by one; then the mobile flags. */
  function Sections(parser: ClientAnalyzer.UrlParser, normalizedUrl: string, f: PageFacts, written: nat): (r: ServerResult)
    requires parser(normalizedUrl, None).Success?
    ensures r.url == normalizedUrl && r.errors == []
    ensures r.scores == ServerScores(0, 0, 0, 0, 0) && r.recommendations == []
  {
    var initial := InitialResult(normalizedUrl);
    var t := PageTechnical(parser(normalizedUrl, None).value, f);
    var c := PageContent(parser, normalizedUrl, f);
    var technical :=
      if written < 1 then initial.technical
      else if written < 8 then t.(renders := false, responsive := false)
      else t;
    var metadata := if written < 2 then initial.metadata else PageMetadata(f);
    var content := Content(
      if written < 3 then initial.content.headingStructure else c.headingStructure,
      if written < 4 then 0 else c.wordCount,
      if written < 5 then 0 else c.paragraphCount,
      if written < 6 then initial.content.linkCount else c.linkCount,
      if written < 7 then initial.content.images else c.images);
    initial.(technical := technical, metadata := metadata, content := content)
  }

  /** The record as the `try` block leaves it when the call of `stage`
      throws: the sections written before that call; the scores and the
      recommendations are written last, just before the browser is
      closed. So a failure before `browser.close()` leaves all five scores
      at 0 and no recommendation, whatever was already collected. */
  function FilledUpTo(parser: ClientAnalyzer.UrlParser, normalizedUrl: string, f: PageFacts, stage: CrashStage): (r: ServerResult)
    requires parser(normalizedUrl, None).Success?
    ensures r.url == normalizedUrl && r.errors == []
    ensures stage != AtClose ==> r.scores == ServerScores(0, 0, 0, 0, 0) && r.recommendations == []
  {
    var filled := Sections(parser, normalizedUrl, f, stage.Index());
    if stage != AtClose then filled else Completed(filled, f)
  }

  /** The record at a failing call is the sections written before it, and
      at `browser.close()` the completed record. */
  lemma FilledUpToBySections(parser: ClientAnalyzer.UrlParser, normalizedUrl: string, f: PageFacts, stage: CrashStage)
    requires parser(normalizedUrl, None).Success?
    ensures stage != AtClose ==> FilledUpTo(parser, normalizedUrl, f, stage) == Sections(parser, normalizedUrl, f, stage.Index())
    ensures stage == AtClose ==> FilledUpTo(parser, normalizedUrl, f, stage) == Completed(Sections(parser, normalizedUrl, f, 9), f)
  {
  }

  /** A failure during the session set-up leaves the initial record under
      the normalised URL. */
  lemma FailedSetupIsInitial(parser: ClientAnalyzer.UrlParser, normalizedUrl: string, f: PageFacts)
    requires parser(normalizedUrl, None).Success?
    ensures FilledUpTo(parser, normalizedUrl, f, BeforeLoad) == InitialResult(normalizedUrl)
  {
  }

  /** Every section written before the failing call holds the page's
      value, the one the loaded page's analysis reports (`Analyzed`): the
      URL facts, load time and status code once the page is loaded, the
      metadata from the heading query on, each content field from the
      query after its own, the mobile flags from the contrast query on. */
  lemma FailedQueryKeepsEarlierSections(parser: ClientAnalyzer.UrlParser, normalizedUrl: string, f: PageFacts, stage: CrashStage)
    requires parser(normalizedUrl, None).Success?
    ensures var r, t, c := FilledUpTo(parser, normalizedUrl, f, stage), PageTechnical(parser(normalizedUrl, None).value, f), PageContent(parser, normalizedUrl, f);
      && (stage.Index() >= 1 ==> r.technical.(renders := false, responsive := false) == t.(renders := false, responsive := false))
      && (stage.Index() >= 2 ==> r.metadata == PageMetadata(f))
      && (stage.Index() >= 3 ==> r.content.headingStructure == c.headingStructure)
      && (stage.Index() >= 4 ==> r.content.wordCount == c.wordCount)
      && (stage.Index() >= 5 ==> r.content.paragraphCount == c.paragraphCount)
      && (stage.Index() >= 6 ==> r.content.linkCount == c.linkCount)
      && (stage.Index() >= 7 ==> r.content.images == c.images)
      && (stage.Index() >= 8 ==> r.technical == t)
  {
    FilledUpToBySections(parser, normalizedUrl, f, stage);
  }

  /** Every section the failing call and those after it would have written
      keeps its initial value. */
  lemma FailedQueryLeavesLaterSections(parser: ClientAnalyzer.UrlParser, normalizedUrl: string, f: PageFacts, stage: CrashStage)
    requires parser(normalizedUrl, None).Success?
    ensures var r, i := FilledUpTo(parser, normalizedUrl, f, stage), InitialResult(normalizedUrl);
      && (stage.Index() < 1 ==> r.technical == i.technical)
      && (stage.Index() < 2 ==> r.metadata == i.metadata)
      && (stage.Index() < 3 ==> r.content.headingStructure == i.content.headingStructure)
      && (stage.Index() < 4 ==> r.content.wordCount == 0)
      && (stage.Index() < 5 ==> r.content.paragraphCount == 0)
      && (stage.Index() < 6 ==> r.content.linkCount == i.content.linkCount)
      && (stage.Index() < 7 ==> r.content.images == i.content.images)
      && (stage.Index() < 8 ==> !r.technical.renders && !r.technical.responsive)
  {
    FilledUpToBySections(parser, normalizedUrl, f, stage);
  }

  /** When only `browser.close()` throws, the record is the complete
      analysis: the scores and the recommendations are already written. */
  lemma FailedCloseKeepsAnalysis(parser: ClientAnalyzer.UrlParser, normalizedUrl: string, f: PageFacts)
    requires parser(normalizedUrl, None).Success?
    ensures FilledUpTo(parser, normalizedUrl, f, AtClose) == Analyzed(parser, normalizedUrl, f)
  {
    var m := PageMetadata(f);
    var c := PageContent(parser, normalizedUrl, f);
    var t := PageTechnical(parser(normalizedUrl, None).value, f);
    var written := Sections(parser, normalizedUrl, f, 9);
    assert written.technical == t && written.metadata == m;
    assert written.content == c;
    assert written == ServerResult(normalizedUrl, ServerScores(0, 0, 0, 0, 0), m, c, t, [], []);
    FilledUpToBySections(parser, normalizedUrl, f, AtClose);
  }

  /** `analyzeSeoServer`. An invalid URL returns the initial record with
      the single error "Invalid URL provided". Otherwise the `try` block
      runs under the normalised URL: a page that loads and whose browser
      closes is the complete analysis; a call that throws leaves the
      record as filled in so far, with the error "Analysis error: " and
      the message. */
  method AnalyzeSeoServer(parser: ClientAnalyzer.UrlParser, url: string, outcome: PageOutcome) returns (result: ServerResult)
    ensures result.url == ClientAnalyzer.NormalizeUrl(url)
    ensures !ClientAnalyzer.IsValidUrl(parser, url) ==>
      && result.scores == ServerScores(0, 0, 0, 0, 0)
      && result.recommendations == []
      && result.errors == ["Invalid URL provided"]
    ensures ClientAnalyzer.IsValidUrl(parser, url) && outcome.Crashed? ==>
      result == FilledUpTo(parser, ClientAnalyzer.NormalizeUrl(url), outcome.facts, outcome.at).(errors := ["Analysis error: " + outcome.message])
    ensures ClientAnalyzer.IsValidUrl(parser, url) && outcome.Loaded? ==>
      result == Analyzed(parser, ClientAnalyzer.NormalizeUrl(url), outcome.facts)
  {
    result := InitialResult(ClientAnalyzer.NormalizeUrl(url));
    if !ClientAnalyzer.IsValidUrl(parser, url) {
      result := result.(errors := result.errors + ["Invalid URL provided"]);
      return;
    }
    var normalizedUrl := ClientAnalyzer.NormalizeUrl(url);
    result := result.(url := normalizedUrl);
    result := AnalyzePage(parser, normalizedUrl, outcome);
    match outcome
    case Loaded(f) =>
      FailedCloseKeepsAnalysis(parser, normalizedUrl, f);
    case Crashed(at, f, message) =>
      FilledUpToBySections(parser, normalizedUrl, f, at);
  }

  /** The scores of the four tables, clamped and weighted, then the
      recommendation pushes. */
  method ScorePage(r: ServerResult, f: PageFacts) returns (result: ServerResult)
    ensures result == Completed(r, f)
  {
    result := r;
    var seoScore := SeoScore(result.metadata, result.content.headingStructure);
    var technicalScore := TechnicalScore(result.technical);
    var contentScore := ContentScore(result.content);
    var accessibilityScore := AccessibilityScore(result.content, f.hasGoodContrast);
    result := result.(scores := FinalScores(seoScore, technicalScore, contentScore, accessibilityScore));
    assert result.scores == PageScores(result.metadata, result.content, result.technical, f.hasGoodContrast);
    var recommendations := GenerateRecommendations(result, f.loadSecondsText);
    result := result.(recommendations := recommendations);
  }

  /** The technical facts set once the page is loaded: the protocol, the
      domain form, the path depth, the query and the fragment of the URL,
      with the load time and the status code. The mobile flags keep their
      initial values. */
  method UrlFacts(urlObj: ClientAnalyzer.UrlParts, f: PageFacts) returns (technical: Technical)
    ensures technical == PageTechnical(urlObj, f).(renders := false, responsive := false)
  {
    var domainStructure := ClientAnalyzer.ClassifyDomain(urlObj.hostname);
    var pathDepth := ClientAnalyzer.PathDepth(urlObj.pathname);
    technical := Technical(
      urlObj.protocol == "https:",
      StartsWith(urlObj.hostname, "www."),
      domainStructure.Label(),
      pathDepth,
      |urlObj.search| > 0,
      |urlObj.hash| > 0,
      f.loadTime,
      false,
      false,
      f.statusCode);
  }

  /** Whether the browser call of `stage` throws. */
  predicate ThrowsAt(outcome: PageOutcome, stage: CrashStage) {
    outcome.Crashed? && outcome.at == stage
  }

  /** The `try` block of `analyzeSeoServer` and its `catch`: it fills in
      the initial record, under the normalised URL, section by section,
      and stops at the first call that throws. A session that closes
      normally, or whose `browser.close()` throws, has all nine sections
      written, then the scores and the recommendations. */
  method AnalyzePage(parser: ClientAnalyzer.UrlParser, normalizedUrl: string, outcome: PageOutcome) returns (result: ServerResult)
    requires parser(normalizedUrl, None).Success?
    ensures outcome.Crashed? && outcome.at != AtClose ==>
      result == Sections(parser, normalizedUrl, outcome.facts, outcome.at.Index()).(errors := ["Analysis error: " + outcome.message])
    ensures outcome.Crashed? && outcome.at == AtClose ==>
      result == Completed(Sections(parser, normalizedUrl, outcome.facts, 9), outcome.facts).(errors := ["Analysis error: " + outcome.message])
    ensures outcome.Loaded? ==> result == Completed(Sections(parser, normalizedUrl, outcome.facts, 9), outcome.facts)
  {
    var f := outcome.facts;
    var crash := "Analysis error: " + (if outcome.Crashed? then outcome.message else "");
    result := InitialResult(normalizedUrl);
    FailedSetupIsInitial(parser, normalizedUrl, f);

    // launch, new page, viewport, request interception, navigation
    if ThrowsAt(outcome, BeforeLoad) {
      return result.(errors := [crash]);
    }
    // load time, status code and the technical facts from the URL
    result := WriteSection(parser, normalizedUrl, f, result, 1);
    if ThrowsAt(outcome, AtTitle) {
      return result.(errors := [crash]);
    }
    // metadata: the other four queries catch their own errors
    result := WriteSection(parser, normalizedUrl, f, result, 2);
    if ThrowsAt(outcome, AtHeadings) {
      return result.(errors := [crash]);
    }
    // content
    result := WriteSection(parser, normalizedUrl, f, result, 3);
    if ThrowsAt(outcome, AtWordCount) {
      return result.(errors := [crash]);
    }
    result := WriteSection(parser, normalizedUrl, f, result, 4);
    if ThrowsAt(outcome, AtParagraphs) {
      return result.(errors := [crash]);
    }
    result := WriteSection(parser, normalizedUrl, f, result, 5);
    if ThrowsAt(outcome, AtLinks) {
      return result.(errors := [crash]);
    }
    result := WriteSection(parser, normalizedUrl, f, result, 6);
    if ThrowsAt(outcome, AtImages) {
      return result.(errors := [crash]);
    }
    result := WriteSection(parser, normalizedUrl, f, result, 7);
    if ThrowsAt(outcome, AtMobile) {
      return result.(errors := [crash]);
    }
    // mobile viewport
    result := WriteSection(parser, normalizedUrl, f, result, 8);
    if ThrowsAt(outcome, AtContrast) {
      return result.(errors := [crash]);
    }
    // scores and recommendations
    result := ScorePage(result, f);
    // browser.close()
    if ThrowsAt(outcome, AtClose) {
      return result.(errors := [crash]);
    }
  }

  /** The assignments after an awaited call of the `try` block returns:
      section number `written` of the record is written (1 the URL facts,
      the load time and the status code, 2 the metadata, 3 to 7 the
      heading, word, paragraph, link and image counts, 8 the mobile
      flags). */
  method WriteSection(parser: ClientAnalyzer.UrlParser, normalizedUrl: string, f: PageFacts, r: ServerResult, written: nat)
    returns (result: ServerResult)
    requires parser(normalizedUrl, None).Success?
    requires 1 <= written <= 8 && r == Sections(parser, normalizedUrl, f, written - 1)
    ensures result == Sections(parser, normalizedUrl, f, written)
  {
    result := r;
    if written == 1 {
      var technical := UrlFacts(parser(normalizedUrl, None).value, f);
      result := result.(technical := technical);
    } else if written == 2 {
      result := result.(metadata := PageMetadata(f));
    } else if written == 3 {
      var hasProperOrder := HeadingOrder(f.headingLevels);
      var levels := f.headingLevels;
      result := result.(content := result.content.(headingStructure := HeadingStructure(
        LevelCount(levels, 1), LevelCount(levels, 2), LevelCount(levels, 3),
        LevelCount(levels, 4) + LevelCount(levels, 5) + LevelCount(levels, 6),
        hasProperOrder)));
    } else if written == 4 {
      result := result.(content := result.content.(wordCount := RunCount(f.bodyText, IsSpace)));
    } else if written == 5 {
      result := result.(content := result.content.(paragraphCount := f.paragraphCount));
    } else if written == 6 {
      var linkCount := CountLinks(parser, normalizedUrl, f.hrefs);
      result := result.(content := result.content.(linkCount := linkCount));
    } else if written == 7 {
      var images := CountImages(f.alts);
      result := result.(content := result.content.(images := images));
    } else {
      result := result.(technical := result.technical.(renders := f.renders, responsive := f.hasViewportMeta));
    }
  }
}
