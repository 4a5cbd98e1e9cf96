/** The URL-only analyzer (src/lib/client-seo-analyzer.ts): it never fetches
    the page. It normalises the URL, reads the parsed URL's protocol,
    hostname, path, query and fragment, scores the technical side from
    point tables, and lists recommendations. */
module ClientAnalyzer {
  import opened Wrappers
  import opened Text
  import opened Seqs
  import opened Rounding

  // ---------------------------------------------------------------------
  // URLs

  /** The components of a parsed URL that the analyzers read. As in the
      URL Standard, `protocol` keeps its trailing ':', a non-empty
      `search` starts with '?' and a non-empty `hash` with '#'. */
  datatype UrlParts = UrlParts(
    protocol: string, hostname: string, pathname: string, search: string, hash: string)

  /** `new URL(input, base)`: the WHATWG URL parser, given to the model as
      a parameter. `Failure(message)` is the TypeError it throws. */
  type UrlParser = (string, Option<string>) -> Result<UrlParts>

  predicate HasHttpScheme(url: string) {
    StartsWith(url, "http://") || StartsWith(url, "https://")
  }

  /** `normalizeUrl`: prepend `https://` unless the string already starts
      with `http://` or `https://`. */
  function NormalizeUrl(url: string): (r: string)
    ensures HasHttpScheme(r)
    ensures r == url <==> HasHttpScheme(url)
    ensures r == url || r == "https://" + url
  {
    if !StartsWith(url, "http://") && !StartsWith(url, "https://") then "https://" + url else url
  }

  /** Normalising twice is normalising once, so the second normalisation
      inside `analyzeUrlStructure` changes nothing. */
  lemma NormalizeIdempotent(url: string)
    ensures NormalizeUrl(NormalizeUrl(url)) == NormalizeUrl(url)
  {
  }

  /** `isValidUrl`: the normalised string parses as an absolute URL. */
  predicate IsValidUrl(parser: UrlParser, url: string) {
    parser(NormalizeUrl(url), None).Success?
  }

  // ---------------------------------------------------------------------
  // domain form and path depth

  /** The `domainStructure` labels. */
  datatype DomainForm = RootDomain | WwwSubdomain | Subdomain | MultiLevelSubdomain | Other
  {
    function Label(): string {
      match this
      case RootDomain => "Root Domain"
      case WwwSubdomain => "WWW Subdomain"
      case Subdomain => "Subdomain"
      case MultiLevelSubdomain => "Multi-level Subdomain"
      case Other => "Other"
    }
  }

  lemma LabelInjective(a: DomainForm, b: DomainForm)
    requires a.Label() == b.Label()
    ensures a == b
  {
  }

  /** The text of a hostname before its first dot. */
  function FirstLabel(hostname: string): string {
    Split(hostname, IsDot)[0]
  }

  /** The domain form of a hostname, by the number of dots it contains:
      one dot is a root domain, two a subdomain (a `www` one when the first
      label is `www`), three or more a multi-level subdomain. */
  function DomainFormOf(hostname: string): DomainForm {
    var dots := CountChars(hostname, IsDot);
    if dots == 1 then RootDomain
    else if dots == 2 then (if FirstLabel(hostname) == "www" then WwwSubdomain else Subdomain)
    else if dots > 2 then MultiLevelSubdomain
    else Other
  }

  /** The domain-form if-chain of `analyzeUrlStructure` (and of
      `analyzeSeoServer`), on the labels of `hostname.split('.')`. */
  method ClassifyDomain(hostname: string) returns (form: DomainForm)
    ensures form == DomainFormOf(hostname)
    ensures form == Other <==> CountChars(hostname, IsDot) == 0
  {
    var segments := Split(hostname, IsDot);
    SplitLength(hostname, IsDot);
    form := Other;
    if |segments| == 2 {
      form := RootDomain;
    } else if |segments| == 3 && segments[0] == "www" {
      form := WwwSubdomain;
    } else if |segments| == 3 {
      form := Subdomain;
    } else if |segments| > 3 {
      form := MultiLevelSubdomain;
    }
  }

  /** The number of non-empty '/'-separated segments of a path; the path
      "/" has depth 0. */
  function PathDepth(pathname: string): (depth: nat)
    ensures depth == RunCount(pathname, IsSlash)
  {
    SplitNonEmptyIsRunCount(pathname, IsSlash);
    if pathname == "/" then 0 else NonEmptyCount(Split(pathname, IsSlash))
  }

  // ---------------------------------------------------------------------
  // URL structure

  /** `technicalAnalysis` of the result. */
  datatype TechnicalAnalysis = TechnicalAnalysis(
    httpsProtocol: bool,
    domainHasWww: bool,
    domainStructure: DomainForm,
    pathDepth: nat,
    hasQueryParams: bool,
    hasFragment: bool)

  /** What the URL components say, field by field. */
  function UrlFacts(u: UrlParts): TechnicalAnalysis {
    TechnicalAnalysis(
      u.protocol == "https:",
      StartsWith(u.hostname, "www."),
      DomainFormOf(u.hostname),
      RunCount(u.pathname, IsSlash),
      u.search != "",
      u.hash != "")
  }

  /** `analyzeUrlStructure`: parse the normalised URL and read its facts;
      a URL that does not parse throws the parser's error. */
  method AnalyzeUrlStructure(parser: UrlParser, url: string) returns (r: Result<TechnicalAnalysis>)
    ensures parser(NormalizeUrl(url), None).Failure? ==> r == Failure(parser(NormalizeUrl(url), None).error)
    ensures parser(NormalizeUrl(url), None).Success? ==> r == Success(UrlFacts(parser(NormalizeUrl(url), None).value))
  {
    var normalizedUrl := NormalizeUrl(url);
    var parsed := parser(normalizedUrl, None);
    if parsed.Failure? {
      return Failure(parsed.error);
    }
    var urlObj := parsed.value;
    var domainStructure := ClassifyDomain(urlObj.hostname);
    var pathDepth := PathDepth(urlObj.pathname);
    r := Success(TechnicalAnalysis(
      urlObj.protocol == "https:",
      StartsWith(urlObj.hostname, "www."),
      domainStructure,
      pathDepth,
      |urlObj.search| > 0,
      |urlObj.hash| > 0));
  }

  // ---------------------------------------------------------------------
  // scores

  datatype Scores = Scores(metaScore: int, technicalScore: int, contentScore: int, overallScore: int)

  /** The technical point table: 20 for HTTPS; 10 for a root or `www`
      domain, 5 for another subdomain; 15 for the home page, 10 for a
      depth up to 2, 5 up to 4; 5 for a URL without query. The maximum of
      50 is reached exactly for an HTTPS home page of a root or `www`
      domain without query. */
  function TechnicalPoints(a: TechnicalAnalysis): (points: int)
    ensures 0 <= points <= 50
    ensures points == 50 <==>
      a.httpsProtocol && a.domainStructure in {RootDomain, WwwSubdomain} && a.pathDepth == 0 && !a.hasQueryParams
  {
    (if a.httpsProtocol then 20 else 0)
    + (match a.domainStructure
       case RootDomain => 10
       case WwwSubdomain => 10
       case Subdomain => 5
       case _ => 0)
    + (if a.pathDepth == 0 then 15 else if a.pathDepth <= 2 then 10 else if a.pathDepth <= 4 then 5 else 0)
    + (if a.hasQueryParams then 0 else 5)
  }

  /** The scores of an analysis: the technical points, fixed meta (60)
      and content (50) scores, and the 0.4/0.3/0.3 weighted overall
      score, which lies between 33 and 53. */
  function ClientScores(a: TechnicalAnalysis): (s: Scores)
    ensures 0 <= s.technicalScore <= 50
    ensures s.overallScore == Round(4 * s.technicalScore + 3 * s.metaScore + 3 * s.contentScore, 10)
    ensures 33 <= s.overallScore <= 53
  {
    Scores(60, TechnicalPoints(a), 50, Round(4 * TechnicalPoints(a) + 330, 10))
  }

  /** `calculateScores`: the technical score accumulated from the point
      table. */
  method CalculateScores(a: TechnicalAnalysis) returns (s: Scores)
    ensures s == ClientScores(a)
  {
    var technicalScore := 0;
    if a.httpsProtocol {
      technicalScore := technicalScore + 20;
    }
    if a.domainStructure == WwwSubdomain || a.domainStructure == RootDomain {
      technicalScore := technicalScore + 10;
    } else if a.domainStructure == Subdomain {
      technicalScore := technicalScore + 5;
    }
    if a.pathDepth == 0 {
      technicalScore := technicalScore + 15;
    } else if a.pathDepth <= 2 {
      technicalScore := technicalScore + 10;
    } else if a.pathDepth <= 4 {
      technicalScore := technicalScore + 5;
    }
    if !a.hasQueryParams {
      technicalScore := technicalScore + 5;
    }
    var metaScore := 60;
    var contentScore := 50;
    var overallScore := Round(technicalScore * 4 + metaScore * 3 + contentScore * 3, 10);
    s := Scores(metaScore, technicalScore, contentScore, overallScore);
  }

  // ---------------------------------------------------------------------
  // recommendations

  /** The URL-specific tips, in the order the rules are written. */
  datatype ClientTip = UseHttps | ConsistentWww | FlattenPath | CleanQuery | FragmentIgnored

  const ClientRules: seq<ClientTip> := [UseHttps, ConsistentWww, FlattenPath, CleanQuery, FragmentIgnored]

  function RuleIndex(t: ClientTip): int {
    match t
    case UseHttps => 0
    case ConsistentWww => 1
    case FlattenPath => 2
    case CleanQuery => 3
    case FragmentIgnored => 4
  }

  /** When each tip applies. */
  predicate Fires(a: TechnicalAnalysis, t: ClientTip) {
    match t
    case UseHttps => !a.httpsProtocol
    case ConsistentWww => !a.domainHasWww && a.domainStructure == RootDomain
    case FlattenPath => a.pathDepth > 3
    case CleanQuery => a.hasQueryParams
    case FragmentIgnored => a.hasFragment
  }

  function FiresOn(a: TechnicalAnalysis): ClientTip -> bool {
    t => Fires(a, t)
  }

  const HttpsTip := "Implement HTTPS to secure your website and improve search rankings."
  const WwwTip := "Consider using a consistent www or non-www version of your domain and set up proper redirects."
  const DepthTip := "Your URL path is quite deep. Consider a flatter site structure for better SEO."
  const QueryTip := "Your URL contains query parameters. Consider using clean, descriptive URLs without parameters when possible."
  const FragmentTip := "Your URL contains a fragment identifier (#). Search engines typically ignore content after the #."

  function Message(t: ClientTip): string {
    match t
    case UseHttps => HttpsTip
    case ConsistentWww => WwwTip
    case FlattenPath => DepthTip
    case CleanQuery => QueryTip
    case FragmentIgnored => FragmentTip
  }

  /** The nine tips every analysis ends with. */
  const GenericTips: seq<string> := [
    "Ensure your page has a descriptive title tag (ideally 50-60 characters).",
    "Add a meta description that summarizes your page content (ideally 150-160 characters).",
    "Use a single H1 heading that clearly describes your page content.",
    "Structure your content with H2-H6 subheadings for better readability and SEO.",
    "Include relevant keywords in your content naturally, avoiding keyword stuffing.",
    "Optimize images with descriptive file names and ALT text.",
    "Ensure your website is mobile-friendly and loads quickly.",
    "Add internal links to other relevant pages on your site.",
    "Include external links to authoritative sources when appropriate."
  ]

  /** The tips that apply, in rule order. */
  function FiredTips(a: TechnicalAnalysis): seq<ClientTip> {
    Filter(ClientRules, FiresOn(a))
  }

  /** A tip is listed exactly when its rule applies. */
  lemma FiredTipsExactly(a: TechnicalAnalysis, t: ClientTip)
    ensures t in FiredTips(a) <==> Fires(a, t)
  {
    var i := RuleIndex(t);
    assert ClientRules[i] == t;
  }

  /** The listed tips keep the order in which the rules are written. */
  lemma FiredTipsInRuleOrder(a: TechnicalAnalysis)
    ensures IncreasingBy(FiredTips(a), RuleIndex)
  {
    assert forall i :: 0 <= i < |ClientRules| ==> RuleIndex(ClientRules[i]) == i;
    FilterKeepsIncreasing(ClientRules, FiresOn(a), RuleIndex);
  }

  /** What `generateRecommendations` returns: the messages of the tips
      that apply, in rule order, then the nine generic tips. */
  function Recommendations(a: TechnicalAnalysis): (r: seq<string>)
    ensures 9 <= |r| <= 14
    ensures r[|r| - 9..] == GenericTips
  {
    Map(FiredTips(a), Message) + GenericTips
  }

  /** The messages of the first `k` rules that apply, as the first `k`
      conditional pushes leave them. */
  function TipMessagesUpTo(a: TechnicalAnalysis, k: nat): seq<string>
    requires k <= |ClientRules|
  {
    if k == 0 then []
    else TipMessagesUpTo(a, k - 1) + (if Fires(a, ClientRules[k - 1]) then [Message(ClientRules[k - 1])] else [])
  }

  lemma {:induction false} TipMessagesUpToIsMap(a: TechnicalAnalysis, k: nat)
    requires k <= |ClientRules|
    ensures TipMessagesUpTo(a, k) == Map(FilterUpTo(ClientRules, k, FiresOn(a)), Message)
  {
    if k > 0 {
      TipMessagesUpToIsMap(a, k - 1);
      MapSnoc(FilterUpTo(ClientRules, k - 1, FiresOn(a)), ClientRules[k - 1], Message);
    }
  }

  lemma TipMessagesAreFiredTips(a: TechnicalAnalysis)
    ensures TipMessagesUpTo(a, 5) == Map(FiredTips(a), Message)
  {
    TipMessagesUpToIsMap(a, 5);
    FilterUpToIsFilter(ClientRules, 5, FiresOn(a));
    assert ClientRules[..5] == ClientRules;
  }

  /** `generateRecommendations`: the applicable URL tips in rule order,
      then the nine generic tips. */
  method GenerateRecommendations(a: TechnicalAnalysis) returns (recs: seq<string>)
    ensures recs == Recommendations(a)
  {
    recs := [];
    if !a.httpsProtocol {
      recs := recs + [Message(UseHttps)];
    }
    assert recs == TipMessagesUpTo(a, 1);
    if !a.domainHasWww && a.domainStructure == RootDomain {
      recs := recs + [Message(ConsistentWww)];
    }
    assert recs == TipMessagesUpTo(a, 2);
    if a.pathDepth > 3 {
      recs := recs + [Message(FlattenPath)];
    }
    assert recs == TipMessagesUpTo(a, 3);
    if a.hasQueryParams {
      recs := recs + [Message(CleanQuery)];
    }
    assert recs == TipMessagesUpTo(a, 4);
    if a.hasFragment {
      recs := recs + [Message(FragmentIgnored)];
    }
    assert recs == TipMessagesUpTo(a, 5);
    TipMessagesAreFiredTips(a);
    // the nine `push` calls of the generic tips
    recs := recs + GenericTips;
  }

  // ---------------------------------------------------------------------
  // the whole analysis

  datatype SeoAnalysisResult = SeoAnalysisResult(
    url: string,
    scores: Scores,
    technicalAnalysis: TechnicalAnalysis,
    recommendations: seq<string>,
    errors: seq<string>)

  /** `analyzeSeo`: an invalid URL throws "Invalid URL provided" before
      any analysis; otherwise the result describes the normalised URL.
      Its catch block cannot be reached: the validity check has already
      parsed the same normalised string. */
  method AnalyzeSeo(parser: UrlParser, url: string) returns (r: Result<SeoAnalysisResult>)
    ensures r.Failure? <==> !IsValidUrl(parser, url)
    ensures r.Failure? ==> r.error == "Invalid URL provided"
    ensures r.Success? ==>
      var v := r.value;
      var facts := UrlFacts(parser(NormalizeUrl(url), None).value);
      && v.url == NormalizeUrl(url)
      && v.technicalAnalysis == facts
      && v.scores == ClientScores(facts)
      && v.recommendations == Recommendations(facts)
      && v.errors == []
  {
    if !IsValidUrl(parser, url) {
      return Failure("Invalid URL provided");
    }
    var normalizedUrl := NormalizeUrl(url);
    NormalizeIdempotent(url);
    var analysis := AnalyzeUrlStructure(parser, normalizedUrl);
    ghost var facts := UrlFacts(parser(normalizedUrl, None).value);
    assert analysis == Success(facts);
    var urlAnalysis := analysis.value;
    var scores := CalculateScores(urlAnalysis);
    var recommendations := GenerateRecommendations(urlAnalysis);
    r := Success(SeoAnalysisResult(normalizedUrl, scores, urlAnalysis, recommendations, []));
  }

  /** An HTTPS home page of a root domain without `www.`, query or
      fragment (such as https://example.com/) scores the full 50 technical
      points and 53 overall, and its only URL tip is the one about a
      consistent `www` form. */
  lemma RootHomePage(u: UrlParts)
    requires u.protocol == "https:" && CountChars(u.hostname, IsDot) == 1
    requires !StartsWith(u.hostname, "www.")
    requires u.pathname == "/" && u.search == "" && u.hash == ""
    ensures TechnicalPoints(UrlFacts(u)) == 50
    ensures Round(4 * TechnicalPoints(UrlFacts(u)) + 330, 10) == 53
    ensures FiredTips(UrlFacts(u)) == [ConsistentWww]
  {
    var a := UrlFacts(u);
    assert a.httpsProtocol && !a.domainHasWww;
    assert a.domainStructure == RootDomain;
    assert a.pathDepth == 0 by {
      assert RunCount("/", IsSlash) == 0;
    }
    assert !a.hasQueryParams && !a.hasFragment;
    assert TechnicalPoints(a) == 50;
    var r := Round(530, 10);
    assert 20 * r - 10 <= 1060 < 20 * r + 10;
    OnlyWwwTipFires(a);
  }

  /** A root domain without `www`, over HTTPS and with nothing after the
      host, gets only the `www` tip. */
  lemma OnlyWwwTipFires(a: TechnicalAnalysis)
    requires a.httpsProtocol && !a.domainHasWww && a.domainStructure == RootDomain
    requires a.pathDepth == 0 && !a.hasQueryParams && !a.hasFragment
    ensures FiredTips(a) == [ConsistentWww]
  {
    var p := FiresOn(a);
    assert !p(UseHttps) && p(ConsistentWww) && !p(FlattenPath) && !p(CleanQuery) && !p(FragmentIgnored);
    assert FilterUpTo(ClientRules, 5, p) == [ConsistentWww];
    FilterUpToIsFilter(ClientRules, 5, p);
    assert ClientRules[..5] == ClientRules;
  }
}
