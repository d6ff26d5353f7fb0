/**
 * The individual checks of the protection analyser. Each check turns the
 * outcome of one or more HTTP requests (an input: the requests themselves are
 * not modelled) into a detection record with the fields the analyser reports.
 */
module ProtectionChecks {
  import opened PyBase
  import opened Text

  /**
   * What a completed request exposes: status, body length in bytes, headers
   * (names unique up to case, as in the client's case-insensitive mapping),
   * decoded body text and the number of cookies the response set.
   */
  datatype Response = Response(
    status: int,
    contentLength: nat,
    headers: seq<(string, string)>,
    text: string,
    cookieCount: nat)

  /** A request either completes or raises; a raised exception is kept by its message. */
  datatype Probe = Answered(response: Response) | Failed(message: string)

  /** Case-insensitive header lookup. */
  function HeaderGet(headers: seq<(string, string)>, name: string): (r: Option<string>)
    ensures r.None? <==> forall i :: 0 <= i < |headers| ==> Lower(headers[i].0) != Lower(name)
    ensures r.Some? ==> exists i :: 0 <= i < |headers| && Lower(headers[i].0) == Lower(name) && headers[i].1 == r.value
  {
    if headers == [] then None
    else if Lower(headers[0].0) == Lower(name) then Some(headers[0].1)
    else
      var r := HeaderGet(headers[1..], name);
      assert forall i :: 1 <= i < |headers| ==> headers[i] == headers[1..][i - 1];
      r
  }

  /** `headers.get(name, default)`. */
  function HeaderOr(headers: seq<(string, string)>, name: string, default: string): string
  {
    match HeaderGet(headers, name)
    case Some(v) => v
    case None => default
  }

  // ---------------------------------------------------------------------------
  // Basic access

  datatype BasicAccess = BasicAccess(
    status: int,
    accessible: bool,
    contentLength: nat,
    headers: seq<(string, string)>,
    error: Option<string>)

  /** One plain request; only a status of exactly 200 counts as accessible. */
  function CheckBasicAccess(p: Probe): (r: BasicAccess)
    ensures r.accessible <==> p.Answered? && p.response.status == 200
    ensures p.Failed? ==> r.status == 0 && r.contentLength == 0 && r.headers == [] && r.error == Some(p.message)
    ensures p.Answered? ==> r.status == p.response.status && r.error.None?
  {
    match p
    case Answered(resp) => BasicAccess(resp.status, resp.status == 200, resp.contentLength, resp.headers, None)
    case Failed(msg) => BasicAccess(0, false, 0, [], Some(msg))
  }

  /** The record's flag agrees with its own status field: a failed request reports status 0. */
  lemma AccessibleIffStatus200(p: Probe)
    ensures CheckBasicAccess(p).accessible <==> CheckBasicAccess(p).status == 200
  {
  }

  // ---------------------------------------------------------------------------
  // User-Agent filtering

  /** The four agents tried in turn: a browser, the requests library, curl and a bot. */
  const ProbeAgents: seq<string> := [
    "Mozilla/5.0 (Windows NT 10.0; Win64; x64) AppleWebKit/537.36",
    "Python-requests/2.25.1",
    "curl/7.68.0",
    "bot/1.0"
  ]

  /** A User-Agent probe counts as blocked if it raised or was answered with 403, 429 or 503. */
  predicate BlockedForAgent(p: Probe)
  {
    p.Failed? || p.response.status in {403, 429, 503}
  }

  datatype AgentProbe = AgentProbe(
    userAgent: string,
    status: int,
    contentLength: nat,
    blocked: bool,
    error: Option<string>)

  function AgentRecord(ua: string, p: Probe): (r: AgentProbe)
    ensures r.userAgent == ua && (r.blocked <==> BlockedForAgent(p))
    ensures r.error.Some? <==> p.Failed?
  {
    match p
    case Answered(resp) => AgentProbe(ua, resp.status, resp.contentLength, resp.status in {403, 429, 503}, None)
    case Failed(msg) => AgentProbe(ua, 0, 0, true, Some(msg))
  }

  predicate IsBlocked(r: AgentProbe)
  {
    r.blocked
  }

  datatype UserAgentCheck = UserAgentCheck(
    results: seq<AgentProbe>,
    detected: bool,
    strength: real,
    description: string)

  /**
   * One request per agent in `ProbeAgents`; `probe(ua)` is the outcome of the
   * request sent with that agent.
   */
  function CheckUserAgent(probe: string -> Probe): (r: UserAgentCheck)
    ensures |r.results| == |ProbeAgents| == 4
    ensures forall i :: 0 <= i < 4 ==>
              r.results[i].userAgent == ProbeAgents[i] && (r.results[i].blocked <==> BlockedForAgent(probe(ProbeAgents[i])))
    ensures r.detected <==> exists i :: 0 <= i < 4 && BlockedForAgent(probe(ProbeAgents[i]))
    ensures 0.0 <= r.strength <= 1.0
    ensures r.strength == 1.0 <==> forall i :: 0 <= i < 4 ==> BlockedForAgent(probe(ProbeAgents[i]))
  {
    var results := seq(4, i requires 0 <= i < 4 => AgentRecord(ProbeAgents[i], probe(ProbeAgents[i])));
    var blocked := CountIf(results, IsBlocked);
    CountIfPositive(results, IsBlocked);
    CountIfAll(results, IsBlocked);
    UserAgentCheck(
      results,
      blocked > 0,
      blocked as real / 4.0,
      "Заблокировано " + NatStr(blocked) + " из 4 User-Agent")
  }

  // ---------------------------------------------------------------------------
  // Rate limiting

  const RateRequests: nat := 10

  /** A rate-limit probe counts as blocked if it raised or was answered with 429 or 503. */
  predicate BlockedForRate(p: Probe)
  {
    p.Failed? || p.response.status in {429, 503}
  }

  datatype RateProbe = RateProbe(requestNum: nat, status: int, blocked: bool, error: Option<string>)

  function RateRecord(i: nat, p: Probe): (r: RateProbe)
    ensures r.requestNum == i + 1 && (r.blocked <==> BlockedForRate(p))
  {
    match p
    case Answered(resp) => RateProbe(i + 1, resp.status, resp.status in {429, 503}, None)
    case Failed(msg) => RateProbe(i + 1, 0, true, Some(msg))
  }

  predicate RateBlocked(r: RateProbe)
  {
    r.blocked
  }

  datatype RateCheck = RateCheck(
    results: seq<RateProbe>,
    totalRequests: nat,
    blockedRequests: nat,
    detected: bool,
    description: string)

  /** Ten requests in a row; `probe(i)` is the outcome of the request numbered `i + 1`. */
  function CheckRateLimiting(probe: nat -> Probe): (r: RateCheck)
    ensures |r.results| == r.totalRequests == RateRequests
    ensures forall i :: 0 <= i < RateRequests ==>
              r.results[i].requestNum == i + 1 && (r.results[i].blocked <==> BlockedForRate(probe(i)))
    ensures r.blockedRequests <= r.totalRequests
    ensures r.detected <==> r.blockedRequests > 0
    ensures r.detected <==> exists i :: 0 <= i < RateRequests && BlockedForRate(probe(i))
  {
    var results := seq(RateRequests, i requires 0 <= i < RateRequests => RateRecord(i, probe(i)));
    var blocked := CountIf(results, RateBlocked);
    CountIfPositive(results, RateBlocked);
    assert forall i :: 0 <= i < RateRequests ==> (RateBlocked(results[i]) <==> BlockedForRate(probe(i)));
    assert (exists i :: 0 <= i < |results| && RateBlocked(results[i]))
           <==> exists i :: 0 <= i < RateRequests && BlockedForRate(probe(i));
    RateCheck(
      results,
      RateRequests,
      blocked,
      blocked > 0,
      "Заблокировано " + NatStr(blocked) + " из 10 запросов")
  }

  // ---------------------------------------------------------------------------
  // Cloudflare

  datatype CloudflareCheck =
    | CloudflareChecked(detected: bool, indicatorsFound: nat, serverHeader: string, cfRay: string, description: string)
    | CloudflareFailed(message: string)

  /** The `Server` header names Cloudflare. */
  predicate ServerIsCloudflare(resp: Response)
  {
    Contains(Lower(HeaderOr(resp.headers, "server", "")), "cloudflare")
  }

  /** A `CF-RAY` header is present, in any letter case. */
  predicate HasRayHeader(resp: Response)
  {
    HeaderGet(resp.headers, "cf-ray").Some?
  }

  /** The Cloudflare indicator numbered `k`, in the analyser's order. */
  predicate CloudflareIndicator(resp: Response, k: nat)
  {
    match k
    case 0 => ServerIsCloudflare(resp)
    case 1 => HasRayHeader(resp)
    case 2 => Contains(HeaderOr(resp.headers, "set-cookie", ""), "__cfduid")
    case 3 => Contains(Lower(resp.text), "checking your browser")
    case 4 => Contains(Lower(resp.text), "cloudflare ray id")
    case 5 => Contains(resp.text, "cf-browser-verification")
    case _ => false
  }

  /** The six Cloudflare indicators. */
  function CloudflareIndicators(resp: Response): (flags: seq<bool>)
    ensures |flags| == 6
    ensures forall k :: 0 <= k < 6 ==> flags[k] == CloudflareIndicator(resp, k)
  {
    seq(6, k requires 0 <= k < 6 => CloudflareIndicator(resp, k))
  }

  predicate Holds(b: bool)
  {
    b
  }

  function CheckCloudflare(p: Probe): (r: CloudflareCheck)
    ensures r.CloudflareFailed? <==> p.Failed?
    ensures r.CloudflareChecked? ==>
              r.indicatorsFound <= 6 && (r.detected <==> r.indicatorsFound > 0)
              && (r.detected <==> exists i :: 0 <= i < 6 && CloudflareIndicators(p.response)[i])
              && r.cfRay == HeaderOr(p.response.headers, "cf-ray", "")
  {
    match p
    case Failed(msg) => CloudflareFailed(msg)
    case Answered(resp) =>
      var flags := CloudflareIndicators(resp);
      var found := CountIf(flags, Holds);
      CountIfPositive(flags, Holds);
      var detected := found > 0;
      CloudflareChecked(
        detected, found,
        HeaderOr(resp.headers, "server", ""),
        HeaderOr(resp.headers, "cf-ray", ""),
        if detected then "Cloudflare обнаружен" else "Cloudflare не обнаружен")
  }

  /** Whether the check counts Cloudflare as present; a failed request counts as absent. */
  function CloudflareDetected(c: CloudflareCheck): bool
  {
    c.CloudflareChecked? && c.detected
  }

  /** A `CF-RAY` header, in any letter case, is enough for detection. */
  lemma RayHeaderMeansCloudflare(resp: Response)
    requires HasRayHeader(resp)
    ensures CloudflareDetected(CheckCloudflare(Answered(resp)))
  {
    assert CloudflareIndicator(resp, 1);
  }

  /** The challenge page's wording, in any letter case, is enough for detection. */
  lemma ChallengePageMeansCloudflare(resp: Response)
    requires Contains(Lower(resp.text), "checking your browser")
    ensures CloudflareDetected(CheckCloudflare(Answered(resp)))
  {
    assert CloudflareIndicator(resp, 3);
  }

  // ---------------------------------------------------------------------------
  // JavaScript

  /**
   * The rendered-browser side of the JavaScript check: no browser automation
   * available, a rendered page with the similarity ratio of the two bodies
   * (a number in [0, 1] computed outside the model), or a browser failure.
   */
  datatype BrowserRun = NoBrowser | Rendered(similarity: real) | BrowserFailed(message: string)

  datatype JsCheck =
    | JsCompared(required: bool, difference: real, similarity: real, description: string)
    | JsHeuristic(required: bool, indicatorsFound: nat, description: string)
    | JsFailed(message: string)

  /** The body indicator numbered `k` of the check made without a browser. */
  predicate JsIndicator(body: string, k: nat)
  {
    match k
    case 0 => CountOccurrences(Fold(body), "<script") > 10
    case 1 => Contains(Lower(body), "loading")
    case 2 => Contains(Lower(body), "please wait")
    case 3 => Contains(Lower(body), "javascript")
    case 4 => |body| < 1000
    case _ => false
  }

  /** The five body indicators, in the analyser's order. */
  function JsIndicators(body: string): (flags: seq<bool>)
    ensures |flags| == 5
    ensures forall k :: 0 <= k < 5 ==> flags[k] == JsIndicator(body, k)
  {
    seq(5, k requires 0 <= k < 5 => JsIndicator(body, k))
  }

  /**
   * A plain request first; its failure ends the check. With a browser the
   * verdict is whether more than 30% of the content differs; without one, at
   * least two of the five indicators must hold. `formatPercent` renders a
   * percentage with one decimal, as the analyser's format string does.
   */
  function CheckJavaScript(plain: Probe, browser: BrowserRun, formatPercent: real -> string): (r: JsCheck)
    ensures plain.Failed? ==> r == JsFailed(plain.message)
    ensures plain.Answered? && browser.BrowserFailed? ==> r == JsFailed(browser.message)
    ensures plain.Answered? && browser.Rendered? ==>
              r.JsCompared? && (r.required <==> browser.similarity < 0.7)
              && r.similarity + r.difference == 100.0
    ensures plain.Answered? && browser.NoBrowser? ==>
              r.JsHeuristic? && r.indicatorsFound <= 5 && (r.required <==> r.indicatorsFound >= 2)
  {
    match plain
    case Failed(msg) => JsFailed(msg)
    case Answered(resp) =>
      match browser
      case BrowserFailed(msg) => JsFailed(msg)
      case Rendered(similarity) =>
        var difference := 1.0 - similarity;
        JsCompared(
          difference > 0.3, difference * 100.0, similarity * 100.0,
          "Контент различается на " + formatPercent(difference * 100.0) + "%")
      case NoBrowser =>
        var found := CountIf(JsIndicators(resp.text), Holds);
        var required := found >= 2;
        JsHeuristic(required, found, if required then "JavaScript возможно требуется" else "JavaScript не требуется")
  }

  /** Whether the check reports that JavaScript is required; failures report false. */
  function JsRequired(c: JsCheck): bool
  {
    !c.JsFailed? && c.required
  }

  /** Without a browser, a short page that mentions JavaScript is judged to need it. */
  lemma ShortJavaScriptPageNeedsJs(resp: Response, formatPercent: real -> string)
    requires |resp.text| < 1000 && Contains(Lower(resp.text), "javascript")
    ensures JsRequired(CheckJavaScript(Answered(resp), NoBrowser, formatPercent))
  {
    var flags := JsIndicators(resp.text);
    assert JsIndicator(resp.text, 3) && JsIndicator(resp.text, 4);
    assert flags == flags[..3] + [flags[3], flags[4]];
    CountIfAppend(flags[..3], [flags[3], flags[4]], Holds);
    assert CountIf([flags[3], flags[4]], Holds) == 2;
  }

  // ---------------------------------------------------------------------------
  // CAPTCHA

  const CaptchaMarkers: seq<string> := [
    "recaptcha", "captcha", "hcaptcha", "solve the puzzle", "verify you are human", "geetest"
  ]

  datatype CaptchaCheck =
    | CaptchaChecked(detected: bool, indicatorsFound: nat, description: string)
    | CaptchaFailed(message: string)

  function CaptchaIndicators(body: string): (flags: seq<bool>)
    ensures |flags| == |CaptchaMarkers|
    ensures forall i :: 0 <= i < |flags| ==> (flags[i] <==> Contains(Lower(body), CaptchaMarkers[i]))
  {
    var content := Lower(body);
    seq(|CaptchaMarkers|, i requires 0 <= i < |CaptchaMarkers| => Contains(content, CaptchaMarkers[i]))
  }

  /** The body, lowered, is searched for the six markers. */
  function CheckCaptcha(p: Probe): (r: CaptchaCheck)
    ensures r.CaptchaFailed? <==> p.Failed?
    ensures r.CaptchaChecked? ==>
              r.indicatorsFound <= 6 && (r.detected <==> r.indicatorsFound > 0)
              && (r.detected <==> exists i :: 0 <= i < 6 && Contains(Lower(p.response.text), CaptchaMarkers[i]))
  {
    match p
    case Failed(msg) => CaptchaFailed(msg)
    case Answered(resp) =>
      var flags := CaptchaIndicators(resp.text);
      var found := CountIf(flags, Holds);
      CountIfPositive(flags, Holds);
      CaptchaChecked(found > 0, found, if found > 0 then "Капча обнаружена" else "Капча не обнаружена")
  }

  function CaptchaDetected(c: CaptchaCheck): bool
  {
    c.CaptchaChecked? && c.detected
  }

  /** "recaptcha" contains "captcha", so a reCAPTCHA page always shows two indicators. */
  lemma RecaptchaCountsTwice(resp: Response)
    requires Contains(Lower(resp.text), "recaptcha")
    ensures CheckCaptcha(Answered(resp)).indicatorsFound >= 2
  {
    var content := Lower(resp.text);
    assert "recaptcha"[2..] == "captcha";
    OccursAtWitness("recaptcha", "captcha", 2);
    ContainsTransitive(content, "recaptcha", "captcha");
    var flags := CaptchaIndicators(resp.text);
    assert flags[0] && flags[1];
    assert flags == [flags[0], flags[1]] + flags[2..];
    CountIfAppend([flags[0], flags[1]], flags[2..], Holds);
    assert CountIf([flags[0], flags[1]], Holds) == 2;
  }

  // ---------------------------------------------------------------------------
  // Cookies

  datatype CookieCheck =
    | CookieChecked(used: bool, count: nat, description: string)
    | CookieFailed(message: string)

  /**
   * A request on the shared session, then one on a new session; the cookies
   * the second response sets are counted. The second request is only made
   * when the first did not raise.
   */
  function CheckCookies(first: Probe, second: Probe): (r: CookieCheck)
    ensures first.Failed? ==> r == CookieFailed(first.message)
    ensures first.Answered? && second.Failed? ==> r == CookieFailed(second.message)
    ensures first.Answered? && second.Answered? ==>
              r.CookieChecked? && r.count == second.response.cookieCount && (r.used <==> r.count > 0)
  {
    match first
    case Failed(msg) => CookieFailed(msg)
    case Answered(_) =>
      match second
      case Failed(msg) => CookieFailed(msg)
      case Answered(resp) =>
        CookieChecked(resp.cookieCount > 0, resp.cookieCount, "Используется " + NatStr(resp.cookieCount) + " cookies")
  }

  function CookiesUsed(c: CookieCheck): bool
  {
    c.CookieChecked? && c.used
  }

  // ---------------------------------------------------------------------------
  // Bypass methods

  /** The page source the automated browser ends up with, or its failure. */
  datatype ChromeRun = ChromePage(source: string) | ChromeFailed(message: string)

  /**
   * The outcome of each bypass attempt. An optional method is `None` when the
   * library it needs is not installed, and is then not attempted.
   */
  datatype BypassProbes = BypassProbes(
    plain: Probe,
    session: Probe,
    fakeUserAgent: Option<Probe>,
    cloudscraper: Option<Probe>,
    chrome: Option<ChromeRun>)

  datatype BypassResult = BypassResult(success: bool, status: Option<int>, error: Option<string>, description: string)

  /** A request-based method succeeds when it is answered with status 200. */
  function RequestMethod(p: Probe, description: string): (r: BypassResult)
    ensures r.success <==> p.Answered? && p.response.status == 200
    ensures r.status.Some? <==> p.Answered?
    ensures r.error.Some? <==> p.Failed?
    ensures r.description == description
  {
    match p
    case Answered(resp) => BypassResult(resp.status == 200, Some(resp.status), None, description)
    case Failed(msg) => BypassResult(false, None, Some(msg), description)
  }

  /** The browser method succeeds when its page source, lowered, does not mention "error". */
  function ChromeMethod(c: ChromeRun): (r: BypassResult)
    ensures r.success <==> c.ChromePage? && !Contains(Lower(c.source), "error")
    ensures r.status.None?
    ensures r.error.Some? <==> c.ChromeFailed?
  {
    match c
    case ChromePage(source) => BypassResult(!Contains(Lower(source), "error"), None, None, "Undetected Chrome")
    case ChromeFailed(msg) => BypassResult(false, None, Some(msg), "Undetected Chrome")
  }

  /** The method names that are attempted, in the analyser's order. */
  function AttemptedMethods(b: BypassProbes): (names: seq<string>)
    ensures 2 <= |names| <= 5 && names[..2] == ["requests", "requests_session"]
    ensures "fake_useragent" in names <==> b.fakeUserAgent.Some?
    ensures "cloudscraper" in names <==> b.cloudscraper.Some?
    ensures "undetected_chrome" in names <==> b.chrome.Some?
  {
    var fake := if b.fakeUserAgent.Some? then ["fake_useragent"] else [];
    var scraper := if b.cloudscraper.Some? then ["cloudscraper"] else [];
    var chrome := if b.chrome.Some? then ["undetected_chrome"] else [];
    var names := ["requests", "requests_session"] + fake + scraper + chrome;
    assert names[..2] == ["requests", "requests_session"];
    assert forall x :: x in names <==> x in ["requests", "requests_session"] || x in fake || x in scraper || x in chrome;
    names
  }

  /** An optional method's entry: present exactly when its outcome is. */
  function OptionalEntry<X>(name: string, outcome: Option<X>, run: X -> BypassResult): (r: seq<(string, BypassResult)>)
    ensures Firsts(r) == if outcome.Some? then [name] else []
    ensures outcome.Some? ==> r == [(name, run(outcome.value))]
  {
    match outcome
    case Some(x) => [(name, run(x))]
    case None => []
  }

  function FakeUserAgentMethod(p: Probe): BypassResult
  {
    RequestMethod(p, "Fake User-Agent")
  }

  function CloudscraperMethod(p: Probe): BypassResult
  {
    RequestMethod(p, "CloudScraper")
  }

  /** Tries every available method once, in order, and records each outcome under its name. */
  function TestBypassMethods(b: BypassProbes): (r: seq<(string, BypassResult)>)
    ensures Firsts(r) == AttemptedMethods(b)
    ensures r[0].1 == RequestMethod(b.plain, "Стандартный requests")
    ensures r[1].1 == RequestMethod(b.session, "Requests с сессией")
    ensures b.chrome.Some? ==> r[|r| - 1] == ("undetected_chrome", ChromeMethod(b.chrome.value))
  {
    var basic := [("requests", RequestMethod(b.plain, "Стандартный requests")),
                  ("requests_session", RequestMethod(b.session, "Requests с сессией"))];
    var fake := OptionalEntry("fake_useragent", b.fakeUserAgent, FakeUserAgentMethod);
    var scraper := OptionalEntry("cloudscraper", b.cloudscraper, CloudscraperMethod);
    var chrome := OptionalEntry("undetected_chrome", b.chrome, ChromeMethod);
    assert Firsts(basic) == ["requests", "requests_session"] by {
      assert Firsts(basic)[0] == "requests" && Firsts(basic)[1] == "requests_session";
    }
    FirstsAppend(basic, fake);
    FirstsAppend(basic + fake, scraper);
    FirstsAppend(basic + fake + scraper, chrome);
    basic + fake + scraper + chrome
  }
}
