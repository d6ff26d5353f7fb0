/**
 * The protection analyser's verdict: each check's detected flag is mapped to a
 * fixed score, the scores are summed, the sum is bucketed into a complexity
 * level, and the bypass attempts are summarised. A failed basic request
 * short-circuits everything else.
 */
module Protection {
  import opened PyBase
  import opened Text
  import opened JsonValue
  import opened ProtectionChecks

  /**
   * Everything the analyser observes about one site: the outcome of every
   * request it would send, the browser's verdict, and the one-decimal
   * rendering of a percentage.
   */
  datatype Observations = Observations(
    basic: Probe,
    userAgent: string -> Probe,
    rate: nat -> Probe,
    cloudflare: Probe,
    jsPlain: Probe,
    browser: BrowserRun,
    captcha: Probe,
    cookiesFirst: Probe,
    cookiesSecond: Probe,
    bypass: BypassProbes,
    formatPercent: real -> string)

  /** The seven mechanisms, in the order the report lists them. */
  datatype Kind = BasicAccessKind | UserAgentKind | RateLimitingKind | CloudflareKind | JavaScriptKind | CaptchaKind | CookiesKind

  const Kinds: seq<Kind> := [BasicAccessKind, UserAgentKind, RateLimitingKind, CloudflareKind, JavaScriptKind, CaptchaKind, CookiesKind]

  function KindName(k: Kind): string
  {
    match k
    case BasicAccessKind => "basic_access"
    case UserAgentKind => "user_agent"
    case RateLimitingKind => "rate_limiting"
    case CloudflareKind => "cloudflare"
    case JavaScriptKind => "javascript"
    case CaptchaKind => "captcha"
    case CookiesKind => "cookies"
  }

  /** The two-valued score table: a detected mechanism scores the first value, an undetected one the second. */
  function Score(k: Kind, detected: bool): (s: nat)
    ensures s <= 40
  {
    match k
    case BasicAccessKind => if detected then 10 else 0
    case UserAgentKind => if detected then 20 else 5
    case RateLimitingKind => if detected then 15 else 5
    case CloudflareKind => if detected then 25 else 0
    case JavaScriptKind => if detected then 30 else 10
    case CaptchaKind => if detected then 40 else 0
    case CookiesKind => if detected then 10 else 5
  }

  /** Detection always raises a mechanism's score, so the total is monotone in every flag. */
  lemma DetectionRaisesScore(k: Kind)
    ensures Score(k, true) > Score(k, false)
  {
  }

  datatype Mechanism = Mechanism(kind: Kind, detected: bool, score: nat, description: string)

  function Scored(k: Kind, detected: bool, description: string): (m: Mechanism)
    ensures m.kind == k && m.detected == detected && m.score == Score(k, detected)
  {
    Mechanism(k, detected, Score(k, detected), description)
  }

  function SumScores(ms: seq<Mechanism>): nat
  {
    if ms == [] then 0 else ms[0].score + SumScores(ms[1..])
  }

  // ---------------------------------------------------------------------------
  // Complexity level

  datatype Level = Low | Medium | High | Critical

  function LevelName(l: Level): string
  {
    match l
    case Low => "LOW"
    case Medium => "MEDIUM"
    case High => "HIGH"
    case Critical => "CRITICAL"
  }

  function Rank(l: Level): nat
  {
    match l
    case Low => 0
    case Medium => 1
    case High => 2
    case Critical => 3
  }

  predicate Reaches(total: int, threshold: int)
  {
    threshold <= total
  }

  /** The level of a total: its rank is the number of thresholds 40, 60 and 80 the total reaches. */
  function Tier(total: int): (l: Level)
    ensures Rank(l) == CountIf([40, 60, 80], t => Reaches(total, t))
  {
    if total >= 80 then Critical
    else if total >= 60 then High
    else if total >= 40 then Medium
    else Low
  }

  /** A higher total never gives a lower level. */
  lemma TierMonotone(a: int, b: int)
    requires a <= b
    ensures Rank(Tier(a)) <= Rank(Tier(b))
  {
  }

  // ---------------------------------------------------------------------------
  // Bypass summary

  datatype BypassSummary = NoSuccess | BestMethod(name: string, rate: real)

  predicate Succeeded(m: (string, BypassResult))
  {
    m.1.success
  }

  /** The first successful method, and the share of methods that succeeded, as a percentage. */
  function Summarize(methods: seq<(string, BypassResult)>): (s: BypassSummary)
    ensures s.NoSuccess? <==> forall i :: 0 <= i < |methods| ==> !methods[i].1.success
    ensures s.BestMethod? ==>
              exists i :: 0 <= i < |methods| && methods[i].0 == s.name && methods[i].1.success
                          && forall j :: 0 <= j < i ==> !methods[j].1.success
    ensures s.BestMethod? ==>
              0.0 < s.rate <= 100.0 && s.rate == CountIf(methods, Succeeded) as real * 100.0 / |methods| as real
  {
    CountIfPositive(methods, Succeeded);
    var n := CountIf(methods, Succeeded);
    if n == 0 then
      assert forall i :: 0 <= i < |methods| ==> (Succeeded(methods[i]) <==> methods[i].1.success);
      NoSuccess
    else
      var rate := n as real * 100.0 / |methods| as real;
      PercentBounds(n, |methods|);
      BestMethod(FirstSuccess(methods), rate)
  }

  /** A share of `part` out of `whole` items, as a percentage, lies in (0, 100]. */
  lemma PercentBounds(part: nat, whole: nat)
    requires 0 < part <= whole
    ensures 0.0 < part as real * 100.0 / whole as real <= 100.0
  {
    var r := part as real * 100.0 / whole as real;
    assert r * whole as real == part as real * 100.0;
    assert part as real * 100.0 <= whole as real * 100.0;
  }

  function FirstSuccess(methods: seq<(string, BypassResult)>): (name: string)
    requires exists i :: 0 <= i < |methods| && methods[i].1.success
    ensures exists i :: 0 <= i < |methods| && methods[i].0 == name && methods[i].1.success
                        && forall j :: 0 <= j < i ==> !methods[j].1.success
  {
    if methods[0].1.success then methods[0].0
    else
      var name := FirstSuccess(methods[1..]);
      var i :| 0 <= i < |methods[1..]| && methods[1..][i].0 == name && methods[1..][i].1.success
               && forall j :: 0 <= j < i ==> !methods[1..][j].1.success;
      assert methods[i + 1] == methods[1..][i];
      assert forall j :: 1 <= j < i + 1 ==> methods[j] == methods[1..][j - 1];
      name
  }

  // ---------------------------------------------------------------------------
  // The report

  datatype ProtectionReport = ProtectionReport(
    url: string,
    timestamp: string,
    mechanisms: seq<Mechanism>,
    bypass: seq<(string, BypassResult)>,
    totalScore: int,
    level: Level,
    summary: Option<BypassSummary>)

  function BasicDescription(b: BasicAccess): string
  {
    "Статус: " + IntStr(b.status) + ", Размер: " + NatStr(b.contentLength) + " байт"
  }

  function CloudflareDescription(c: CloudflareCheck): string
  {
    match c
    case CloudflareChecked(_, _, _, _, d) => d
    case CloudflareFailed(_) => "Ошибка проверки Cloudflare"
  }

  function JsDescription(c: JsCheck): string
  {
    match c
    case JsCompared(_, _, _, d) => d
    case JsHeuristic(_, _, d) => d
    case JsFailed(_) => "Ошибка проверки JavaScript"
  }

  function CaptchaDescription(c: CaptchaCheck): string
  {
    match c
    case CaptchaChecked(_, _, d) => d
    case CaptchaFailed(_) => "Ошибка проверки капчи"
  }

  function CookieDescription(c: CookieCheck): string
  {
    match c
    case CookieChecked(_, _, d) => d
    case CookieFailed(_) => "Ошибка проверки cookies"
  }

  /** The outcome of every check, each computed from its own requests. */
  datatype Checks = Checks(
    basic: BasicAccess,
    userAgent: UserAgentCheck,
    rate: RateCheck,
    cloudflare: CloudflareCheck,
    javascript: JsCheck,
    captcha: CaptchaCheck,
    cookies: CookieCheck)

  function RunChecks(obs: Observations): (c: Checks)
    ensures c.basic == CheckBasicAccess(obs.basic)
  {
    Checks(
      CheckBasicAccess(obs.basic),
      CheckUserAgent(obs.userAgent),
      CheckRateLimiting(obs.rate),
      CheckCloudflare(obs.cloudflare),
      CheckJavaScript(obs.jsPlain, obs.browser, obs.formatPercent),
      CheckCaptcha(obs.captcha),
      CheckCookies(obs.cookiesFirst, obs.cookiesSecond))
  }

  /** The flag each check contributes to its mechanism; a check that failed contributes false. */
  function Detected(c: Checks, k: Kind): bool
  {
    match k
    case BasicAccessKind => c.basic.accessible
    case UserAgentKind => c.userAgent.detected
    case RateLimitingKind => c.rate.detected
    case CloudflareKind => CloudflareDetected(c.cloudflare)
    case JavaScriptKind => JsRequired(c.javascript)
    case CaptchaKind => CaptchaDetected(c.captcha)
    case CookiesKind => CookiesUsed(c.cookies)
  }

  function Description(c: Checks, k: Kind): string
  {
    match k
    case BasicAccessKind => BasicDescription(c.basic)
    case UserAgentKind => c.userAgent.description
    case RateLimitingKind => c.rate.description
    case CloudflareKind => CloudflareDescription(c.cloudflare)
    case JavaScriptKind => JsDescription(c.javascript)
    case CaptchaKind => CaptchaDescription(c.captcha)
    case CookiesKind => CookieDescription(c.cookies)
  }

  /** The report entry of one mechanism: its check's flag, the score the table gives it, and the check's description. */
  function MechanismFor(c: Checks, k: Kind): (m: Mechanism)
    ensures m.kind == k && m.detected == Detected(c, k) && m.score == Score(k, m.detected)
  {
    Mechanism(k, Detected(c, k), Score(k, Detected(c, k)), Description(c, k))
  }

  function Total(xs: seq<nat>): nat
  {
    if xs == [] then 0 else xs[0] + Total(xs[1..])
  }

  /** Per-entry bounds on the scores bound their sum. */
  lemma {:induction false} SumScoresBetween(ms: seq<Mechanism>, lo: seq<nat>, hi: seq<nat>)
    requires |lo| == |ms| && |hi| == |ms|
    requires forall i :: 0 <= i < |ms| ==> lo[i] <= ms[i].score <= hi[i]
    ensures Total(lo) <= SumScores(ms) <= Total(hi)
  {
    if ms != [] {
      SumScoresBetween(ms[1..], lo[1..], hi[1..]);
    }
  }

  /** Every scored list of the seven mechanisms with basic access granted totals between 35 and 150. */
  lemma {:induction false} TotalBounds(ms: seq<Mechanism>)
    requires |ms| == |Kinds|
    requires forall i :: 0 <= i < |ms| ==> ms[i].kind == Kinds[i] && ms[i].score == Score(ms[i].kind, ms[i].detected)
    requires ms[0].detected
    ensures 35 <= SumScores(ms) <= 150
  {
    var lo: seq<nat> := [10, 5, 5, 0, 10, 0, 5];
    var hi: seq<nat> := [10, 20, 15, 25, 30, 40, 10];
    SumScoresBetween(ms, lo, hi);
  }

  /**
   * Scoring and summary over the checks' outcomes: a failed basic request
   * short-circuits, otherwise every mechanism is scored and summed, and the
   * bypass attempts are summarised.
   */
  function Assemble(url: string, timestamp: string, c: Checks, bypass: seq<(string, BypassResult)>): (r: ProtectionReport)
    ensures r.url == url && r.timestamp == timestamp
    ensures !c.basic.accessible ==>
              && r.mechanisms == [MechanismFor(c, BasicAccessKind)] && r.mechanisms[0].score == 0
              && r.bypass == [] && r.totalScore == 100 && r.level == Critical && r.summary.None?
    ensures c.basic.accessible ==>
              && |r.mechanisms| == |Kinds|
              && (forall i :: 0 <= i < |Kinds| ==> r.mechanisms[i] == MechanismFor(c, Kinds[i]))
              && r.totalScore == SumScores(r.mechanisms)
              && 35 <= r.totalScore <= 150
              && r.level == Tier(r.totalScore)
              && r.bypass == bypass
              && r.summary == Some(Summarize(bypass))
  {
    var first := MechanismFor(c, BasicAccessKind);
    if !first.detected then
      ProtectionReport(url, timestamp, [first], [], 100, Critical, None)
    else
      var ms := seq(|Kinds|, i requires 0 <= i < |Kinds| => MechanismFor(c, Kinds[i]));
      TotalBounds(ms);
      var total := SumScores(ms);
      ProtectionReport(url, timestamp, ms, bypass, total, Tier(total), Some(Summarize(bypass)))
  }

  /** The analyser's main entry: every check and bypass attempt over the observations, then scoring. */
  function Analyze(url: string, timestamp: string, obs: Observations): (r: ProtectionReport)
    ensures r.url == url
    ensures |r.mechanisms| == 1 <==> !(obs.basic.Answered? && obs.basic.response.status == 200)
    ensures |r.mechanisms| == 1 ==> r.totalScore == 100 && r.level == Critical && r.bypass == [] && r.summary.None?
    ensures |r.mechanisms| != 1 ==>
              && 35 <= r.totalScore <= 150 && r.level == Tier(r.totalScore)
              && r.bypass == TestBypassMethods(obs.bypass) && r.summary == Some(Summarize(r.bypass))
  {
    Assemble(url, timestamp, RunChecks(obs), TestBypassMethods(obs.bypass))
  }

  // ---------------------------------------------------------------------------
  // The report as the dictionary the orchestrator reads

  function MechanismJson(m: Mechanism): Json
  {
    JObj([("detected", JBool(m.detected)), ("score", JInt(m.score)), ("description", JStr(m.description))])
  }

  function MechanismsJson(ms: seq<Mechanism>): (fields: seq<(string, Json)>)
    ensures |fields| == |ms|
    ensures forall i :: 0 <= i < |ms| ==> fields[i] == (KindName(ms[i].kind), MechanismJson(ms[i]))
  {
    if ms == [] then [] else [(KindName(ms[0].kind), MechanismJson(ms[0]))] + MechanismsJson(ms[1..])
  }

  /** One bypass entry: `success`, then `status_code` or `error` when there is one, then `description`. */
  function BypassJson(b: BypassResult): (j: Json)
    ensures j.JObj? && Get(j.fields, "success") == Some(JBool(b.success))
  {
    JObj([("success", JBool(b.success))]
         + (match b.status case Some(c) => [("status_code", JInt(c))] case None => [])
         + (match b.error case Some(e) => [("error", JStr(e))] case None => [])
         + [("description", JStr(b.description))])
  }

  function BypassMethodsJson(methods: seq<(string, BypassResult)>): (fields: seq<(string, Json)>)
    ensures Firsts(fields) == Firsts(methods)
  {
    if methods == [] then [] else [(methods[0].0, BypassJson(methods[0].1))] + BypassMethodsJson(methods[1..])
  }

  /** The keys the analyser writes, in its order; `best_method` and `bypass_success_rate` only after the full analysis. */
  function ReportJson(r: ProtectionReport): (j: Json)
    ensures j.JObj?
    ensures Firsts(j.fields) == ["url", "timestamp", "mechanisms", "bypass_methods", "total_score", "complexity_level"]
                              + (if r.summary.Some? then ["best_method", "bypass_success_rate"] else [])
    ensures j.fields[3].1 == JObj(BypassMethodsJson(r.bypass)) && j.fields[5].1 == JStr(LevelName(r.level))
  {
    var head := ReportHead(r);
    var tail := SummaryFields(r.summary);
    FirstsAppend(head, tail);
    assert (head + tail)[3] == head[3] && (head + tail)[5] == head[5];
    JObj(head + tail)
  }

  /** The fields every report has. */
  function ReportHead(r: ProtectionReport): (head: seq<(string, Json)>)
    ensures Firsts(head) == ["url", "timestamp", "mechanisms", "bypass_methods", "total_score", "complexity_level"]
    ensures head[3].1 == JObj(BypassMethodsJson(r.bypass)) && head[5].1 == JStr(LevelName(r.level))
  {
    [("url", JStr(r.url)),
     ("timestamp", JStr(r.timestamp)),
     ("mechanisms", JObj(MechanismsJson(r.mechanisms))),
     ("bypass_methods", JObj(BypassMethodsJson(r.bypass))),
     ("total_score", JInt(r.totalScore)),
     ("complexity_level", JStr(LevelName(r.level)))]
  }

  /** The summary fields; without a bypass summary there are none, and without a success the analyser names `selenium`. */
  function SummaryFields(summary: Option<BypassSummary>): (tail: seq<(string, Json)>)
    ensures Firsts(tail) == if summary.Some? then ["best_method", "bypass_success_rate"] else []
  {
    match summary
    case None => []
    case Some(NoSuccess) => [("best_method", JStr("selenium")), ("bypass_success_rate", JInt(0))]
    case Some(BestMethod(name, rate)) => [("best_method", JStr(name)), ("bypass_success_rate", JReal(rate))]
  }
}
