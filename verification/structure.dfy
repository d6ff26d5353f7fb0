/**
 * The structure analyser's entry point (`analyze`) and its overall verdict on
 * how hard the page is to scrape (`evaluate_parsing_complexity`), with the
 * report converted to the dictionary the orchestrator reads.
 */
module Structure {
  import opened PyBase
  import opened Text
  import opened JsonValue
  import opened Dom
  import opened StructureInfo
  import opened StructureContent
  import opened StructurePage

  // ---------------------------------------------------------------------------
  // Parsing complexity

  /** The values `evaluate_parsing_complexity` reads from the report being built. */
  datatype ParsingInputs = ParsingInputs(scriptCount: nat, frameworks: seq<string>, formsCount: nat, loadingHigh: bool, depth: nat)

  datatype ParsingLevel = ParsingLow | ParsingMedium | ParsingHigh | ParsingVeryHigh

  datatype ParsingComplexity = ParsingComplexity(score: nat, level: ParsingLevel, factors: seq<Factor>, recommendation: string, effort: string)

  function ParsingLevelName(l: ParsingLevel): string
  {
    match l
    case ParsingLow => "LOW"
    case ParsingMedium => "MEDIUM"
    case ParsingHigh => "HIGH"
    case ParsingVeryHigh => "VERY_HIGH"
  }

  /** The level of a score: 70 and above VERY_HIGH, 50 HIGH, 30 MEDIUM, below that LOW. */
  function ParsingLevelOf(score: int): (l: ParsingLevel)
    ensures l == ParsingVeryHigh <==> score >= 70
    ensures l == ParsingHigh <==> 50 <= score < 70
    ensures l == ParsingMedium <==> 30 <= score < 50
    ensures l == ParsingLow <==> score < 30
  {
    if score >= 70 then ParsingVeryHigh
    else if score >= 50 then ParsingHigh
    else if score >= 30 then ParsingMedium
    else ParsingLow
  }

  function ParsingRank(l: ParsingLevel): nat
  {
    match l
    case ParsingLow => 0
    case ParsingMedium => 1
    case ParsingHigh => 2
    case ParsingVeryHigh => 3
  }

  /** A higher score never gets a lower level. */
  lemma ParsingLevelMonotone(a: int, b: int)
    requires a <= b
    ensures ParsingRank(ParsingLevelOf(a)) <= ParsingRank(ParsingLevelOf(b))
  {
  }

  function Recommendation(l: ParsingLevel): string
  {
    match l
    case ParsingVeryHigh => "Selenium или Playwright обязательны"
    case ParsingHigh => "Рекомендуется Selenium"
    case ParsingMedium => "Requests + BeautifulSoup с осторожностью"
    case ParsingLow => "Простой requests + BeautifulSoup"
  }

  /** The effort table; its `'Неизвестно'` default is never reached, as every level has an entry. */
  function Effort(l: ParsingLevel): string
  {
    match l
    case ParsingVeryHigh => "Очень высокие"
    case ParsingHigh => "Высокие"
    case ParsingMedium => "Средние"
    case ParsingLow => "Низкие"
  }

  /** A reason the page is hard to scrape. */
  datatype Factor = ManyScripts | FrameworksFound(names: seq<string>) | ManyForms | HeavyLoading | DeepNesting

  /** The explanation written for a factor. */
  function FactorText(f: Factor): string
  {
    match f
    case ManyScripts => "Много JavaScript файлов"
    case FrameworksFound(names) => "Обнаружены фреймворки: " + Join(", ", names)
    case ManyForms => "Много форм - может потребоваться аутентификация"
    case HeavyLoading => "Высокая сложность загрузки"
    case DeepNesting => "Глубокая вложенность DOM"
  }

  /** More than 10 scripts cost 30 and are a factor; 6 to 10 cost 15 silently. */
  function ScriptTerm(n: nat): (t: nat)
    ensures t in {0, 15, 30}
  {
    if n > 10 then 30 else if n > 5 then 15 else 0
  }

  function Flag(b: bool, f: Factor): seq<Factor>
  {
    if b then [f] else []
  }

  /** The score: the sum of the weights of the readings that apply. */
  function ParsingScore(p: ParsingInputs): (s: nat)
    ensures s <= 100
    ensures !p.loadingHigh ==> s <= 80
  {
    ScriptTerm(p.scriptCount)
      + (if p.frameworks != [] then 25 else 0)
      + (if p.formsCount > 3 then 15 else 0)
      + (if p.loadingHigh then 20 else 0)
      + (if p.depth > 15 then 10 else 0)
  }

  /** The explanations, in the order the readings are taken. */
  function ParsingFactors(p: ParsingInputs): (fs: seq<Factor>)
    ensures |fs| <= 5
    ensures 10 * |fs| <= ParsingScore(p)
    ensures fs == [] ==> ParsingScore(p) in {0, 15}
  {
    Flag(p.scriptCount > 10, ManyScripts)
      + Flag(p.frameworks != [], FrameworksFound(p.frameworks))
      + Flag(p.formsCount > 3, ManyForms)
      + Flag(p.loadingHigh, HeavyLoading)
      + Flag(p.depth > 15, DeepNesting)
  }

  /** The heavy-loading factor is listed exactly when the loading level is HIGH. */
  lemma HeavyLoadingFactorIff(p: ParsingInputs)
    ensures HeavyLoading in ParsingFactors(p) <==> p.loadingHigh
  {
    if p.loadingHigh {
      assert HeavyLoading in Flag(p.loadingHigh, HeavyLoading);
    }
  }

  /** `evaluate_parsing_complexity`. */
  function EvaluateParsingComplexity(p: ParsingInputs): (r: ParsingComplexity)
    ensures r.score <= 100 && |r.factors| <= 5
    ensures 10 * |r.factors| <= r.score
    ensures r.level == ParsingLevelOf(r.score)
    ensures r.recommendation == Recommendation(r.level) && r.effort == Effort(r.level)
    ensures !p.loadingHigh ==> r.score <= 80 && HeavyLoading !in r.factors
  {
    HeavyLoadingFactorIff(p);
    var score := ParsingScore(p);
    var level := ParsingLevelOf(score);
    ParsingComplexity(score, level, ParsingFactors(p), Recommendation(level), Effort(level))
  }

  /** Raising any one reading never lowers the score. */
  lemma ParsingScoreMonotone(p: ParsingInputs, q: ParsingInputs)
    requires p.scriptCount <= q.scriptCount && p.formsCount <= q.formsCount && p.depth <= q.depth
    requires (p.frameworks != [] ==> q.frameworks != []) && (p.loadingHigh ==> q.loadingHigh)
    ensures ParsingScore(p) <= ParsingScore(q)
  {
  }

  // ---------------------------------------------------------------------------
  // The report

  /** The page as fetched and parsed, or the message of the exception that stopped the fetch. */
  datatype PageFetch = Fetched(doc: Node, markup: string) | FetchFailed(cause: string)

  /**
   * The call frames `calculate_max_depth` may still use before Python raises
   * `RecursionError`, and that error's message. The number depends on the
   * interpreter's recursion limit and on how deep the caller already is.
   */
  datatype Stack = Stack(frames: nat, overflow: string)

  /** `calculate_max_depth` nests one call per level it descends: a page `MaxDepth` levels deep needs one frame more. */
  predicate Overflows(doc: Node, stack: Stack)
  {
    MaxDepth(doc, 0) + 1 > stack.frames
  }

  /**
   * Where a failed analysis stopped, with what it had already written: the
   * fetch, the DOM statistics (after the basic information) or the links
   * (after the DOM statistics and the content types).
   */
  datatype Stopped =
    | AtFetch
    | AtDom(basic: BasicInfo)
    | AtLinks(basic: BasicInfo, dom: DomStats, contentTypes: seq<(string, nat)>)

  datatype StructureReport =
    | StructureOk(
        url: string,
        timestamp: string,
        basic: BasicInfo,
        dom: DomStats,
        contentTypes: seq<(string, nat)>,
        links: LinksForms,
        scripts: ScriptsStyles,
        selectors: seq<(string, seq<Suggestion>)>,
        performance: Performance,
        parsing: ParsingComplexity)
    | StructureFailed(url: string, timestamp: string, stopped: Stopped, error: string)

  const LoadErrorPrefix := "Ошибка загрузки страницы: "

  function FrameworkNames(fs: seq<Framework>): (r: seq<string>)
    ensures |r| == |fs|
    ensures forall i :: 0 <= i < |fs| ==> r[i] == FrameworkName(fs[i])
  {
    if fs == [] then [] else [FrameworkName(fs[0])] + FrameworkNames(fs[1..])
  }

  /** The readings `evaluate_parsing_complexity` takes from the partial report. */
  function ParsingInputsOf(dom: DomStats, links: LinksForms, scripts: ScriptsStyles, performance: Performance): (p: ParsingInputs)
    ensures p.loadingHigh <==> performance.loading == LoadHigh
  {
    ParsingInputs(
      |scripts.scripts|,
      FrameworkNames(scripts.frameworksDetected),
      |links.forms|,
      performance.loading == LoadHigh,
      dom.maxNestingDepth)
  }

  /** The report of a page that loaded, from its parts; the parsing verdict is computed last. */
  function Assemble(url: string, timestamp: string, basic: BasicInfo, dom: DomStats, contentTypes: seq<(string, nat)>,
                    links: LinksForms, scripts: ScriptsStyles, selectors: seq<(string, seq<Suggestion>)>, performance: Performance): (r: StructureReport)
    ensures r.StructureOk? && r.url == url && r.timestamp == timestamp && r.contentTypes == contentTypes
    ensures performance.loading != LoadHigh ==> r.parsing.score <= 80 && HeavyLoading !in r.parsing.factors
  {
    StructureOk(url, timestamp, basic, dom, contentTypes, links, scripts, selectors, performance,
                EvaluateParsingComplexity(ParsingInputsOf(dom, links, scripts, performance)))
  }

  /** The analyses after the links, whose results the report only carries along. */
  method CarriedParts(doc: Node, markup: string, select: Selection)
    returns (scripts: ScriptsStyles, selectors: seq<(string, seq<Suggestion>)>, performance: Performance)
    ensures scripts == AnalyzeScriptsAndStyles(doc, markup)
    ensures selectors == GenerateSelectors(select)
    ensures performance == AnalyzePerformance(doc, markup)
  {
    scripts := AnalyzeScriptsAndStyles(doc, markup);
    selectors := GenerateSelectors(select);
    performance := AnalyzePerformance(doc, markup);
  }

  /**
   * The analysis from the links on, given what was already computed: `urljoin`
   * raising on a link stops it there, with those parts in the report.
   */
  method FromLinks(url: string, timestamp: string, doc: Node, markup: string, select: Selection, ops: UrlOps,
                   basic: BasicInfo, dom: DomStats, contentTypes: seq<(string, nat)>) returns (r: StructureReport)
    ensures r.url == url && r.timestamp == timestamp
    ensures r.StructureFailed? <==> AnalyzeLinksAndForms(doc, url, ops).Err?
    ensures r.StructureFailed? ==>
              r.stopped == AtLinks(basic, dom, contentTypes) && r.error == AnalyzeLinksAndForms(doc, url, ops).error.message
    ensures r.StructureOk? ==>
              && r.basic == basic && r.dom == dom && r.contentTypes == contentTypes
              && AnalyzeLinksAndForms(doc, url, ops) == Ok(r.links)
              && r.scripts == AnalyzeScriptsAndStyles(doc, markup) && r.selectors == GenerateSelectors(select)
              && r.performance == AnalyzePerformance(doc, markup)
              && r.parsing == EvaluateParsingComplexity(ParsingInputsOf(dom, r.links, r.scripts, r.performance))
  {
    var links := AnalyzeLinksAndForms(doc, url, ops);
    if links.Err? {
      return StructureFailed(url, timestamp, AtLinks(basic, dom, contentTypes), links.error.message);
    }
    var scripts, selectors, performance := CarriedParts(doc, markup, select);
    r := Assemble(url, timestamp, basic, dom, contentTypes, links.value, scripts, selectors, performance);
  }

  /**
   * What the analysis of a loaded page reports. A page too deep for the stack
   * stops it in the DOM statistics, after the basic information; a link the
   * URL join refuses stops it after the category counts; otherwise every part
   * of the report is the analysis of the page.
   */
  predicate PageReport(r: StructureReport, url: string, timestamp: string, doc: Node, markup: string, select: Selection, ops: UrlOps, stack: Stack)
  {
    && r.url == url && r.timestamp == timestamp
    && (r.StructureFailed? ==> !r.stopped.AtFetch?)
    && (Overflows(doc, stack) ==> r == StructureFailed(url, timestamp, AtDom(AnalyzeBasicInfo(doc)), stack.overflow))
    && (!Overflows(doc, stack) ==> (r.StructureFailed? <==> AnalyzeLinksAndForms(doc, url, ops).Err?))
    && (!Overflows(doc, stack) && r.StructureFailed? ==>
          && r.stopped == AtLinks(AnalyzeBasicInfo(doc), AnalyzeDom(doc), DetectContentTypes(doc, select))
          && r.error == AnalyzeLinksAndForms(doc, url, ops).error.message)
    && (r.StructureOk? ==>
          && r.basic == AnalyzeBasicInfo(doc) && r.dom == AnalyzeDom(doc)
          && r.contentTypes == DetectContentTypes(doc, select)
          && AnalyzeLinksAndForms(doc, url, ops) == Ok(r.links)
          && r.scripts == AnalyzeScriptsAndStyles(doc, markup) && r.selectors == GenerateSelectors(select)
          && r.performance == AnalyzePerformance(doc, markup)
          && r.parsing == EvaluateParsingComplexity(ParsingInputsOf(r.dom, r.links, r.scripts, r.performance)))
  }

  /** The analysis of a page that loaded. */
  method AnalyzePage(url: string, timestamp: string, doc: Node, markup: string, select: Selection, ops: UrlOps, stack: Stack)
    returns (r: StructureReport)
    ensures PageReport(r, url, timestamp, doc, markup, select, ops, stack)
  {
    var basic := AnalyzeBasicInfo(doc);
    if Overflows(doc, stack) {
      return StructureFailed(url, timestamp, AtDom(basic), stack.overflow);
    }
    var dom := AnalyzeDom(doc);
    var contentTypes := DetectContentTypes(doc, select);
    r := FromLinks(url, timestamp, doc, markup, select, ops, basic, dom, contentTypes);
  }

  /**
   * `analyze`: a page that did not load gives the failed report carrying the
   * load error; a page that loaded gives its page report.
   */
  method AnalyzeStructure(url: string, timestamp: string, page: PageFetch, select: Selection, ops: UrlOps, stack: Stack)
    returns (r: StructureReport)
    ensures r.url == url && r.timestamp == timestamp
    ensures r.StructureFailed? && r.stopped.AtFetch? <==> page.FetchFailed?
    ensures page.FetchFailed? ==> r == StructureFailed(url, timestamp, AtFetch, LoadErrorPrefix + page.cause)
    ensures page.Fetched? ==> PageReport(r, url, timestamp, page.doc, page.markup, select, ops, stack)
  {
    match page
    case FetchFailed(cause) =>
      r := StructureFailed(url, timestamp, AtFetch, LoadErrorPrefix + cause);
    case Fetched(doc, markup) =>
      r := AnalyzePage(url, timestamp, doc, markup, select, ops, stack);
  }

  /** A page report carries category counts exactly when the page was not too deep, and then the page's own. */
  lemma PageReportCounts(r: StructureReport, url: string, timestamp: string, doc: Node, markup: string, select: Selection,
                         ops: UrlOps, stack: Stack)
    requires PageReport(r, url, timestamp, doc, markup, select, ops, stack)
    ensures r.StructureOk? || r.stopped.AtLinks? <==> !Overflows(doc, stack)
    ensures r.StructureOk? ==> r.contentTypes == DetectContentTypes(doc, select) && r.selectors == GenerateSelectors(select)
    ensures r.StructureFailed? && r.stopped.AtLinks? ==> r.stopped.contentTypes == DetectContentTypes(doc, select)
  {
  }

  // ---------------------------------------------------------------------------
  // As a dictionary

  function StrArr(xs: seq<string>): (j: Json)
    ensures j.JArr? && |j.items| == |xs|
  {
    JArr(seq(|xs|, i requires 0 <= i < |xs| => JStr(xs[i])))
  }

  function CountsObj(t: seq<(string, nat)>): (j: Json)
    ensures j.JObj? && Firsts(j.fields) == seq(|t|, i requires 0 <= i < |t| => t[i].0)
  {
    JObj(seq(|t|, i requires 0 <= i < |t| => (t[i].0, JInt(t[i].1))))
  }

  function InputJson(x: InputInfo): Json
  {
    JObj([("tag", JStr(x.tag)), ("type", JStr(x.inputType)), ("name", JStr(x.name)),
          ("placeholder", JStr(x.placeholder)), ("required", JBool(x.required))])
  }

  function FormJson(f: FormInfo): Json
  {
    JObj([("action", JStr(f.action)), ("method", JStr(f.httpMethod)), ("inputs_count", JInt(f.inputsCount)),
          ("has_file_upload", JBool(f.hasFileUpload)), ("classes", StrArr(f.classes)), ("id", JStr(f.id)),
          ("inputs", JArr(seq(|f.inputs|, i requires 0 <= i < |f.inputs| => InputJson(f.inputs[i]))))])
  }

  function ScriptJson(s: ScriptInfo): Json
  {
    JObj([("src", JStr(s.src)), ("inline", JBool(s.inline)), ("type", JStr(s.scriptType)),
          ("async", JBool(s.isAsync)), ("defer", JBool(s.defer))])
  }

  function StyleJson(s: StyleInfo): Json
  {
    JObj([("href", JStr(s.href)), ("media", JStr(s.media)), ("type", JStr(s.styleType))])
  }

  function SuggestionJson(s: Suggestion): Json
  {
    match s
    case Sampled(sel, n, text) => JObj([("selector", JStr(sel)), ("count", JInt(n)), ("sample_text", JStr(text))])
    case Described(sel, n, d) => JObj([("selector", JStr(sel)), ("count", JInt(n)), ("description", JStr(d))])
  }

  function SelectorsJson(sections: seq<(string, seq<Suggestion>)>): (j: Json)
    ensures j.JObj? && |j.fields| == |sections|
    ensures forall i :: 0 <= i < |sections| ==>
              j.fields[i].0 == sections[i].0 && j.fields[i].1.JArr? && |j.fields[i].1.items| == |sections[i].1|
  {
    JObj(seq(|sections|, i requires 0 <= i < |sections| =>
      (sections[i].0, JArr(seq(|sections[i].1|, k requires 0 <= k < |sections[i].1| => SuggestionJson(sections[i].1[k]))))))
  }

  function FrameworksJson(fs: seq<Framework>): Json
  {
    JObj(seq(|fs|, i requires 0 <= i < |fs| => (FrameworkName(fs[i]), JBool(true))))
  }

  function PerformanceJson(p: Performance): Json
  {
    JObj([("page_size_bytes", JInt(p.pageSizeBytes)), ("images_count", JInt(p.imagesCount)),
          ("scripts_count", JInt(p.scriptsCount)), ("styles_count", JInt(p.stylesCount)),
          ("external_resources", JInt(p.externalResources)), ("complexity_score", JReal(p.complexityScore)),
          ("loading_complexity", JStr(LoadingName(p.loading)))])
  }

  function ParsingJson(c: ParsingComplexity): Json
  {
    JObj([("score", JInt(c.score)), ("level", JStr(ParsingLevelName(c.level))), ("factors", StrArr(seq(|c.factors|, i requires 0 <= i < |c.factors| => FactorText(c.factors[i])))),
          ("recommendation", JStr(c.recommendation)), ("estimated_effort", JStr(c.effort))])
  }

  const HeadKeys: seq<string> := ["url", "timestamp", "analysis_type"]
  const BasicKeys: seq<string> := ["title", "meta_description", "language", "charset"]
  const DomKeys: seq<string> := [
    "total_elements", "unique_tags", "tag_distribution", "classes_count", "ids_count",
    "popular_classes", "max_nesting_depth", "has_semantic_html5", "semantic_tags_found"]
  const LinkKeys: seq<string> := [
    "internal_links", "external_links", "forms", "internal_links_count", "external_links_count", "forms_count"]
  const TailKeys: seq<string> := [
    "scripts", "styles", "frameworks_detected", "suggested_selectors", "performance", "parsing_complexity"]

  /** The keys of a successful report, in the order `analyze` writes them. */
  const OkKeys: seq<string> := HeadKeys + BasicKeys + DomKeys + ["content_types"] + LinkKeys + TailKeys

  /** The keys written before the analysis stopped. */
  function StoppedKeys(stopped: Stopped): seq<string>
  {
    match stopped
    case AtFetch => []
    case AtDom(_) => BasicKeys
    case AtLinks(_, _, _) => BasicKeys + DomKeys + ["content_types"]
  }

  /** The keys of a failed report: what was written, then `error` and `success`. */
  function FailedKeys(stopped: Stopped): seq<string>
  {
    HeadKeys + StoppedKeys(stopped) + ["error", "success"]
  }

  /** Pairs keys with values. */
  function Zip(ks: seq<string>, vs: seq<Json>): (r: seq<(string, Json)>)
    requires |ks| == |vs|
    ensures Firsts(r) == ks
    ensures forall i :: 0 <= i < |ks| ==> r[i] == (ks[i], vs[i])
  {
    var r := seq(|ks|, i requires 0 <= i < |ks| => (ks[i], vs[i]));
    assert Firsts(r) == ks;
    r
  }

  function BasicValues(b: BasicInfo): (vs: seq<Json>)
    ensures |vs| == |BasicKeys|
  {
    [JStr(b.title), JStr(b.metaDescription), JStr(b.language), JStr(b.charset)]
  }

  function DomValues(d: DomStats): (vs: seq<Json>)
    ensures |vs| == |DomKeys|
  {
    [JInt(d.totalElements), StrArr(d.uniqueTags), CountsObj(d.tagDistribution), JInt(d.classesCount), JInt(d.idsCount),
     CountsObj(d.popularClasses), JInt(d.maxNestingDepth), JBool(d.hasSemanticHtml5), StrArr(d.semanticTagsFound)]
  }

  function StoppedValues(stopped: Stopped): (vs: seq<Json>)
    ensures |vs| == |StoppedKeys(stopped)|
  {
    match stopped
    case AtFetch => []
    case AtDom(basic) => BasicValues(basic)
    case AtLinks(basic, dom, contentTypes) => BasicValues(basic) + DomValues(dom) + [CountsObj(contentTypes)]
  }

  function HeadValues(url: string, timestamp: string): seq<Json>
  {
    [JStr(url), JStr(timestamp), JStr("structure")]
  }

  function OkValues(r: StructureReport): (vs: seq<Json>)
    requires r.StructureOk?
    ensures |vs| == |OkKeys|
  {
    var l := r.links;
    HeadValues(r.url, r.timestamp) + BasicValues(r.basic) + DomValues(r.dom) +
    [CountsObj(r.contentTypes),
     StrArr(l.internal), StrArr(l.external), JArr(seq(|l.forms|, i requires 0 <= i < |l.forms| => FormJson(l.forms[i]))),
     JInt(|l.internal|), JInt(|l.external|), JInt(|l.forms|),
     JArr(seq(|r.scripts.scripts|, i requires 0 <= i < |r.scripts.scripts| => ScriptJson(r.scripts.scripts[i]))),
     JArr(seq(|r.scripts.styles|, i requires 0 <= i < |r.scripts.styles| => StyleJson(r.scripts.styles[i]))),
     FrameworksJson(r.scripts.frameworksDetected),
     SelectorsJson(r.selectors), PerformanceJson(r.performance), ParsingJson(r.parsing)]
  }

  /** The dictionary of a failed analysis: what was written, the error, and `success` false. */
  function FailedJson(url: string, timestamp: string, stopped: Stopped, error: string): (j: seq<(string, Json)>)
    ensures Firsts(j) == FailedKeys(stopped)
    ensures j == Written(url, timestamp, stopped) + [("error", JStr(error)), ("success", JBool(false))]
  {
    var w := Written(url, timestamp, stopped);
    FirstsAppend(w, [("error", JStr(error)), ("success", JBool(false))]);
    w + [("error", JStr(error)), ("success", JBool(false))]
  }

  /** What a failed analysis had written before the error. */
  function Written(url: string, timestamp: string, stopped: Stopped): (w: seq<(string, Json)>)
    ensures Firsts(w) == HeadKeys + StoppedKeys(stopped)
    ensures !stopped.AtFetch? ==> w[3].1 == JStr(stopped.basic.title)
    ensures stopped.AtLinks? ==> w[16].1 == CountsObj(stopped.contentTypes)
  {
    var vs := HeadValues(url, timestamp) + StoppedValues(stopped);
    assert stopped.AtLinks? ==>
      vs[16] == (BasicValues(stopped.basic) + DomValues(stopped.dom) + [CountsObj(stopped.contentTypes)])[13];
    Zip(HeadKeys + StoppedKeys(stopped), vs)
  }

  /** The report as the dictionary `analyze` returns. */
  function StructureJson(r: StructureReport): (j: seq<(string, Json)>)
    ensures r.StructureOk? ==> Firsts(j) == OkKeys
    ensures r.StructureFailed? ==> j == FailedJson(r.url, r.timestamp, r.stopped, r.error)
    ensures r.StructureOk? ==> j[16].1 == CountsObj(r.contentTypes) && j[26].1 == SelectorsJson(r.selectors)
  {
    match r
    case StructureOk(_, _, _, _, _, _, _, _, _, _) => Zip(OkKeys, OkValues(r))
    case StructureFailed(url, timestamp, stopped, error) => FailedJson(url, timestamp, stopped, error)
  }

  /** Which keys a failed report writes before `error`. */
  lemma StoppedKeysFacts(stopped: Stopped)
    ensures "error" !in HeadKeys + StoppedKeys(stopped) && "success" !in HeadKeys + StoppedKeys(stopped)
    ensures !stopped.AtFetch? ==> (HeadKeys + StoppedKeys(stopped))[3] == "title"
    ensures stopped.AtLinks? ==> |HeadKeys + StoppedKeys(stopped)| == 17 && (HeadKeys + StoppedKeys(stopped))[16] == "content_types"
    ensures stopped.AtLinks? ==> "content_types" !in HeadKeys + BasicKeys + DomKeys
    ensures !stopped.AtLinks? ==> "content_types" !in FailedKeys(stopped)
  {
  }

  /**
   * A failed analysis says so in `success` and carries the error, after what
   * it had written: the basic information once the page loaded, and the
   * category counts once the DOM statistics were done.
   */
  lemma FailedReportFields(r: StructureReport)
    requires r.StructureFailed?
    ensures Get(StructureJson(r), "success") == Some(JBool(false))
    ensures Get(StructureJson(r), "error") == Some(JStr(r.error))
    ensures r.stopped.AtFetch? ==> |StructureJson(r)| == 5
    ensures !r.stopped.AtFetch? ==> Get(StructureJson(r), "title") == Some(JStr(r.stopped.basic.title))
    ensures r.stopped.AtLinks? ==> Get(StructureJson(r), "content_types") == Some(CountsObj(r.stopped.contentTypes))
    ensures !r.stopped.AtLinks? ==> Get(StructureJson(r), "content_types").None?
  {
    var w := Written(r.url, r.timestamp, r.stopped);
    var tail := [("error", JStr(r.error)), ("success", JBool(false))];
    assert StructureJson(r) == w + tail;
    FailedTail(w, r.stopped, r.error);
    if !r.stopped.AtFetch? {
      FailedTitle(w, r.stopped, tail);
    }
    if r.stopped.AtLinks? {
      FailedCounts(w, r.stopped, tail);
    }
    StoppedKeysFacts(r.stopped);
  }

  /** A key of `w` that none of its earlier keys repeats is found there in `w` + `tail` too. */
  lemma GetPrefix(w: seq<(string, Json)>, tail: seq<(string, Json)>, i: nat)
    requires i < |w| && w[i].0 !in Firsts(w)[..i]
    ensures Get(w + tail, w[i].0) == Some(w[i].1)
  {
    forall m | 0 <= m < i ensures (w + tail)[m].0 != (w + tail)[i].0 {
      assert Firsts(w)[..i][m] == w[m].0;
    }
    GetAt(w + tail, i);
  }

  lemma FailedTail(w: seq<(string, Json)>, stopped: Stopped, error: string)
    requires Firsts(w) == HeadKeys + StoppedKeys(stopped)
    ensures var j := w + [("error", JStr(error)), ("success", JBool(false))];
      Get(j, "success") == Some(JBool(false)) && Get(j, "error") == Some(JStr(error))
  {
    StoppedKeysFacts(stopped);
    GetAppend(w, [("error", JStr(error)), ("success", JBool(false))], "error");
    GetAppend(w, [("error", JStr(error)), ("success", JBool(false))], "success");
  }

  lemma FailedTitle(w: seq<(string, Json)>, stopped: Stopped, tail: seq<(string, Json)>)
    requires !stopped.AtFetch? && Firsts(w) == HeadKeys + StoppedKeys(stopped)
    requires w[3].1 == JStr(stopped.basic.title)
    ensures Get(w + tail, "title") == Some(JStr(stopped.basic.title))
  {
    StoppedKeysFacts(stopped);
    PrefixOfAppend(Firsts(w), HeadKeys, StoppedKeys(stopped));
    assert w[3].0 == "title" && "title" !in HeadKeys;
    GetPrefix(w, tail, 3);
  }

  lemma FailedCounts(w: seq<(string, Json)>, stopped: Stopped, tail: seq<(string, Json)>)
    requires stopped.AtLinks? && Firsts(w) == HeadKeys + StoppedKeys(stopped)
    requires w[16].1 == CountsObj(stopped.contentTypes)
    ensures Get(w + tail, "content_types") == Some(CountsObj(stopped.contentTypes))
  {
    var early := HeadKeys + BasicKeys + DomKeys;
    AppendAssoc(HeadKeys, BasicKeys + DomKeys, ["content_types"]);
    AppendAssoc(HeadKeys, BasicKeys, DomKeys);
    PrefixOfAppend(Firsts(w), early, ["content_types"]);
    assert |early| == 16 && Firsts(w)[16] == "content_types";
    StoppedKeysFacts(stopped);
    GetPrefix(w, tail, 16);
  }

  /** `k` is none of the keys of a successful report. */
  predicate NotOkKey(k: string)
  {
    k !in HeadKeys && k !in BasicKeys && k !in DomKeys && k != "content_types" && k !in LinkKeys && k !in TailKeys
  }

  lemma NotOkKeyAbsent(k: string)
    requires NotOkKey(k)
    ensures k !in OkKeys
  {
  }

  /** A key outside both key lists is never written. */
  lemma AbsentKey(r: StructureReport, k: string)
    requires NotOkKey(k) && k != "error" && k != "success"
    ensures k !in Firsts(StructureJson(r))
  {
    if r.StructureFailed? {
      AbsentFailedKey(r.stopped, k);
    } else {
      NotOkKeyAbsent(k);
    }
  }

  lemma AbsentFailedKey(stopped: Stopped, k: string)
    requires NotOkKey(k) && k != "error" && k != "success"
    ensures k !in FailedKeys(stopped)
  {
    assert k !in StoppedKeys(stopped);
  }

  /** The report never has a `dom_stats` key: the DOM statistics sit at the top level. */
  lemma NoDomStatsKey(r: StructureReport)
    ensures "dom_stats" !in Firsts(StructureJson(r))
  {
    AbsentKey(r, "dom_stats");
  }

  /** The report never has a `complexity_score` key: that value lives inside `performance`. */
  lemma NoComplexityScoreKey(r: StructureReport)
    ensures "complexity_score" !in Firsts(StructureJson(r))
  {
    AbsentKey(r, "complexity_score");
  }

  /** A successful report has neither `error` nor `success`. */
  lemma OkReportHasNoError(r: StructureReport)
    requires r.StructureOk?
    ensures "error" !in Firsts(StructureJson(r)) && "success" !in Firsts(StructureJson(r))
  {
    NotOkKeyAbsent("error");
    NotOkKeyAbsent("success");
  }

  /** No content category is called `pagination`. */
  lemma NoPaginationCategory()
    ensures forall k :: 0 <= k < CategoryCount ==> CategoryName(k) != "pagination"
  {
  }
}
