/**
 * The control flow of `analyze_website` in comprehensive_analyzer.py, with its
 * analysis counter: the header entries, the requested analysers, the
 * translated reports, the recommendations and the summary.
 */
module Comprehensive {
  import opened PyBase
  import opened JsonValue
  import opened ComprehensiveTranslate
  import opened ComprehensiveAdvice
  import opened ComprehensiveReports
  import Lang = Languages
  import UrlValidation
  import Protection
  import Structure
  import StructureContent
  import StructurePage
  import Dom

  // ---------------------------------------------------------------------------
  // `analyze_website`

  const Version := "3.1.0"

  /** `analysis_type in ['protection', 'both']`, and likewise for `structure`. */
  predicate Includes(analysisType: string, part: string)
  {
    analysisType == part || analysisType == "both"
  }

  const HeaderKeys: seq<string> := ["url", "analysis_type", "language", "timestamp", "version"]

  /** The entries written before the analysers run. */
  function Header(url: string, analysisType: string, language: string, timestamp: string): (h: Dict)
    ensures Firsts(h) == HeaderKeys
  {
    [("url", JStr(url)), ("analysis_type", JStr(analysisType)), ("language", JStr(language)),
     ("timestamp", JStr(timestamp)), ("version", JStr(Version))]
  }

  /** The header is read by key as written. */
  lemma HeaderFields(url: string, analysisType: string, language: string, timestamp: string)
    ensures var h := Header(url, analysisType, language, timestamp);
      && Get(h, "url") == Some(JStr(url)) && Get(h, "analysis_type") == Some(JStr(analysisType))
      && Get(h, "language") == Some(JStr(language)) && Get(h, "timestamp") == Some(JStr(timestamp))
      && Get(h, "version") == Some(JStr(Version))
      && Get(h, "protection").None? && Get(h, "structure").None?
  {
    var h := Header(url, analysisType, language, timestamp);
    HeaderAt(h, 0);
    HeaderAt(h, 1);
    HeaderAt(h, 2);
    HeaderAt(h, 3);
    HeaderAt(h, 4);
    HeaderLacks(h);
  }

  lemma HeaderAt(h: Dict, i: nat)
    requires Firsts(h) == HeaderKeys && i < 5
    ensures Get(h, HeaderKeys[i]) == Some(h[i].1)
  {
    // The five keys differ in length.
    assert forall j :: 0 <= j < i ==> |HeaderKeys[j]| != |HeaderKeys[i]|;
    GetAt(h, i);
  }

  lemma HeaderLacks(h: Dict)
    requires Firsts(h) == HeaderKeys
    ensures Get(h, "protection").None? && Get(h, "structure").None?
  {
    assert "protection" !in HeaderKeys && "structure" !in HeaderKeys;
  }

  /** `results[key] = translate(report)` for a report that was produced; a failed translation ends the analysis. */
  function WithReport(m: Lang.LanguageManager, results: Dict, key: string, report: Option<Dict>,
                      translate: (Lang.LanguageManager, Dict) -> Result<Dict>): (r: Result<Dict>)
    ensures report.None? ==> r == Ok(results)
    ensures report.Some? ==> (r.Ok? <==> translate(m, report.value).Ok?)
    ensures r.Ok? && report.Some? ==> Get(r.value, key) == Some(JObj(translate(m, report.value).value))
    ensures r.Ok? ==> forall k :: k != key ==> Get(r.value, k) == Get(results, k)
  {
    match report
    case None => Ok(results)
    case Some(f) =>
      match translate(m, f)
      case Err(e) => Err(e)
      case Ok(t) => Ok(Put(results, key, JObj(t)))
  }

  /** The results once the requested analysers ran: their translated reports under `protection` and `structure`. */
  function Reports(m: Lang.LanguageManager, header: Dict, protection: Option<Dict>, structure: Option<Dict>): (r: Result<Dict>)
    ensures r.Ok? <==> (protection.Some? ==> TranslateProtection(m, protection.value).Ok?)
                       && (structure.Some? ==> TranslateStructure(m, structure.value).Ok?)
    ensures r.Ok? ==> forall k :: k != "protection" && k != "structure" ==> Get(r.value, k) == Get(header, k)
    ensures r.Ok? && protection.Some? ==> Get(r.value, "protection") == Some(JObj(TranslateProtection(m, protection.value).value))
    ensures r.Ok? && structure.Some? ==> Get(r.value, "structure") == Some(JObj(TranslateStructure(m, structure.value).value))
    ensures r.Ok? && protection.None? ==> Get(r.value, "protection") == Get(header, "protection")
    ensures r.Ok? && structure.None? ==> Get(r.value, "structure") == Get(header, "structure")
  {
    match WithReport(m, header, "protection", protection, TranslateProtection)
    case Err(e) => Err(e)
    case Ok(withProtection) => WithReport(m, withProtection, "structure", structure, TranslateStructure)
  }

  /** The analysers' reports, when shaped as they write them, are gathered without error. */
  lemma ShapedReportsGathered(m: Lang.LanguageManager, header: Dict, protection: Option<Dict>, structure: Option<Dict>)
    requires Get(header, "url").Some? && Get(header, "protection").None? && Get(header, "structure").None?
    requires protection.Some? ==> ProtectionShaped(protection.value)
    requires structure.Some? ==> StructureShaped(structure.value)
    ensures Reports(m, header, protection, structure).Ok?
    ensures var d := Reports(m, header, protection, structure).value;
      && Gathered(d)
      && (Get(d, "protection").Some? <==> protection.Some?)
      && (Get(d, "structure").Some? <==> structure.Some?)
  {
    if protection.Some? {
      ProtectionShapedTranslates(m, protection.value);
    }
    if structure.Some? {
      StructureShapedTranslates(m, structure.value);
    }
  }

  /** A list of texts as a JSON list. */
  function NotesJson(m: Lang.LanguageManager, notes: seq<Note>): Json
  {
    Structure.StrArr(NoteTexts(m, notes))
  }

  /** The rest of the `try` block: `recommendations`, then `summary` computed over the results so far. */
  function Conclusions(m: Lang.LanguageManager, reports: Dict, now: string): (r: Result<Dict>)
    ensures r.Ok? ==> Advice(reports).Ok? && Get(r.value, "recommendations") == Some(NotesJson(m, Advice(reports).value))
    ensures r.Ok? ==> forall k :: k != "recommendations" && k != "summary" ==> Get(r.value, k) == Get(reports, k)
    ensures r.Ok? ==> Get(r.value, "summary").Some? && Get(r.value, "summary").value.JObj?
  {
    match Advice(reports)
    case Err(e) => Err(e)
    case Ok(notes) =>
      var advised := Put(reports, "recommendations", NotesJson(m, notes));
      match Summary(m, advised, now)
      case Err(e) => Err(e)
      case Ok(summary) => Ok(Put(advised, "summary", JObj(summary)))
  }

  /** Adding an entry under another key keeps what was gathered, and the reports read the same. */
  lemma PutKeepsGathered(d: Dict, k: string, v: Json)
    requires Gathered(d) && k != "url" && k != "protection" && k != "structure"
    ensures Gathered(Put(d, k, v))
    ensures Get(Put(d, k, v), "structure") == Get(d, "structure") && Section(Put(d, k, v), "structure") == Section(d, "structure")
    ensures ProductsCount(Put(d, k, v)) == ProductsCount(d)
  {
    var e := Put(d, k, v);
    assert Get(e, "url") == Get(d, "url");
    assert Get(e, "protection") == Get(d, "protection");
    assert Get(e, "structure") == Get(d, "structure");
  }

  /** The recommended notes are those the reports imply. */
  lemma GatheredNotes(m: Lang.LanguageManager, d: Dict, now: string)
    requires Gathered(d) && Conclusions(m, d, now).Ok?
    ensures var c := Conclusions(m, d, now).value;
      Get(c, "recommendations") == Some(NotesJson(m, ExpectedNotes(Get(d, "protection").Some?, ProductsCount(c))))
  {
    GatheredAdvice(d);
    var notes := Advice(d).value;
    var advised := Put(d, "recommendations", NotesJson(m, notes));
    PutKeepsGathered(d, "recommendations", NotesJson(m, notes));
    PutKeepsGathered(advised, "summary", JObj(Summary(m, advised, now).value));
  }

  /** Gathered results always conclude, and the summary rates the scraping difficulty low. */
  lemma GatheredConclusions(m: Lang.LanguageManager, d: Dict, now: string)
    requires Gathered(d)
    ensures Conclusions(m, d, now).Ok? && RatedLow(m, Section(Conclusions(m, d, now).value, "summary"))
  {
    var sm := Concluded(m, d, now);
  }

  /** With a structure report, the summary's structure entries are counted from it. */
  lemma GatheredStructureSummary(m: Lang.LanguageManager, d: Dict, now: string)
    requires Gathered(d) && Get(d, "structure").Some?
    ensures Conclusions(m, d, now).Ok?
    ensures var c := Conclusions(m, d, now).value; CountsStructure(Section(c, "summary"), Section(c, "structure"))
  {
    var sm := Concluded(m, d, now);
  }

  /** The concluded results hold the summary of the results with the recommendations added. */
  lemma Concluded(m: Lang.LanguageManager, d: Dict, now: string) returns (sm: Dict)
    requires Gathered(d)
    ensures Conclusions(m, d, now).Ok?
    ensures RatedLow(m, sm) && (Get(d, "structure").Some? ==> CountsStructure(sm, Section(d, "structure")))
      && Section(Conclusions(m, d, now).value, "summary") == sm
      && Section(Conclusions(m, d, now).value, "structure") == Section(d, "structure")
  {
    GatheredAdvice(d);
    var notes := Advice(d).value;
    var advised := Put(d, "recommendations", NotesJson(m, notes));
    PutKeepsGathered(d, "recommendations", NotesJson(m, notes));
    GatheredSummary(m, advised, now);
    sm := Summary(m, advised, now).value;
    var c := Put(advised, "summary", JObj(sm));
    PutKeepsGathered(advised, "summary", JObj(sm));
    ConclusionsValue(m, d, now);
    assert Conclusions(m, d, now) == Ok(c);
    SummarySection(advised, sm);
    assert Section(c, "structure") == Section(d, "structure");
  }

  lemma ConclusionsValue(m: Lang.LanguageManager, d: Dict, now: string)
    requires Advice(d).Ok?
    requires Summary(m, Put(d, "recommendations", NotesJson(m, Advice(d).value)), now).Ok?
    ensures var advised := Put(d, "recommendations", NotesJson(m, Advice(d).value));
      Conclusions(m, d, now) == Ok(Put(advised, "summary", JObj(Summary(m, advised, now).value)))
  {
  }

  lemma SummarySection(d: Dict, sm: Dict)
    ensures Section(Put(d, "summary", JObj(sm)), "summary") == sm
  {
  }

  /** A validated address is never empty, so the `not validate_url(url)` branch never raises. */
  lemma ValidatedNonEmpty(lib: UrlValidation.UrlLib, url: string)
    requires UrlValidation.ValidateUrl(lib, Some(url)).Ok?
    ensures UrlValidation.ValidateUrl(lib, Some(url)).value != []
  {
  }

  /** The analyser object: the language manager it shares and its count of completed analyses. */
  datatype Analyzer = Analyzer(manager: Lang.LanguageManager, analysisCount: nat)

  /** A fresh analyser: the shared manager, nothing analysed yet. */
  function NewAnalyzer(): (a: Analyzer)
    ensures a.analysisCount == 0 && Lang.CurrentLanguage(a.manager) == "ru"
  {
    Analyzer(Lang.GlobalManager, 0)
  }

  /** The readings of `datetime.now()`: the results' timestamp, each analyser's own, the summary's. */
  datatype Clock = Clock(results: string, protection: string, structure: string, summary: string)

  /**
   * Everything `analyze_website` takes from outside: what the protection
   * probes observe, the page the structure analyser loads, its selector
   * engine and URL helpers, the URL library, the interpreter's call stack,
   * the clock, and `template.format(error=str(e))`.
   */
  datatype Environment = Environment(
    observations: Protection.Observations,
    page: Structure.PageFetch,
    select: StructureContent.Selection,
    ops: StructurePage.UrlOps,
    urlLib: UrlValidation.UrlLib,
    stack: Structure.Stack,
    clock: Clock,
    failure: (string, Exception) -> string)

  /**
   * A structure report holds what the page in `env` gives: category counts
   * exactly when the page loaded and was not too deep for the stack, and
   * then the page's own; the page's generated selectors where it has any;
   * the load error when the page did not load.
   */
  predicate StructureOfPage(t: Dict, env: Environment)
  {
    && (Get(t, "content_types").Some? <==> env.page.Fetched? && !Structure.Overflows(env.page.doc, env.stack))
    && (Get(t, "content_types").Some? ==>
          Get(t, "content_types") == Some(Structure.CountsObj(StructureContent.DetectContentTypes(env.page.doc, env.select))))
    && (Get(t, "suggested_selectors").Some? ==>
          Get(t, "suggested_selectors") == Some(Structure.SelectorsJson(StructureContent.GenerateSelectors(env.select))))
    && (env.page.FetchFailed? ==> Get(t, "error") == Some(JStr(Structure.LoadErrorPrefix + env.page.cause)))
  }

  /** The translation keeps what the report says about the page. */
  lemma TranslatedOfPage(m: Lang.LanguageManager, f: Dict, env: Environment)
    requires StructureOfPage(f, env) && TranslateStructure(m, f).Ok?
    ensures StructureOfPage(TranslateStructure(m, f).value, env)
  {
    var t := TranslateStructure(m, f).value;
    assert !StructureLocalizedKey("content_types") && !StructureLocalizedKey("suggested_selectors")
      && !StructureLocalizedKey("error");
    SameEntriesOfPage(f, t, env);
  }

  /** Whether a report is the page's depends only on its counts, selectors and error. */
  lemma SameEntriesOfPage(f: Dict, t: Dict, env: Environment)
    requires StructureOfPage(f, env)
    requires Get(t, "content_types") == Get(f, "content_types")
    requires Get(t, "suggested_selectors") == Get(f, "suggested_selectors") && Get(t, "error") == Get(f, "error")
    ensures StructureOfPage(t, env)
  {
  }

  /** The end of the `try`: a success is counted, an exception is raised again with the localised message. */
  function Conclude(a: Analyzer, m: Lang.LanguageManager, outcome: Result<Dict>, failure: (string, Exception) -> string): (r: (Analyzer, Result<Dict>))
    ensures r.0.manager == m && (r.1.Ok? <==> outcome.Ok?)
    ensures r.0.analysisCount == if outcome.Ok? then a.analysisCount + 1 else a.analysisCount
    ensures outcome.Ok? ==> r.1 == outcome
    ensures outcome.Err? ==> r.1 == Err(Raised(failure(Lang.Text(m, "analysis_error"), outcome.error)))
  {
    match outcome
    case Ok(results) => (Analyzer(m, a.analysisCount + 1), Ok(results))
    case Err(e) => (Analyzer(m, a.analysisCount), Err(Raised(failure(Lang.Text(m, "analysis_error"), e))))
  }

  /** The manager after `if language: set_language(language)`. */
  function Switched(m: Lang.LanguageManager, language: Option<string>): Lang.LanguageManager
  {
    if language.Some? && language.value != [] then Lang.SetLanguage(m, language.value).0 else m
  }

  /** The entries `analyze_website` writes before running the analysers. */
  predicate HeaderOf(d: Dict, url: string, analysisType: string, language: string, timestamp: string)
  {
    && Get(d, "url") == Some(JStr(url)) && Get(d, "analysis_type") == Some(JStr(analysisType))
    && Get(d, "language") == Some(JStr(language)) && Get(d, "timestamp") == Some(JStr(timestamp))
    && Get(d, "version") == Some(JStr(Version))
  }

  /** `self.protection_analyzer.analyze(url)`, as the dictionary it returns. */
  method ProtectionResults(url: string, env: Environment) returns (f: Dict)
    ensures f == Protection.ReportJson(Protection.Analyze(url, env.clock.protection, env.observations)).fields
    ensures ProtectionShaped(f)
  {
    var report := Protection.Analyze(url, env.clock.protection, env.observations);
    AnalyserProtectionShaped(report);
    f := Protection.ReportJson(report).fields;
  }

  /** `self.structure_analyzer.analyze(url)`: its category counts are those of the loaded page. */
  method StructureReport(url: string, timestamp: string, page: Structure.PageFetch, select: StructureContent.Selection,
                         ops: StructurePage.UrlOps, stack: Structure.Stack)
    returns (report: Structure.StructureReport)
    ensures report.url == url && report.timestamp == timestamp
    ensures report.StructureFailed? && report.stopped.AtFetch? <==> page.FetchFailed?
    ensures page.FetchFailed? ==> report.error == Structure.LoadErrorPrefix + page.cause
    ensures report.StructureOk? || report.stopped.AtLinks? <==> page.Fetched? && !Structure.Overflows(page.doc, stack)
    ensures report.StructureOk? ==>
              && page.Fetched? && report.contentTypes == StructureContent.DetectContentTypes(page.doc, select)
              && report.selectors == StructureContent.GenerateSelectors(select)
    ensures report.StructureFailed? && report.stopped.AtLinks? ==>
              page.Fetched? && report.stopped.contentTypes == StructureContent.DetectContentTypes(page.doc, select)
    ensures CountsListed(report)
  {
    report := Structure.AnalyzeStructure(url, timestamp, page, select, ops, stack);
    if page.Fetched? {
      Structure.PageReportCounts(report, url, timestamp, page.doc, page.markup, select, ops, stack);
      DetectedCountsListed(report, page.doc, select);
    }
  }

  /** Counts detected on a page list every category. */
  lemma DetectedCountsListed(report: Structure.StructureReport, doc: Dom.Node, select: StructureContent.Selection)
    requires report.StructureOk? ==> report.contentTypes == StructureContent.DetectContentTypes(doc, select)
    requires report.StructureFailed? && report.stopped.AtLinks? ==>
               report.stopped.contentTypes == StructureContent.DetectContentTypes(doc, select)
    ensures CountsListed(report)
  {
    if report.StructureOk? || report.stopped.AtLinks? {
      assert CategoryCounts(StructureContent.DetectContentTypes(doc, select));
    }
  }

  /** `self.structure_analyzer.analyze(url)`, as the dictionary it returns. */
  method StructureResults(url: string, env: Environment) returns (f: Dict)
    ensures StructureShaped(f)
    ensures StructureOfPage(f, env)
  {
    var report := StructureReport(url, env.clock.structure, env.page, env.select, env.ops, env.stack);
    AnalyserStructureShaped(report);
    ReportEntries(report);
    f := Structure.StructureJson(report);
  }

  method RunAnalysers(url: string, analysisType: string, env: Environment) returns (protection: Option<Dict>, structure: Option<Dict>)
    ensures protection.Some? <==> Includes(analysisType, "protection")
    ensures structure.Some? <==> Includes(analysisType, "structure")
    ensures protection.Some? ==> ProtectionShaped(protection.value)
    ensures structure.Some? ==> StructureShaped(structure.value) && StructureOfPage(structure.value, env)
  {
    protection := None;
    if Includes(analysisType, "protection") {
      var f := ProtectionResults(url, env);
      protection := Some(f);
    }
    structure := None;
    if Includes(analysisType, "structure") {
      var f := StructureResults(url, env);
      structure := Some(f);
    }
  }

  /** The part of the `try` block that runs the requested analysers and stores their translated reports. */
  method Gather(m: Lang.LanguageManager, url: string, analysisType: string, env: Environment) returns (reports: Dict)
    ensures Gathered(reports)
    ensures HeaderOf(reports, url, analysisType, Lang.CurrentLanguage(m), env.clock.results)
    ensures Get(reports, "protection").Some? <==> Includes(analysisType, "protection")
    ensures Get(reports, "structure").Some? <==> Includes(analysisType, "structure")
    ensures Includes(analysisType, "structure") ==> StructureOfPage(Section(reports, "structure"), env)
  {
    var header := Header(url, analysisType, Lang.CurrentLanguage(m), env.clock.results);
    HeaderFields(url, analysisType, Lang.CurrentLanguage(m), env.clock.results);
    var protection, structure := RunAnalysers(url, analysisType, env);
    ShapedReportsGathered(m, header, protection, structure);
    reports := Reports(m, header, protection, structure).value;
    ReportsKeepHeader(m, header, protection, structure);
    HeaderKept(header, reports, url, analysisType, Lang.CurrentLanguage(m), env.clock.results);
    if structure.Some? {
      TranslatedOfPage(m, structure.value, env);
    }
  }

  /** Storing the reports leaves the header entries alone. */
  lemma ReportsKeepHeader(m: Lang.LanguageManager, header: Dict, protection: Option<Dict>, structure: Option<Dict>)
    requires Reports(m, header, protection, structure).Ok?
    ensures var r := Reports(m, header, protection, structure).value;
      && Get(r, "url") == Get(header, "url") && Get(r, "analysis_type") == Get(header, "analysis_type")
      && Get(r, "language") == Get(header, "language") && Get(r, "timestamp") == Get(header, "timestamp")
      && Get(r, "version") == Get(header, "version")
  {
    ReportsKeep(m, header, protection, structure, "url");
    ReportsKeep(m, header, protection, structure, "analysis_type");
    ReportsKeep(m, header, protection, structure, "language");
    ReportsKeep(m, header, protection, structure, "timestamp");
    ReportsKeep(m, header, protection, structure, "version");
  }

  lemma ReportsKeep(m: Lang.LanguageManager, header: Dict, protection: Option<Dict>, structure: Option<Dict>, k: string)
    requires Reports(m, header, protection, structure).Ok? && k != "protection" && k != "structure"
    ensures Get(Reports(m, header, protection, structure).value, k) == Get(header, k)
  {
  }

  /** Entries written under other keys leave the header as it was. */
  lemma HeaderKept(d: Dict, e: Dict, url: string, analysisType: string, language: string, timestamp: string)
    requires HeaderOf(d, url, analysisType, language, timestamp)
    requires Get(e, "url") == Get(d, "url") && Get(e, "analysis_type") == Get(d, "analysis_type")
    requires Get(e, "language") == Get(d, "language") && Get(e, "timestamp") == Get(d, "timestamp")
    requires Get(e, "version") == Get(d, "version")
    ensures HeaderOf(e, url, analysisType, language, timestamp)
  {
  }

  /** What the concluded results say, for gathered results. */
  lemma GatheredOutcome(m: Lang.LanguageManager, d: Dict, now: string)
    requires Gathered(d)
    ensures Conclusions(m, d, now).Ok?
    ensures var c := Conclusions(m, d, now).value;
      && (forall k :: k != "recommendations" && k != "summary" ==> Get(c, k) == Get(d, k))
      && Get(c, "recommendations") == Some(NotesJson(m, ExpectedNotes(Get(d, "protection").Some?, ProductsCount(c))))
      && RatedLow(m, Section(c, "summary"))
      && (Get(d, "structure").Some? ==> CountsStructure(Section(c, "summary"), Section(c, "structure")))
  {
    GatheredConclusions(m, d, now);
    GatheredNotes(m, d, now);
    if Get(d, "structure").Some? {
      GatheredStructureSummary(m, d, now);
    }
  }

  /** The results `analyze_website` returns for an analysis of type `analysisType` of `url`, in the manager `m`'s language. */
  predicate Delivered(m: Lang.LanguageManager, d: Dict, url: string, analysisType: string, env: Environment)
  {
    ReportsDelivered(m, d, url, analysisType, env) && SummaryDelivered(m, d, url, analysisType, env)
  }

  /** The entries written first, and the reports asked for. */
  predicate ReportsDelivered(m: Lang.LanguageManager, d: Dict, url: string, analysisType: string, env: Environment)
  {
    // The entries written first, as given.
    && HeaderOf(d, url, analysisType, Lang.CurrentLanguage(m), env.clock.results)
    // A report for each analysis asked for, and only those; the structure report is the page's.
    && (Get(d, "protection").Some? <==> Includes(analysisType, "protection"))
    && (Get(d, "structure").Some? <==> Includes(analysisType, "structure"))
    && (Includes(analysisType, "structure") ==> StructureOfPage(Section(d, "structure"), env))
  }

  /** The summary and the advice concluded from the reports. */
  predicate SummaryDelivered(m: Lang.LanguageManager, d: Dict, url: string, analysisType: string, env: Environment)
  {
    // The summary opens with the address, the time it was made and the current language,
    // followed by the protection entries when there is a protection report.
    && SummaryStamp(Section(d, "summary"), url, env.clock.summary, Lang.CurrentLanguage(m))
    && (Includes(analysisType, "protection") ==> ProtectionSummarised(d))
    // The advice: the low band's notes, then the products note when products were counted; never pagination.
    && Get(d, "recommendations") == Some(NotesJson(m, ExpectedNotes(Includes(analysisType, "protection"), ProductsCount(d))))
    // The summary: always rated low; structure entries counted from the report.
    && RatedLow(m, Section(d, "summary"))
    && (Includes(analysisType, "structure") ==> CountsStructure(Section(d, "summary"), Section(d, "structure")))
  }

  /** The summary's first entries: the address, the time it was made, the language. */
  predicate SummaryStamp(sm: Dict, url: string, now: string, language: string)
  {
    |sm| >= 3 && sm[..3] == [("url", JStr(url)), ("analysis_time", JStr(now)), ("language", JStr(language))]
  }

  /** The summary's protection entries are those of the protection report. */
  predicate ProtectionSummarised(d: Dict)
  {
    && Get(d, "protection").Some? && ProtectionSummary(Get(d, "protection").value).Ok?
    && |Section(d, "summary")| >= 6 && Section(d, "summary")[3..6] == ProtectionSummary(Get(d, "protection").value).value
  }

  /** A summary opens with the results' address, its time and the language, then the protection entries. */
  lemma SummaryStamped(m: Lang.LanguageManager, results: Dict, url: string, now: string)
    requires Summary(m, results, now).Ok? && Get(results, "url") == Some(JStr(url))
    ensures SummaryStamp(Summary(m, results, now).value, url, now, Lang.CurrentLanguage(m))
    ensures Get(results, "protection").Some? ==>
              var sm := Summary(m, results, now).value;
              ProtectionSummary(Get(results, "protection").value).Ok?
              && |sm| >= 6 && sm[3..6] == ProtectionSummary(Get(results, "protection").value).value
  {
    var sm := Summary(m, results, now).value;
    assert sm[..3] == [sm[0], sm[1], sm[2]];
  }

  /** The summary of gathered results opens with its address, time and language, then the protection entries. */
  lemma ConcludedStamp(m: Lang.LanguageManager, d: Dict, url: string, now: string)
    requires Gathered(d) && Get(d, "url") == Some(JStr(url))
    ensures Conclusions(m, d, now).Ok?
    ensures var c := Conclusions(m, d, now).value;
      && SummaryStamp(Section(c, "summary"), url, now, Lang.CurrentLanguage(m))
      && (Get(d, "protection").Some? ==> ProtectionSummarised(c))
  {
    var _ := Concluded(m, d, now);
    var notes := Advice(d).value;
    var advised := Put(d, "recommendations", NotesJson(m, notes));
    assert Get(advised, "url") == Get(d, "url") && Get(advised, "protection") == Get(d, "protection");
    SummaryStamped(m, advised, url, now);
    SummarySection(advised, Summary(m, advised, now).value);
  }

  /** The `try` block for a valid address: it always completes. */
  method AnalyzeValid(m: Lang.LanguageManager, url: string, analysisType: string, env: Environment) returns (d: Dict)
    ensures Delivered(m, d, url, analysisType, env)
  {
    var reports := Gather(m, url, analysisType, env);
    ConcludedDelivered(m, reports, url, analysisType, env);
    d := Conclusions(m, reports, env.clock.summary).value;
  }

  /** Gathered results with the header and the requested reports conclude into what `analyze_website` promises. */
  lemma ConcludedDelivered(m: Lang.LanguageManager, reports: Dict, url: string, analysisType: string, env: Environment)
    requires Gathered(reports)
    requires HeaderOf(reports, url, analysisType, Lang.CurrentLanguage(m), env.clock.results)
    requires Get(reports, "protection").Some? <==> Includes(analysisType, "protection")
    requires Get(reports, "structure").Some? <==> Includes(analysisType, "structure")
    requires Includes(analysisType, "structure") ==> StructureOfPage(Section(reports, "structure"), env)
    ensures Conclusions(m, reports, env.clock.summary).Ok?
    ensures Delivered(m, Conclusions(m, reports, env.clock.summary).value, url, analysisType, env)
  {
    ConcludedReports(m, reports, url, analysisType, env);
    ConcludedSummary(m, reports, url, analysisType, env);
  }

  /** Concluding keeps the header and the reports. */
  lemma ConcludedReports(m: Lang.LanguageManager, reports: Dict, url: string, analysisType: string, env: Environment)
    requires Gathered(reports)
    requires HeaderOf(reports, url, analysisType, Lang.CurrentLanguage(m), env.clock.results)
    requires Get(reports, "protection").Some? <==> Includes(analysisType, "protection")
    requires Get(reports, "structure").Some? <==> Includes(analysisType, "structure")
    requires Includes(analysisType, "structure") ==> StructureOfPage(Section(reports, "structure"), env)
    ensures Conclusions(m, reports, env.clock.summary).Ok?
    ensures ReportsDelivered(m, Conclusions(m, reports, env.clock.summary).value, url, analysisType, env)
  {
    GatheredConclusions(m, reports, env.clock.summary);
    var d := Conclusions(m, reports, env.clock.summary).value;
    HeaderKept(reports, d, url, analysisType, Lang.CurrentLanguage(m), env.clock.results);
    assert Get(d, "protection") == Get(reports, "protection");
    assert Get(d, "structure") == Get(reports, "structure");
  }

  /** The summary and the advice of gathered reports are those the reports imply. */
  lemma ConcludedSummary(m: Lang.LanguageManager, reports: Dict, url: string, analysisType: string, env: Environment)
    requires Gathered(reports) && Get(reports, "url") == Some(JStr(url))
    requires Get(reports, "protection").Some? <==> Includes(analysisType, "protection")
    requires Get(reports, "structure").Some? <==> Includes(analysisType, "structure")
    ensures Conclusions(m, reports, env.clock.summary).Ok?
    ensures SummaryDelivered(m, Conclusions(m, reports, env.clock.summary).value, url, analysisType, env)
  {
    var now := env.clock.summary;
    GatheredOutcome(m, reports, now);
    ConcludedStamp(m, reports, url, now);
    var d := Conclusions(m, reports, now).value;
    assert Get(d, "protection") == Get(reports, "protection");
    assert Get(d, "structure") == Get(reports, "structure");
  }


  /**
   * `analyze_website(url, analysis_type, language)`. An invalid address
   * raises the validation error before anything is counted; otherwise the
   * requested analysers run, their reports are translated, recommendations
   * and a summary are added, and the analysis is counted.
   */
  method AnalyzeWebsite(a: Analyzer, url: string, analysisType: string, language: Option<string>, env: Environment)
    returns (next: Analyzer, r: Result<Dict>)
    ensures next.manager == Switched(a.manager, language)
    ensures UrlValidation.ValidateUrl(env.urlLib, Some(url)).Err? ==>
              r == Err(UrlValidation.ValidateUrl(env.urlLib, Some(url)).error) && next.analysisCount == a.analysisCount
    ensures UrlValidation.ValidateUrl(env.urlLib, Some(url)).Ok? ==> r.Ok? && next.analysisCount == a.analysisCount + 1
    ensures r.Ok? ==> Delivered(next.manager, r.value, url, analysisType, env)
  {
    var m := Switched(a.manager, language);
    match UrlValidation.ValidateUrl(env.urlLib, Some(url))
    case Err(e) =>
      next, r := Analyzer(m, a.analysisCount), Err(e);
    case Ok(_) =>
      var d := AnalyzeValid(m, url, analysisType, env);
      var concluded := Conclude(a, m, Ok(d), env.failure);
      next, r := concluded.0, concluded.1;
  }
}
