/**
 * What the two analysers hand over to comprehensive_analyzer.py, and what the
 * recommendations and the summary say about such reports.
 */
module ComprehensiveReports {
  import opened PyBase
  import opened JsonValue
  import opened ComprehensiveTranslate
  import opened ComprehensiveAdvice
  import Lang = Languages
  import Protection
  import Structure
  import StructureContent

  // ---------------------------------------------------------------------------
  // What the two analysers hand over, read by key

  /** The keys of the protection analyser's report; the last two only after the full analysis. */
  function ProtectionKeys(full: bool): seq<string>
  {
    if full then ["url", "timestamp", "mechanisms", "bypass_methods", "total_score", "complexity_level", "best_method", "bypass_success_rate"]
    else ["url", "timestamp", "mechanisms", "bypass_methods", "total_score", "complexity_level"]
  }

  /** A dict shaped like the protection analyser's report: a dict of bypass methods, a level name. */
  predicate ProtectionShaped(f: Dict)
  {
    (Firsts(f) == ProtectionKeys(true) || Firsts(f) == ProtectionKeys(false)) && f[3].1.JObj? && f[5].1.JStr?
  }

  lemma AnalyserProtectionShaped(p: Protection.ProtectionReport)
    ensures ProtectionShaped(Protection.ReportJson(p).fields)
  {
  }

  /** Such a report is read by key as by position. */
  lemma ProtectionShapedGet(f: Dict, full: bool)
    requires Firsts(f) == ProtectionKeys(full)
    ensures Get(f, "bypass_methods") == Some(f[3].1) && Get(f, "complexity_level") == Some(f[5].1)
  {
    ProtectionShapedAt(f, full, 3);
    ProtectionShapedAt(f, full, 5);
  }

  lemma ProtectionShapedAt(f: Dict, full: bool, i: nat)
    requires Firsts(f) == ProtectionKeys(full) && i < 6
    ensures Get(f, ProtectionKeys(full)[i]) == Some(f[i].1)
  {
    // The first six keys differ in length.
    assert forall j :: 0 <= j < i ==> |ProtectionKeys(full)[j]| != |ProtectionKeys(full)[i]|;
    GetAt(f, i);
  }

  lemma ProtectionShapedAbsent(f: Dict, full: bool)
    requires Firsts(f) == ProtectionKeys(full)
    ensures Get(f, "protection_details").None? && Get(f, "complexity_score").None?
  {
    assert "protection_details" !in ProtectionKeys(full);
    assert "complexity_score" !in ProtectionKeys(full);
  }

  /** Every dict can be listed: its keys are strings. */
  lemma DictListable(j: Json)
    requires j.JObj?
    ensures Listable(j)
  {
  }

  /** Such a report is one the protection translation accepts, and it never carries a `complexity_score`. */
  lemma ProtectionShapedTranslatable(f: Dict)
    requires ProtectionShaped(f)
    ensures ProtectionTranslatable(f)
    ensures Get(f, "complexity_score").None?
  {
    var full := Firsts(f) == ProtectionKeys(true);
    ProtectionShapedGet(f, full);
    ProtectionShapedAbsent(f, full);
    DictListable(f[3].1);
  }

  lemma ProtectionShapedTranslates(m: Lang.LanguageManager, f: Dict)
    requires ProtectionShaped(f)
    ensures TranslateProtection(m, f).Ok?
    ensures Get(TranslateProtection(m, f).value, "complexity_score").None?
  {
    ProtectionShapedTranslatable(f);
    TranslateProtectionNoScore(m, f);
  }

  /** A translatable report without a `complexity_score` translates to one without it. */
  lemma TranslateProtectionNoScore(m: Lang.LanguageManager, f: Dict)
    requires ProtectionTranslatable(f) && Get(f, "complexity_score").None?
    ensures TranslateProtection(m, f).Ok? && Get(TranslateProtection(m, f).value, "complexity_score").None?
  {
    assert !ProtectionLocalizedKey("complexity_score");
  }

  /** The category counts of a structure report: whole numbers, never a `pagination` entry. */
  predicate CountsReadable(c: Dict)
  {
    "pagination" !in Firsts(c) && forall i :: 0 <= i < |c| ==> c[i].1.JInt?
  }

  /** Selector groups, each a list. */
  predicate SelectorsReadable(g: Dict)
  {
    forall i :: 0 <= i < |g| ==> g[i].1.JArr?
  }

  /**
   * The entries of the structure report the summary and the advice read:
   * `content_types` once the DOM statistics were done, `suggested_selectors`
   * only in a complete report, `error` in a failed one.
   */
  lemma ReportEntries(s: Structure.StructureReport)
    ensures var j := Structure.StructureJson(s);
      && (Get(j, "content_types").Some? <==> s.StructureOk? || s.stopped.AtLinks?)
      && (s.StructureOk? ==> Get(j, "content_types") == Some(Structure.CountsObj(s.contentTypes))
                             && Get(j, "suggested_selectors") == Some(Structure.SelectorsJson(s.selectors)))
      && (s.StructureFailed? && s.stopped.AtLinks? ==> Get(j, "content_types") == Some(Structure.CountsObj(s.stopped.contentTypes)))
      && (s.StructureFailed? ==> Get(j, "suggested_selectors").None? && Get(j, "error") == Some(JStr(s.error)))
  {
    var j := Structure.StructureJson(s);
    if s.StructureOk? {
      StructureShapedOk(j);
    } else {
      Structure.FailedReportFields(s);
      FailedKeysShapes(s.stopped);
      if s.stopped.AtLinks? {
        StructureShapedLinksFailed(j);
      } else {
        StructureShapedFailed(j);
      }
    }
  }

  /** The keys of a structure report that stopped at the fetch. */
  const FetchFailedKeys: seq<string> := Structure.HeadKeys + ["error", "success"]

  /** The keys of a structure report that stopped in the DOM statistics. */
  const DomFailedKeys: seq<string> := Structure.HeadKeys + Structure.BasicKeys + ["error", "success"]

  /** The keys of a structure report that stopped in the links. */
  const LinksFailedKeys: seq<string> := Structure.HeadKeys + Structure.BasicKeys + Structure.DomKeys + ["content_types", "error", "success"]

  /** A dict shaped like the structure analyser's report: failed at one of its stages, or complete. */
  predicate StructureShaped(f: Dict)
  {
    || Firsts(f) == FetchFailedKeys
    || Firsts(f) == DomFailedKeys
    || (&& Firsts(f) == LinksFailedKeys
        && f[16].1.JObj? && CountsReadable(f[16].1.fields))
    || (&& Firsts(f) == Structure.OkKeys
        && f[16].1.JObj? && CountsReadable(f[16].1.fields)
        && f[26].1.JObj? && SelectorsReadable(f[26].1.fields))
  }

  /** The category counts hold one entry per category, in order. */
  predicate CategoryCounts(t: seq<(string, nat)>)
  {
    |t| == StructureContent.CategoryCount &&
    forall k :: 0 <= k < StructureContent.CategoryCount ==> t[k].0 == StructureContent.CategoryName(k)
  }

  lemma FailedKeysShapes(stopped: Structure.Stopped)
    ensures stopped.AtFetch? ==> Structure.FailedKeys(stopped) == FetchFailedKeys
    ensures stopped.AtDom? ==> Structure.FailedKeys(stopped) == DomFailedKeys
    ensures stopped.AtLinks? ==> Structure.FailedKeys(stopped) == LinksFailedKeys
  {
  }

  /** Whatever category counts a structure report carries list every category, in order. */
  predicate CountsListed(s: Structure.StructureReport)
  {
    && (s.StructureOk? ==> CategoryCounts(s.contentTypes))
    && (s.StructureFailed? && s.stopped.AtLinks? ==> CategoryCounts(s.stopped.contentTypes))
  }

  lemma AnalyserStructureShaped(s: Structure.StructureReport)
    requires CountsListed(s)
    ensures StructureShaped(Structure.StructureJson(s))
  {
    var j := Structure.StructureJson(s);
    if s.StructureOk? {
      CountsObjReadable(s.contentTypes);
      SelectorsJsonReadable(s.selectors);
      assert j[16].1 == Structure.CountsObj(s.contentTypes) && j[26].1 == Structure.SelectorsJson(s.selectors);
    } else {
      FailedKeysShapes(s.stopped);
      if s.stopped.AtLinks? {
        CountsObjReadable(s.stopped.contentTypes);
        var w := Structure.Written(s.url, s.timestamp, s.stopped);
        assert j[16] == w[16];
      }
    }
  }

  /** The category counts, one per category in order, are readable. */
  lemma CountsObjReadable(t: seq<(string, nat)>)
    requires |t| == StructureContent.CategoryCount
    requires forall k :: 0 <= k < StructureContent.CategoryCount ==> t[k].0 == StructureContent.CategoryName(k)
    ensures Structure.CountsObj(t).JObj? && CountsReadable(Structure.CountsObj(t).fields)
  {
    Structure.NoPaginationCategory();
    var c := Structure.CountsObj(t).fields;
    assert forall i :: 0 <= i < |c| ==> c[i].0 == StructureContent.CategoryName(i);
  }

  /** The selector groups are lists. */
  lemma SelectorsJsonReadable(sections: seq<(string, seq<StructureContent.Suggestion>)>)
    ensures Structure.SelectorsJson(sections).JObj? && SelectorsReadable(Structure.SelectorsJson(sections).fields)
  {
  }

  /** What the orchestrator needs of a structure report: no `dom_stats`, and counts and selector groups as above. */
  predicate StructureReadable(t: Dict)
  {
    && Get(t, "dom_stats").None?
    && GetOr(t, "content_types", JObj([])).JObj? && CountsReadable(GetOr(t, "content_types", JObj([])).fields)
    && GetOr(t, "suggested_selectors", JObj([])).JObj? && SelectorsReadable(GetOr(t, "suggested_selectors", JObj([])).fields)
  }

  /** A key missing from the first `i` keys and found at `i` is read there. */
  lemma GetFirst(f: Dict, i: nat, k: string)
    requires i < |f| && f[i].0 == k && k !in Firsts(f)[..i]
    ensures Get(f, k) == Some(f[i].1)
  {
    assert forall j :: 0 <= j < i ==> Firsts(f)[..i][j] == f[j].0;
    GetAt(f, i);
  }

  lemma StructureShapedOk(f: Dict)
    requires Firsts(f) == Structure.OkKeys
    ensures Get(f, "content_types") == Some(f[16].1) && Get(f, "suggested_selectors") == Some(f[26].1)
  {
    ContentTypesAt(f);
    SelectorsAt(f);
  }

  /** The keys before `content_types`. */
  const EarlyKeys: seq<string> := Structure.HeadKeys + Structure.BasicKeys + Structure.DomKeys

  /** The keys from `content_types` to just before `suggested_selectors`. */
  const MiddleKeys: seq<string> := ["content_types"] + Structure.LinkKeys + Structure.TailKeys[..3]

  lemma OkKeysSplit()
    ensures Structure.OkKeys == EarlyKeys + MiddleKeys + Structure.TailKeys[3..]
    ensures |EarlyKeys| == 16 && |MiddleKeys| == 10
  {
  }

  lemma OkKeysFacts()
    ensures "content_types" !in EarlyKeys
    ensures "suggested_selectors" !in EarlyKeys + MiddleKeys
    ensures Structure.OkKeys[16] == "content_types" && Structure.OkKeys[26] == "suggested_selectors"
  {
    OkKeysSplit();
  }

  lemma ContentTypesAt(f: Dict)
    requires Firsts(f) == Structure.OkKeys
    ensures Get(f, "content_types") == Some(f[16].1)
  {
    OkKeysSplit();
    OkKeysFacts();
    PrefixOfAppend(Firsts(f), EarlyKeys, MiddleKeys + Structure.TailKeys[3..]);
    GetFirst(f, 16, "content_types");
  }

  lemma SelectorsAt(f: Dict)
    requires Firsts(f) == Structure.OkKeys
    ensures Get(f, "suggested_selectors") == Some(f[26].1)
  {
    OkKeysSplit();
    OkKeysFacts();
    PrefixOfAppend(Firsts(f), EarlyKeys + MiddleKeys, Structure.TailKeys[3..]);
    GetFirst(f, 26, "suggested_selectors");
  }

  lemma StructureShapedFailed(f: Dict)
    requires Firsts(f) == FetchFailedKeys || Firsts(f) == DomFailedKeys
    ensures Get(f, "content_types").None? && Get(f, "suggested_selectors").None?
  {
    assert "content_types" !in FetchFailedKeys && "suggested_selectors" !in FetchFailedKeys;
    assert "content_types" !in DomFailedKeys && "suggested_selectors" !in DomFailedKeys;
  }

  lemma StructureShapedLinksFailed(f: Dict)
    requires Firsts(f) == LinksFailedKeys
    ensures Get(f, "content_types") == Some(f[16].1) && Get(f, "suggested_selectors").None?
  {
    LinksFailedContentTypes(f);
    assert "suggested_selectors" !in LinksFailedKeys by {
      OkKeysFacts();
      assert LinksFailedKeys == EarlyKeys + ["content_types", "error", "success"];
    }
  }

  lemma LinksFailedContentTypes(f: Dict)
    requires Firsts(f) == LinksFailedKeys
    ensures Get(f, "content_types") == Some(f[16].1)
  {
    OkKeysSplit();
    OkKeysFacts();
    PrefixOfAppend(Firsts(f), EarlyKeys, ["content_types", "error", "success"]);
    GetFirst(f, 16, "content_types");
  }

  lemma StructureShapedNoStats(f: Dict)
    requires StructureShaped(f)
    ensures Get(f, "dom_stats").None?
  {
    Structure.NotOkKeyAbsent("dom_stats");
    assert "dom_stats" !in FetchFailedKeys && "dom_stats" !in DomFailedKeys && "dom_stats" !in LinksFailedKeys;
  }

  /** Such a report is one the structure translation accepts, and one the summary can read. */
  lemma StructureShapedReadable(f: Dict)
    requires StructureShaped(f)
    ensures StructureTranslatable(f) && StructureReadable(f)
  {
    StructureShapedNoStats(f);
    if Firsts(f) == Structure.OkKeys {
      StructureShapedOk(f);
    } else if Firsts(f) == LinksFailedKeys {
      StructureShapedLinksFailed(f);
    } else {
      StructureShapedFailed(f);
    }
  }

  /** The translation keeps what the summary reads. */
  lemma StructureShapedTranslates(m: Lang.LanguageManager, f: Dict)
    requires StructureShaped(f)
    ensures TranslateStructure(m, f).Ok? && StructureReadable(TranslateStructure(m, f).value)
  {
    StructureShapedReadable(f);
    var t := TranslateStructure(m, f).value;
    assert Get(t, "dom_stats") == Get(f, "dom_stats");
    assert Get(t, "content_types") == Get(f, "content_types");
    assert Get(t, "suggested_selectors") == Get(f, "suggested_selectors");
  }

  // ---------------------------------------------------------------------------
  // Recommendations and summary over the analysers' reports

  /** `d[key]` when it is a dict, empty otherwise. */
  function Section(d: Dict, key: string): (r: Dict)
    ensures forall v :: Get(d, key) == Some(v) && v.JObj? ==> r == v.fields
  {
    match Get<Json>(d, key)
    case Some(JObj(fields)) => fields
    case _ => []
  }

  /** `results['structure']['content_types']['products']`, the number of product blocks found, 0 without one. */
  function ProductsCount(d: Dict): int
  {
    match Get<Json>(Section(Section(d, "structure"), "content_types"), "products")
    case Some(JInt(n)) => n
    case _ => 0
  }

  /** What the orchestrator has gathered once both analysers ran and their reports were translated. */
  predicate Gathered(d: Dict)
  {
    && Get(d, "url").Some?
    && (Get(d, "protection").Some? ==>
          Get(d, "protection").value.JObj? && Get(Get(d, "protection").value.fields, "complexity_score").None?)
    && (Get(d, "structure").Some? ==>
          Get(d, "structure").value.JObj? && StructureReadable(Get(d, "structure").value.fields))
  }

  /**
   * The notes the analysers' reports lead to: the low band's two notes when
   * the protection report is present, then the products note when products
   * were counted. The pagination note is never among them.
   */
  function ExpectedNotes(protection: bool, products: int): (ns: seq<Note>)
    ensures PaginationFound !in ns
  {
    (if protection then BandNotes(LowBand) else []) + (if products != 0 then [ProductsFound] else [])
  }

  /** The products flag is the products count, and the pagination flag is always false. */
  lemma GatheredFlags(d: Dict, v: Json)
    requires Gathered(d) && Get(d, "structure") == Some(v)
    ensures ContentFlag(v, "products") == Ok(ProductsCount(d) != 0)
    ensures ContentFlag(v, "pagination") == Ok(false)
  {
    var types := GetOr(v.fields, "content_types", JObj([]));
    assert Section(Section(d, "structure"), "content_types") == types.fields;
    assert Get(types.fields, "pagination").None?;
  }

  /** Without a `complexity_score` every report lands in the low band. */
  lemma GatheredProtectionAdvice(d: Dict)
    requires Gathered(d)
    ensures ProtectionAdvice(d) == Ok(if Get(d, "protection").Some? then BandNotes(LowBand) else [])
  {
  }

  lemma GatheredStructureAdvice(d: Dict)
    requires Gathered(d)
    ensures StructureAdvice(d) == Ok(if ProductsCount(d) != 0 then [ProductsFound] else [])
  {
    match Get(d, "structure")
    case None =>
      assert Section(d, "structure") == [];
    case Some(v) =>
      GatheredFlags(d, v);
      var products: seq<Note> := if ProductsCount(d) != 0 then [ProductsFound] else [];
      assert StructureAdvice(d) == Ok(products + []);
      assert products + [] == products;
  }

  lemma GatheredAdvice(d: Dict)
    requires Gathered(d)
    ensures Advice(d) == Ok(ExpectedNotes(Get(d, "protection").Some?, ProductsCount(d)))
  {
    GatheredProtectionAdvice(d);
    GatheredStructureAdvice(d);
  }

  /** Every selector group is a list, so the groups' lengths add up. */
  lemma ReadableSelectorsSum(g: Dict)
    requires SelectorsReadable(g)
    ensures SumLens(g).Ok?
  {
    assert forall i :: 0 <= i < |g| ==> PyLen(g[i].1).Some?;
  }

  /** The summary rates the scraping difficulty low, in the manager's language. */
  predicate RatedLow(m: Lang.LanguageManager, sm: Dict)
  {
    |sm| >= 5 && sm[|sm| - 2] == ("scraping_difficulty", JStr(Lang.Text(m, "protection_low")))
  }

  /**
   * The summary's structure entries, read off the structure report `st`: no
   * elements (the report has no `dom_stats`), the number of content types
   * counted at least once, the number of selectors suggested.
   */
  predicate CountsStructure(sm: Dict, st: Dict)
  {
    && |sm| >= 5
    && sm[|sm| - 5] == ("dom_elements", JInt(0))
    && sm[|sm| - 4] == ("content_types_found", JInt(TruthyCount(Section(st, "content_types"))))
    && SumLens(Section(st, "suggested_selectors")).Ok?
    && sm[|sm| - 3] == ("selectors_generated", JInt(SumLens(Section(st, "suggested_selectors")).value))
  }

  /** The summary of gathered results: the low band, and the structure entries counted from the report. */
  lemma GatheredSummary(m: Lang.LanguageManager, d: Dict, now: string)
    requires Gathered(d)
    ensures Summary(m, d, now).Ok? && RatedLow(m, Summary(m, d, now).value)
    ensures Get(d, "structure").Some? ==> CountsStructure(Summary(m, d, now).value, Section(d, "structure"))
  {
    GatheredParts(d);
    SummaryOk(m, d, now);
    var sm := Summary(m, d, now).value;
    assert sm[|sm| - 2] == sm[|sm| - 2..][0];
    if Get(d, "structure").Some? {
      var v := Get(d, "structure").value;
      assert Section(d, "structure") == v.fields;
      SummaryCountsStructure(sm, v);
    }
  }

  /** A summary whose structure entries are those of the structure report's own summary counts that report. */
  lemma SummaryCountsStructure(sm: Dict, v: Json)
    requires v.JObj? && StructureReadable(v.fields)
    requires StructureSummary(v).Ok? && |sm| >= 5 && sm[|sm| - 5..|sm| - 2] == StructureSummary(v).value
    ensures CountsStructure(sm, v.fields)
  {
    assert Section(v.fields, "content_types") == GetOr(v.fields, "content_types", JObj([])).fields;
    assert Section(v.fields, "suggested_selectors") == GetOr(v.fields, "suggested_selectors", JObj([])).fields;
    var st := StructureSummary(v).value;
    assert sm[|sm| - 5..|sm| - 2] == st;
    assert sm[|sm| - 5] == st[0] && sm[|sm| - 4] == st[1] && sm[|sm| - 3] == st[2];
  }

  /** The parts of gathered results are readable, and their band is the low one. */
  lemma GatheredParts(d: Dict)
    requires Gathered(d)
    ensures Part(d, "protection", ProtectionSummary).Ok?
    ensures Part(d, "structure", StructureSummary).Ok?
    ensures BandOfReport(GetOr(d, "protection", JObj([]))) == Ok(LowBand)
  {
    match Get(d, "structure")
    case None =>
    case Some(v) =>
      ReadableSelectorsSum(GetOr(v.fields, "suggested_selectors", JObj([])).fields);
  }

  /** With an address, readable parts and a band, the summary is made. */
  lemma SummaryOk(m: Lang.LanguageManager, d: Dict, now: string)
    requires Get(d, "url").Some?
    requires Part(d, "protection", ProtectionSummary).Ok? && Part(d, "structure", StructureSummary).Ok?
    requires BandOfReport(GetOr(d, "protection", JObj([]))).Ok?
    ensures Summary(m, d, now).Ok?
  {
  }
}
