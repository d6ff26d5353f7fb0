/**
 * The recommendations and the summary of comprehensive_analyzer.py, computed
 * from the translated reports.
 */
module ComprehensiveAdvice {
  import opened PyBase
  import opened JsonValue
  import opened ComprehensiveTranslate
  import Lang = Languages
  import Protection

  // ---------------------------------------------------------------------------
  // Score bands, shared by the recommendations and the summary

  datatype Band = LowBand | MediumBand | HighBand | CriticalBand

  /** The band of a score: below 40, below 60, below 80, or above. */
  function BandOf(score: real): (b: Band)
    ensures b == LowBand <==> score < 40.0
    ensures b == MediumBand <==> 40.0 <= score < 60.0
    ensures b == HighBand <==> 60.0 <= score < 80.0
    ensures b == CriticalBand <==> 80.0 <= score
  {
    if score < 40.0 then LowBand
    else if score < 60.0 then MediumBand
    else if score < 80.0 then HighBand
    else CriticalBand
  }

  /** The bands are the protection analyser's levels: a band read from `total_score` would name the analyser's level. */
  lemma BandMatchesTier(total: int)
    ensures BandKey(BandOf(total as real)) == LevelKey(Protection.LevelName(Protection.Tier(total))).value
  {
  }

  /** The `get_text` key of a band's name. */
  function BandKey(b: Band): string
  {
    match b
    case LowBand => "protection_low"
    case MediumBand => "protection_medium"
    case HighBand => "protection_high"
    case CriticalBand => "protection_critical"
  }

  /** A value compared with an int: booleans and numbers compare, anything else raises `TypeError`. */
  function Number(j: Json): (r: Result<real>)
    ensures r.Ok? <==> j.JBool? || j.JInt? || j.JReal?
  {
    match j
    case JBool(b) => Ok(if b then 1.0 else 0.0)
    case JInt(i) => Ok(i as real)
    case JReal(x) => Ok(x)
    case _ => Err(TypeError)
  }

  /** The band of `protection.get('complexity_score', 0)`. */
  function BandOfReport(protection: Json): (r: Result<Band>)
    ensures protection.JObj? && Get(protection.fields, "complexity_score").None? ==> r == Ok(LowBand)
  {
    match DictGet(protection, "complexity_score", JInt(0))
    case Err(e) => Err(e)
    case Ok(score) =>
      match Number(score)
      case Err(e) => Err(e)
      case Ok(x) => Ok(BandOf(x))
  }

  // ---------------------------------------------------------------------------
  // `_generate_recommendations`

  datatype Note =
    | SimpleScraping | AddUserAgent
    | MediumComplexity | AddDelays
    | HighComplexity | RotateProxies
    | CriticalProtection | CaptchaServices | ManualProcessing
    | ProductsFound | PaginationFound

  /** The notes of a band: two for the three lower bands, three for the critical one. */
  function BandNotes(b: Band): (ns: seq<Note>)
    ensures |ns| == if b == CriticalBand then 3 else 2
    ensures ProductsFound !in ns && PaginationFound !in ns
  {
    match b
    case LowBand => [SimpleScraping, AddUserAgent]
    case MediumBand => [MediumComplexity, AddDelays]
    case HighBand => [HighComplexity, RotateProxies]
    case CriticalBand => [CriticalProtection, CaptchaServices, ManualProcessing]
  }

  /** Different bands give different notes. */
  lemma BandNotesDistinct(a: Band, b: Band)
    requires a != b
    ensures BandNotes(a)[0] != BandNotes(b)[0]
  {
  }

  /** The text of a note in Russian (`ru`) or, for any other language, in English. */
  function NoteText(n: Note, ru: bool): string
  {
    match n
    case SimpleScraping => if ru then "✅ Простой парсинг: используйте requests + BeautifulSoup" else "✅ Simple scraping: use requests + BeautifulSoup"
    case AddUserAgent => if ru then "🔧 Добавьте User-Agent заголовки для стабильности" else "🔧 Add User-Agent headers for stability"
    case MediumComplexity => if ru then "⚠️ Средняя сложность: требуется cloudscraper или fake-useragent" else "⚠️ Medium complexity: requires cloudscraper or fake-useragent"
    case AddDelays => if ru then "🛡️ Добавьте задержки между запросами" else "🛡️ Add delays between requests"
    case HighComplexity => if ru then "🚨 Высокая сложность: обязательно Selenium или undetected-chrome" else "🚨 High complexity: mandatory Selenium or undetected-chrome"
    case RotateProxies => if ru then "🔄 Используйте ротацию прокси и User-Agent" else "🔄 Use proxy and User-Agent rotation"
    case CriticalProtection => if ru then "💥 Критическая защита: нужны продвинутые методы обхода" else "💥 Critical protection: need advanced bypass methods"
    case CaptchaServices => if ru then "🤖 Рассмотрите использование капча-сервисов" else "🤖 Consider using captcha-solving services"
    case ManualProcessing => if ru then "⏱️ Значительные задержки и ручная обработка" else "⏱️ Significant delays and manual processing"
    case ProductsFound => if ru then "🛒 Обнаружены товары: используйте готовые селекторы" else "🛒 Products detected: use provided selectors"
    case PaginationFound => if ru then "📄 Пагинация найдена: автоматизируйте переход по страницам" else "📄 Pagination found: automate page navigation"
  }

  /** The notes on the protection report, when there is one. */
  function ProtectionAdvice(results: Dict): (r: Result<seq<Note>>)
    ensures Get(results, "protection").None? ==> r == Ok([])
    ensures forall p :: Get(results, "protection") == Some(p) ==>
              (r.Ok? <==> BandOfReport(p).Ok?) && (r.Ok? ==> r.value == BandNotes(BandOfReport(p).value))
  {
    match Get(results, "protection")
    case None => Ok([])
    case Some(p) =>
      match BandOfReport(p)
      case Err(e) => Err(e)
      case Ok(b) => Ok(BandNotes(b))
  }

  /** `structure.get('content_types', {}).get(name)`, read for its truth value. */
  function ContentFlag(structure: Json, name: string): (r: Result<bool>)
    ensures r.Ok? <==> structure.JObj? && GetOr(structure.fields, "content_types", JObj([])).JObj?
  {
    match DictGet(structure, "content_types", JObj([]))
    case Err(e) => Err(e)
    case Ok(types) =>
      match DictGet(types, name, JNull)
      case Err(e) => Err(e)
      case Ok(v) => Ok(Truthy(v))
  }

  /** The notes on the structure report, when there is one: products, then pagination. */
  function StructureAdvice(results: Dict): (r: Result<seq<Note>>)
    ensures Get(results, "structure").None? ==> r == Ok([])
    ensures r.Ok? ==> (ProductsFound in r.value <==> exists s :: Get(results, "structure") == Some(s) && ContentFlag(s, "products") == Ok(true))
    ensures r.Ok? ==> (PaginationFound in r.value <==> exists s :: Get(results, "structure") == Some(s) && ContentFlag(s, "pagination") == Ok(true))
  {
    match Get(results, "structure")
    case None => Ok([])
    case Some(s) =>
      match ContentFlag(s, "products")
      case Err(e) => Err(e)
      case Ok(products) =>
        match ContentFlag(s, "pagination")
        case Err(e) => Err(e)
        case Ok(pagination) =>
          Ok((if products then [ProductsFound] else []) + (if pagination then [PaginationFound] else []))
  }

  /** The notes of `_generate_recommendations`: which ones is decided without regard to the language. */
  function Advice(results: Dict): (r: Result<seq<Note>>)
  {
    match ProtectionAdvice(results)
    case Err(e) => Err(e)
    case Ok(ps) =>
      match StructureAdvice(results)
      case Err(e) => Err(e)
      case Ok(ss) => Ok(ps + ss)
  }

  /** The texts of the notes in the manager's current language. */
  function NoteTexts(m: Lang.LanguageManager, notes: seq<Note>): (ts: seq<string>)
    ensures |ts| == |notes|
    ensures forall i :: 0 <= i < |notes| ==> ts[i] == NoteText(notes[i], Lang.CurrentLanguage(m) == "ru")
  {
    seq(|notes|, i requires 0 <= i < |notes| => NoteText(notes[i], Lang.CurrentLanguage(m) == "ru"))
  }

  /** `_generate_recommendations`. */
  function Recommendations(m: Lang.LanguageManager, results: Dict): (r: Result<seq<string>>)
    ensures r.Ok? <==> Advice(results).Ok?
  {
    match Advice(results)
    case Err(e) => Err(e)
    case Ok(notes) => Ok(NoteTexts(m, notes))
  }

  /**
   * The language changes the wording only: two managers give as many
   * recommendations, note for note, each in its manager's language.
   */
  lemma RecommendationsSameNotes(m1: Lang.LanguageManager, m2: Lang.LanguageManager, results: Dict)
    requires Advice(results).Ok?
    ensures |Recommendations(m1, results).value| == |Recommendations(m2, results).value| == |Advice(results).value|
    ensures forall i :: 0 <= i < |Advice(results).value| ==>
              Recommendations(m1, results).value[i] == NoteText(Advice(results).value[i], Lang.CurrentLanguage(m1) == "ru")
              && Recommendations(m2, results).value[i] == NoteText(Advice(results).value[i], Lang.CurrentLanguage(m2) == "ru")
  {
  }

  /** The protection notes come first and are those of the report's score band. */
  lemma AdviceStartsWithBand(results: Dict, p: Json)
    requires Get(results, "protection") == Some(p) && Advice(results).Ok?
    ensures BandOfReport(p).Ok?
    ensures Advice(results).value[..|BandNotes(BandOfReport(p).value)|] == BandNotes(BandOfReport(p).value)
  {
  }

  // ---------------------------------------------------------------------------
  // `_generate_summary`

  /** `sum(len(v) for v in fields.values())`; a value without a length raises `TypeError`. */
  function SumLens(fields: Dict): (r: Result<nat>)
    ensures r.Ok? <==> forall i :: 0 <= i < |fields| ==> PyLen(fields[i].1).Some?
  {
    if fields == [] then Ok(0)
    else
      match PyLen(fields[0].1)
      case None => Err(TypeError)
      case Some(n) =>
        match SumLens(fields[1..])
        case Err(e) => Err(e)
        case Ok(rest) => Ok(n + rest)
  }

  /** The lengths add up: the total is at least each list's length. */
  lemma {:induction false} SumLensBound(fields: Dict, i: nat)
    requires i < |fields| && SumLens(fields).Ok?
    ensures PyLen(fields[i].1).value <= SumLens(fields).value
    decreases |fields|
  {
    if i > 0 {
      SumLensBound(fields[1..], i - 1);
    }
  }

  /** `len([k for k, v in fields.items() if v])`. */
  function TruthyCount(fields: Dict): (n: nat)
    ensures n <= |fields|
  {
    if fields == [] then 0 else (if Truthy(fields[0].1) then 1 else 0) + TruthyCount(fields[1..])
  }

  /** The count is zero exactly when every value is falsy. */
  lemma {:induction false} TruthyCountZero(fields: Dict)
    ensures TruthyCount(fields) == 0 <==> forall i :: 0 <= i < |fields| ==> !Truthy(fields[i].1)
    decreases |fields|
  {
    if fields != [] {
      TruthyCountZero(fields[1..]);
      assert forall i :: 1 <= i < |fields| ==> fields[i] == fields[1..][i - 1];
    }
  }

  /** The summary's protection entries: level, score and localised level, with defaults. */
  function ProtectionSummary(p: Json): (r: Result<Dict>)
    ensures r.Ok? <==> p.JObj?
    ensures r.Ok? ==> Firsts(r.value) == ["protection_level", "protection_score", "protection_level_localized"]
    // Each entry is the report's value, or its default when the report lacks the key.
    ensures r.Ok? ==> r.value[0].1 == (match Get(p.fields, "complexity_level") case Some(v) => v case None => JStr("UNKNOWN"))
    ensures r.Ok? ==> r.value[1].1 == (match Get(p.fields, "complexity_score") case Some(v) => v case None => JInt(0))
    ensures r.Ok? ==> r.value[2].1 == (match Get(p.fields, "complexity_level_localized") case Some(v) => v case None => JStr("UNKNOWN"))
  {
    if !p.JObj? then Err(AttributeError)
    else Ok([
      ("protection_level", GetOr(p.fields, "complexity_level", JStr("UNKNOWN"))),
      ("protection_score", GetOr(p.fields, "complexity_score", JInt(0))),
      ("protection_level_localized", GetOr(p.fields, "complexity_level_localized", JStr("UNKNOWN")))])
  }

  /** The summary's structure entries: element count, detected content types, selectors generated. */
  function StructureSummary(s: Json): (r: Result<Dict>)
    ensures r.Ok? ==> s.JObj? && GetOr(s.fields, "dom_stats", JObj([])).JObj? && GetOr(s.fields, "content_types", JObj([])).JObj?
                      && GetOr(s.fields, "suggested_selectors", JObj([])).JObj?
                      && SumLens(GetOr(s.fields, "suggested_selectors", JObj([])).fields).Ok?
    ensures r.Ok? ==> Firsts(r.value) == ["dom_elements", "content_types_found", "selectors_generated"]
    ensures r.Ok? && Get(s.fields, "dom_stats").None? ==> r.value[0].1 == JInt(0)
    ensures r.Ok? ==> forall st :: Get(s.fields, "dom_stats") == Some(JObj(st)) ==>
              r.value[0].1 == (match Get(st, "total_elements") case Some(v) => v case None => JInt(0))
    ensures r.Ok? ==> r.value[1].1 == JInt(TruthyCount(GetOr(s.fields, "content_types", JObj([])).fields))
    ensures r.Ok? ==> r.value[2].1 == JInt(SumLens(GetOr(s.fields, "suggested_selectors", JObj([])).fields).value)
  {
    if !s.JObj? then Err(AttributeError)
    else
      var stats := GetOr(s.fields, "dom_stats", JObj([]));
      if !stats.JObj? then Err(AttributeError)
      else
        var types := GetOr(s.fields, "content_types", JObj([]));
        if !types.JObj? then Err(AttributeError)
        else
          var selectors := GetOr(s.fields, "suggested_selectors", JObj([]));
          if !selectors.JObj? then Err(AttributeError)
          else
            match SumLens(selectors.fields)
            case Err(e) => Err(e)
            case Ok(total) =>
              Ok([("dom_elements", GetOr(stats.fields, "total_elements", JInt(0))),
                  ("content_types_found", JInt(TruthyCount(types.fields))),
                  ("selectors_generated", JInt(total))])
  }

  /** The development time estimate of a band, in Russian or English. */
  function TimeEstimate(b: Band, ru: bool): string
  {
    match b
    case LowBand => "1-2 " + (if ru then "дня" else "days")
    case MediumBand => "3-5 " + (if ru then "дней" else "days")
    case HighBand => "1-2 " + (if ru then "недели" else "weeks")
    case CriticalBand => "2+ " + (if ru then "недели" else "weeks")
  }

  /** An optional part of the summary, built from a report when the results hold one. */
  function Part(results: Dict, key: string, build: Json -> Result<Dict>): (r: Result<Dict>)
    ensures Get(results, key).None? ==> r == Ok([])
    ensures forall v :: Get(results, key) == Some(v) ==> r == build(v)
  {
    match Get(results, key)
    case None => Ok([])
    case Some(v) => build(v)
  }

  /** A part is empty without its report; the two parts have three entries each. */
  lemma PartSize(results: Dict, key: string, build: Json -> Result<Dict>, p: Dict)
    requires build == ProtectionSummary || build == StructureSummary
    requires Part(results, key, build) == Ok(p)
    ensures |p| == if Get(results, key).Some? then 3 else 0
  {
    if Get(results, key).Some? {
      assert |Firsts(p)| == 3;
    }
  }

  /** `_generate_summary`, with `now` the timestamp it takes. */
  function Summary(m: Lang.LanguageManager, results: Dict, now: string): (r: Result<Dict>)
    ensures Get(results, "url").None? ==> r == Err(KeyError)
    ensures r.Ok? ==> |r.value| == 5 + (if Get(results, "protection").Some? then 3 else 0)
                                      + (if Get(results, "structure").Some? then 3 else 0)
    ensures r.Ok? ==> Get(results, "url").Some? && r.value[0] == ("url", Get(results, "url").value)
    // The time it was made and the current language follow the address.
    ensures r.Ok? ==> r.value[1] == ("analysis_time", JStr(now)) && r.value[2] == ("language", JStr(Lang.CurrentLanguage(m)))
    ensures r.Ok? ==> forall v :: Get(results, "protection") == Some(v) ==>
              ProtectionSummary(v).Ok? && r.value[3..6] == ProtectionSummary(v).value
    ensures r.Ok? ==> BandOfReport(GetOr(results, "protection", JObj([]))).Ok?
    ensures r.Ok? ==> var b := BandOfReport(GetOr(results, "protection", JObj([]))).value;
              r.value[|r.value| - 2..] == [("scraping_difficulty", JStr(Lang.Text(m, BandKey(b)))),
                                           ("estimated_development_time", JStr(TimeEstimate(b, Lang.CurrentLanguage(m) == "ru")))]
    ensures r.Ok? ==> forall v :: Get(results, "structure") == Some(v) ==>
              StructureSummary(v).Ok? && r.value[|r.value| - 5..|r.value| - 2] == StructureSummary(v).value
  {
    match Get(results, "url")
    case None => Err(KeyError)
    case Some(url) =>
      match Part(results, "protection", ProtectionSummary)
      case Err(e) => Err(e)
      case Ok(p) =>
        match Part(results, "structure", StructureSummary)
        case Err(e) => Err(e)
        case Ok(s) =>
          match BandOfReport(GetOr(results, "protection", JObj([])))
          case Err(e) => Err(e)
          case Ok(b) =>
            PartSize(results, "protection", ProtectionSummary, p);
            PartSize(results, "structure", StructureSummary, s);
            Ok(Assembled(m, url, now, p, s, b))
  }

  /** The summary from the address, the timestamp, the two optional parts and the band. */
  function Assembled(m: Lang.LanguageManager, url: Json, now: string, p: Dict, s: Dict, b: Band): (r: Dict)
    ensures |r| == 5 + |p| + |s|
    ensures r[0] == ("url", url) && r[1] == ("analysis_time", JStr(now)) && r[2] == ("language", JStr(Lang.CurrentLanguage(m)))
    ensures r[3..3 + |p|] == p && r[|r| - 2 - |s|..|r| - 2] == s
    ensures r[|r| - 2..] == [("scraping_difficulty", JStr(Lang.Text(m, BandKey(b)))),
                             ("estimated_development_time", JStr(TimeEstimate(b, Lang.CurrentLanguage(m) == "ru")))]
  {
    var head := [("url", url), ("analysis_time", JStr(now)), ("language", JStr(Lang.CurrentLanguage(m)))];
    var tail := [("scraping_difficulty", JStr(Lang.Text(m, BandKey(b)))),
                 ("estimated_development_time", JStr(TimeEstimate(b, Lang.CurrentLanguage(m) == "ru")))];
    SummaryLayout(head, p, s, tail);
    head + p + s + tail
  }

  /** Where each part sits in the summary. */
  lemma SummaryLayout(head: Dict, p: Dict, s: Dict, tail: Dict)
    requires |head| == 3 && |tail| == 2
    ensures var r := head + p + s + tail;
      && |r| == 5 + |p| + |s| && r[0] == head[0] && r[1] == head[1] && r[2] == head[2]
      && r[3..3 + |p|] == p && r[|r| - 2 - |s|..|r| - 2] == s && r[|r| - 2..] == tail
  {
    var r := head + p + s + tail;
    assert r == head + (p + (s + tail));
    assert r[3..] == p + (s + tail);
    assert r[3..3 + |p|] == (p + (s + tail))[..|p|];
    assert r[3 + |p|..] == s + tail;
  }
}
