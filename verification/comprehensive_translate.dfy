/**
 * The localisation step of comprehensive_analyzer.py: how the orchestrator
 * reads the analysers' reports as dictionaries, and the two translations that
 * add display texts to them.
 *
 * The orchestrator reads the reports as dictionaries, by key and with
 * defaults, so it is modelled over `Json` values: every read that Python
 * would refuse (an attribute a non-dict lacks, an unhashable lookup key, an
 * ordering between a number and a string) is an explicit error result.
 */
module ComprehensiveTranslate {
  import opened PyBase
  import opened JsonValue
  import Lang = Languages

  type Dict = seq<(string, Json)>

  // ---------------------------------------------------------------------------
  // Reading dictionaries as Python does

  /** `d.get(k, default)`: only a dict has `get`. */
  function DictGet(d: Json, k: string, default: Json): (r: Result<Json>)
    ensures r.Ok? <==> d.JObj?
    ensures d.JObj? && k !in Firsts(d.fields) ==> r == Ok(default)
    ensures d.JObj? && k in Firsts(d.fields) ==> r == Ok(Get(d.fields, k).value)
  {
    if d.JObj? then Ok(GetOr(d.fields, k, default)) else Err(AttributeError)
  }

  /** Lists and dicts cannot be looked up in a dict. */
  predicate Hashable(j: Json)
  {
    !j.JArr? && !j.JObj?
  }

  /** What `for x in j` visits: a dict's keys, a list's items, a string's characters. */
  function Iterate(j: Json): (r: Result<seq<Json>>)
    ensures r.Ok? <==> j.JObj? || j.JArr? || j.JStr?
    ensures j.JObj? ==> r.Ok? && |r.value| == |j.fields| && forall i :: 0 <= i < |j.fields| ==> r.value[i] == JStr(j.fields[i].0)
    ensures j.JArr? ==> r == Ok(j.items)
  {
    match j
    case JObj(fields) => Ok(seq(|fields|, i requires 0 <= i < |fields| => JStr(fields[i].0)))
    case JArr(items) => Ok(items)
    case JStr(s) => Ok(seq(|s|, i requires 0 <= i < |s| => JStr([s[i]])))
    case _ => Err(TypeError)
  }

  // ---------------------------------------------------------------------------
  // Localisation tables: a name and the `get_text` key of its display text

  type NameTable = string -> Option<string>

  function LevelKey(name: string): Option<string>
  {
    match name
    case "LOW" => Some("protection_low")
    case "MEDIUM" => Some("protection_medium")
    case "HIGH" => Some("protection_high")
    case "CRITICAL" => Some("protection_critical")
    case _ => None
  }

  function BypassKey(name: string): Option<string>
  {
    match name
    case "requests" => Some("bypass_requests")
    case "cloudscraper" => Some("bypass_cloudscraper")
    case "selenium" => Some("bypass_selenium")
    case "undetected" => Some("bypass_undetected")
    case "proxy" => Some("bypass_proxy")
    case _ => None
  }

  function DetectionKey(name: string): Option<string>
  {
    match name
    case "cloudflare_detected" => Some("cloudflare_detected")
    case "javascript_required" => Some("javascript_required")
    case "rate_limiting" => Some("rate_limiting")
    case "user_agent_blocking" => Some("user_agent_blocking")
    case "captcha_detected" => Some("captcha_detected")
    case "cookies_required" => Some("cookies_required")
    case _ => None
  }

  function ContentKey(name: string): Option<string>
  {
    match name
    case "products" => Some("products_detected")
    case "articles" => Some("articles_detected")
    case "navigation" => Some("navigation_detected")
    case "forms" => Some("forms_detected")
    case "pagination" => Some("pagination_detected")
    case _ => None
  }

  function SelectorKey(name: string): Option<string>
  {
    match name
    case "products" => Some("selector_products")
    case "prices" => Some("selector_prices")
    case "titles" => Some("selector_titles")
    case "descriptions" => Some("selector_descriptions")
    case "links" => Some("selector_links")
    case "images" => Some("selector_images")
    case _ => None
  }

  /** `name_map.get(name, name)`: the display text of a known name, the name itself otherwise. */
  function Localize(m: Lang.LanguageManager, table: NameTable, name: string): (r: string)
    ensures table(name).None? ==> r == name
    ensures table(name).Some? ==> r == Lang.Text(m, table(name).value)
  {
    match table(name)
    case None => name
    case Some(key) => Lang.Text(m, key)
  }

  /** `name_map.get(v, v)` for any value: a string may be renamed, other hashable values pass through. */
  function LocalizeValue(m: Lang.LanguageManager, table: NameTable, v: Json): (r: Result<Json>)
    ensures r.Ok? <==> Hashable(v)
    ensures v.JStr? ==> r == Ok(JStr(Localize(m, table, v.s)))
    ensures Hashable(v) && !v.JStr? ==> r == Ok(v)
  {
    if !Hashable(v) then Err(TypeError)
    else if v.JStr? then Ok(JStr(Localize(m, table, v.s)))
    else Ok(v)
  }

  /** Each item localised in turn; the first unhashable one stops the loop. */
  function LocalizeItems(m: Lang.LanguageManager, table: NameTable, items: seq<Json>): (r: Result<seq<Json>>)
    ensures r.Ok? <==> forall i :: 0 <= i < |items| ==> Hashable(items[i])
    ensures r.Ok? ==> |r.value| == |items| && forall i :: 0 <= i < |items| ==> Ok(r.value[i]) == LocalizeValue(m, table, items[i])
  {
    if items == [] then Ok([])
    else
      match LocalizeValue(m, table, items[0])
      case Err(e) => Err(e)
      case Ok(v) =>
        match LocalizeItems(m, table, items[1..])
        case Err(e) => Err(e)
        case Ok(vs) => Ok([v] + vs)
  }

  /** `j` can be iterated and every item it yields can be looked up. */
  predicate Listable(j: Json)
  {
    match Iterate(j)
    case Err(_) => false
    case Ok(items) => forall i :: 0 <= i < |items| ==> Hashable(items[i])
  }

  /** `[name_map.get(x, x) for x in j]`, written out as a loop of appends. */
  function LocalizeAll(m: Lang.LanguageManager, table: NameTable, j: Json): (r: Result<seq<Json>>)
    ensures r.Ok? <==> Listable(j)
    ensures j.JObj? ==> r.Ok? && |r.value| == |j.fields|
                        && forall i :: 0 <= i < |j.fields| ==> r.value[i] == JStr(Localize(m, table, j.fields[i].0))
  {
    match Iterate(j)
    case Err(e) => Err(e)
    case Ok(items) => LocalizeItems(m, table, items)
  }

  /**
   * `{rename(k): v for k, v in fields}` built by assignment: when two names
   * are renamed alike, the later value overwrites the earlier in place.
   */
  function RenameKeys(rename: string -> string, fields: Dict): (r: Dict)
    decreases |fields|
  {
    if fields == [] then []
    else
      var last := fields[|fields| - 1];
      Put(RenameKeys(rename, fields[..|fields| - 1]), rename(last.0), last.1)
  }

  /** The last name is assigned last. */
  lemma RenameKeysLast(rename: string -> string, fields: Dict)
    requires fields != []
    ensures var n := |fields| - 1;
      RenameKeys(rename, fields) == Put(RenameKeys(rename, fields[..n]), rename(fields[n].0), fields[n].1)
  {
  }

  /** Every name of the original dict is found again under its new name. */
  lemma {:induction false} RenameKeysCover(rename: string -> string, fields: Dict, i: nat)
    requires i < |fields|
    ensures Get(RenameKeys(rename, fields), rename(fields[i].0)).Some?
    decreases |fields|
  {
    var n := |fields| - 1;
    if i < n {
      var init := fields[..n];
      assert init[i] == fields[i];
      RenameKeysCover(rename, init, i);
      RenameKeysLast(rename, fields);
      PutKeepsPresent(RenameKeys(rename, init), rename(fields[n].0), fields[n].1, rename(fields[i].0));
    } else {
      RenameKeysLast(rename, fields);
    }
  }

  /** A dict whose names are all left as they are comes back as it was. */
  lemma {:induction false} RenameKeysUnchanged(rename: string -> string, fields: Dict)
    requires UniqueKeys(fields)
    requires forall i :: 0 <= i < |fields| ==> rename(fields[i].0) == fields[i].0
    ensures RenameKeys(rename, fields) == fields
    decreases |fields|
  {
    if fields != [] {
      var n := |fields| - 1;
      var init := fields[..n];
      UniqueInit(fields);
      assert forall i :: 0 <= i < |init| ==> init[i] == fields[i];
      RenameKeysUnchanged(rename, init);
      RenameKeysUnchangedStep(rename, fields);
    }
  }

  /** Dropping the last entry of a dict keeps it a dict, and that entry's key was new. */
  lemma UniqueInit(fields: Dict)
    requires fields != [] && UniqueKeys(fields)
    ensures var n := |fields| - 1; UniqueKeys(fields[..n]) && fields[n].0 !in Firsts(fields[..n])
  {
    var n := |fields| - 1;
    var init := fields[..n];
    assert forall i :: 0 <= i < n ==> init[i] == fields[i];
  }

  /** Appending an entry the renaming leaves alone to a dict it leaves alone. */
  lemma RenameKeysUnchangedStep(rename: string -> string, fields: Dict)
    requires fields != []
    requires var n := |fields| - 1;
      RenameKeys(rename, fields[..n]) == fields[..n] && rename(fields[n].0) == fields[n].0 && fields[n].0 !in Firsts(fields[..n])
    ensures RenameKeys(rename, fields) == fields
  {
    var n := |fields| - 1;
    RenameKeysLastKept(rename, fields);
    PutNew(fields[..n], fields[n].0, fields[n].1);
    DropLastAppend(fields);
  }

  lemma RenameKeysLastKept(rename: string -> string, fields: Dict)
    requires fields != []
    requires var n := |fields| - 1;
      RenameKeys(rename, fields[..n]) == fields[..n] && rename(fields[n].0) == fields[n].0
    ensures var n := |fields| - 1; RenameKeys(rename, fields) == Put(fields[..n], fields[n].0, fields[n].1)
  {
    RenameKeysLast(rename, fields);
  }

  lemma DropLastAppend<T>(s: seq<T>)
    requires s != []
    ensures s[..|s| - 1] + [s[|s| - 1]] == s
  {
  }

  /** `{name_map.get(k, k): v for k, v in fields}`. */
  function LocalizeKeys(m: Lang.LanguageManager, table: NameTable, fields: Dict): Dict
  {
    RenameKeys(name => Localize(m, table, name), fields)
  }

  /** Assigning a key a dict lacks appends it. */
  lemma {:induction false} PutNew(fields: Dict, k: string, v: Json)
    requires k !in Firsts(fields)
    ensures Put(fields, k, v) == fields + [(k, v)]
    decreases |fields|
  {
    if fields != [] {
      var tail := fields[1..];
      assert [fields[0]] + tail == fields;
      FirstsCons(fields[0], tail);
      PutNew(tail, k, v);
      assert Put(fields, k, v) == [fields[0]] + Put(tail, k, v);
      AppendAssoc([fields[0]], tail, [(k, v)]);
    }
  }

  // ---------------------------------------------------------------------------
  // `_translate_protection_results`

  /** The keys the protection translation adds. */
  predicate ProtectionLocalizedKey(k: string)
  {
    k == "complexity_level_localized" || k == "bypass_methods_localized" || k == "protection_details_localized"
  }

  /** The shapes the protection translation accepts, key by key. */
  predicate ProtectionTranslatable(results: Dict)
  {
    && (Get(results, "complexity_level").Some? ==> Hashable(Get(results, "complexity_level").value))
    && (Get(results, "bypass_methods").Some? ==> Listable(Get(results, "bypass_methods").value))
    && (Get(results, "protection_details").Some? ==> Get(results, "protection_details").value.JObj?)
  }

  /** `translated['complexity_level_localized']`, written when the report has a level. */
  function AddLevelText(m: Lang.LanguageManager, results: Dict): (r: Result<Dict>)
    ensures r.Ok? <==> (Get(results, "complexity_level").Some? ==> Hashable(Get(results, "complexity_level").value))
    ensures r.Ok? ==> forall k :: k != "complexity_level_localized" ==> Get(r.value, k) == Get(results, k)
    ensures r.Ok? && Get(results, "complexity_level").None? ==> r.value == results
    ensures r.Ok? ==> forall level :: Get(results, "complexity_level") == Some(level) ==>
              Get(r.value, "complexity_level_localized") == Some(LocalizeValue(m, LevelKey, level).value)
  {
    match Get(results, "complexity_level")
    case None => Ok(results)
    case Some(level) =>
      match LocalizeValue(m, LevelKey, level)
      case Err(e) => Err(e)
      case Ok(text) => Ok(Put(results, "complexity_level_localized", text))
  }

  /** `translated['bypass_methods_localized']`, written when the report lists bypass methods. */
  function AddBypassTexts(m: Lang.LanguageManager, results: Dict): (r: Result<Dict>)
    ensures r.Ok? <==> (Get(results, "bypass_methods").Some? ==> Listable(Get(results, "bypass_methods").value))
    ensures r.Ok? ==> forall k :: k != "bypass_methods_localized" ==> Get(r.value, k) == Get(results, k)
    ensures r.Ok? && Get(results, "bypass_methods").None? ==> r.value == results
    ensures r.Ok? ==> forall methods :: Get(results, "bypass_methods") == Some(methods) ==>
              Get(r.value, "bypass_methods_localized") == Some(JArr(LocalizeAll(m, BypassKey, methods).value))
  {
    match Get(results, "bypass_methods")
    case None => Ok(results)
    case Some(methods) =>
      match LocalizeAll(m, BypassKey, methods)
      case Err(e) => Err(e)
      case Ok(names) => Ok(Put(results, "bypass_methods_localized", JArr(names)))
  }

  /** `translated['protection_details_localized']`, always written, from an empty dict when there are no details. */
  function AddDetectionTexts(m: Lang.LanguageManager, results: Dict): (r: Result<Dict>)
    ensures r.Ok? <==> (Get(results, "protection_details").Some? ==> Get(results, "protection_details").value.JObj?)
    ensures r.Ok? ==> forall k :: k != "protection_details_localized" ==> Get(r.value, k) == Get(results, k)
    ensures r.Ok? ==>
              Get(r.value, "protection_details_localized") == Some(JObj(LocalizeKeys(m, DetectionKey, GetOr(results, "protection_details", JObj([])).fields)))
  {
    var details := GetOr(results, "protection_details", JObj([]));
    if !details.JObj? then Err(AttributeError)
    else Ok(Put(results, "protection_details_localized", JObj(LocalizeKeys(m, DetectionKey, details.fields))))
  }

  /**
   * `_translate_protection_results`: a copy of the report with display texts
   * added under `*_localized` keys: the level, the list of bypass method
   * names, and the detection names.
   */
  function TranslateProtection(m: Lang.LanguageManager, results: Dict): (r: Result<Dict>)
    ensures r.Ok? <==> ProtectionTranslatable(results)
    ensures r.Ok? ==> forall k :: !ProtectionLocalizedKey(k) ==> Get(r.value, k) == Get(results, k)
  {
    match AddLevelText(m, results)
    case Err(e) => Err(e)
    case Ok(t) =>
      match AddBypassTexts(m, t)
      case Err(e) => Err(e)
      case Ok(u) =>
        var r := AddDetectionTexts(m, u);
        if r.Ok? then KeptThrough(results, t, u, r.value); r else r
  }

  /** Three steps that each write one localised key keep every other key. */
  lemma KeptThrough(results: Dict, t: Dict, u: Dict, r: Dict)
    requires forall k :: k != "complexity_level_localized" ==> Get(t, k) == Get(results, k)
    requires forall k :: k != "bypass_methods_localized" ==> Get(u, k) == Get(t, k)
    requires forall k :: k != "protection_details_localized" ==> Get(r, k) == Get(u, k)
    ensures forall k :: !ProtectionLocalizedKey(k) ==> Get(r, k) == Get(results, k)
  {
  }

  // ---------------------------------------------------------------------------
  // `_translate_structure_results`

  /** The DOM statistics the translation reads; each is also the `get_text` key of its label. */
  const DomStatNames: seq<string> :=
    ["total_elements", "unique_tags", "classes_count", "ids_count", "forms_count", "links_count", "images_count"]

  function DomStatKey(name: string): Option<string>
  {
    if name in DomStatNames then Some(name) else None
  }

  /** The keys the structure translation adds. */
  predicate StructureLocalizedKey(k: string)
  {
    k == "content_types_localized" || k == "dom_stats_localized" || k == "suggested_selectors_localized"
  }

  /** The three sections the structure translation reads must be dicts where present. */
  predicate StructureTranslatable(results: Dict)
  {
    && (Get(results, "content_types").Some? ==> Get(results, "content_types").value.JObj?)
    && (Get(results, "dom_stats").Some? ==> Get(results, "dom_stats").value.JObj?)
    && (Get(results, "suggested_selectors").Some? ==> Get(results, "suggested_selectors").value.JObj?)
  }

  /**
   * `translated[target] = {table.get(k, k): v for k, v in translated[source].items()}`
   * when `source` is present; only a dict has `items`.
   */
  function AddRenamedSection(m: Lang.LanguageManager, table: NameTable, results: Dict, source: string, target: string): (r: Result<Dict>)
    ensures r.Ok? <==> (Get(results, source).Some? ==> Get(results, source).value.JObj?)
    ensures r.Ok? ==> forall k :: k != target ==> Get(r.value, k) == Get(results, k)
    ensures r.Ok? && Get(results, source).None? ==> r.value == results
    ensures r.Ok? ==> forall section :: Get(results, source) == Some(JObj(section)) ==>
              Get(r.value, target) == Some(JObj(LocalizeKeys(m, table, section)))
  {
    match Get(results, source)
    case None => Ok(results)
    case Some(section) =>
      if !section.JObj? then Err(AttributeError)
      else Ok(Put(results, target, JObj(LocalizeKeys(m, table, section.fields))))
  }

  /** The seven statistics read with default 0, labelled by their display texts. */
  function DomStatsTexts(m: Lang.LanguageManager, stats: Dict): Dict
  {
    LocalizeKeys(m, DomStatKey, seq(|DomStatNames|, i requires 0 <= i < |DomStatNames| =>
      (DomStatNames[i], GetOr(stats, DomStatNames[i], JInt(0)))))
  }

  /** `translated['dom_stats_localized']`, written when the report has `dom_stats`. */
  function AddDomStatsTexts(m: Lang.LanguageManager, results: Dict): (r: Result<Dict>)
    ensures r.Ok? <==> (Get(results, "dom_stats").Some? ==> Get(results, "dom_stats").value.JObj?)
    ensures r.Ok? ==> forall k :: k != "dom_stats_localized" ==> Get(r.value, k) == Get(results, k)
    ensures r.Ok? && Get(results, "dom_stats").None? ==> r.value == results
  {
    match Get(results, "dom_stats")
    case None => Ok(results)
    case Some(stats) =>
      if !stats.JObj? then Err(AttributeError)
      else Ok(Put(results, "dom_stats_localized", JObj(DomStatsTexts(m, stats.fields))))
  }

  /** `_translate_structure_results`: content types, DOM statistics and selector groups get display names. */
  function TranslateStructure(m: Lang.LanguageManager, results: Dict): (r: Result<Dict>)
    ensures r.Ok? <==> StructureTranslatable(results)
    ensures r.Ok? ==> forall k :: !StructureLocalizedKey(k) ==> Get(r.value, k) == Get(results, k)
  {
    match AddRenamedSection(m, ContentKey, results, "content_types", "content_types_localized")
    case Err(e) => Err(e)
    case Ok(t) =>
      match AddDomStatsTexts(m, t)
      case Err(e) => Err(e)
      case Ok(u) => AddRenamedSection(m, SelectorKey, u, "suggested_selectors", "suggested_selectors_localized")
  }
}
