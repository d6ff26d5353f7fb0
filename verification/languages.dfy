/**
 * The two-language text tables and the manager that switches between them
 * (languages.py). The manager is a value; switching returns the new value.
 * Each table is a function from key to text, one case per entry of its dict display.
 */
module Languages {
  import opened PyBase
  import JsonValue

  /** The first of two lookups that finds the key. */
  function Either(a: Option<string>, b: Option<string>): (r: Option<string>)
    ensures r.Some? <==> a.Some? || b.Some?
  {
    if a.Some? then a else b
  }

  /** The GUI elements section of `RUSSIAN_TRANSLATIONS`. */
  function RussianGui(key: string): Option<string>
  {
    match key
    case "app_title" => Some("🔍 Комплексный анализатор веб-сайтов")
    case "url_label" => Some("URL для анализа:")
    case "url_placeholder" => Some("https://example.com")
    case "analysis_type_label" => Some("Тип анализа:")
    case "analyze_button" => Some("🔍 Анализировать")
    case "clear_button" => Some("🗑️ Очистить")
    case "export_button" => Some("💾 Экспорт")
    case "language_label" => Some("🌐 Язык:")
    case _ => None
  }

  /** The analysis types section of `RUSSIAN_TRANSLATIONS`. */
  function RussianAnalysisTypes(key: string): Option<string>
  {
    match key
    case "analysis_protection" => Some("Защита от парсинга")
    case "analysis_structure" => Some("Структура сайта")
    case "analysis_both" => Some("Полный анализ")
    case _ => None
  }

  /** The tabs section of `RUSSIAN_TRANSLATIONS`. */
  function RussianTabs(key: string): Option<string>
  {
    match key
    case "tab_summary" => Some("📋 Сводка")
    case "tab_protection" => Some("🔒 Защита")
    case "tab_structure" => Some("🏗️ Структура")
    case "tab_selectors" => Some("🎯 Селекторы")
    case "tab_full_report" => Some("📄 Полный отчет")
    case _ => None
  }

  /** The analysis states section of `RUSSIAN_TRANSLATIONS`. */
  function RussianStates(key: string): Option<string>
  {
    match key
    case "status_ready" => Some("Готов к анализу")
    case "status_analyzing" => Some("Анализирую... Пожалуйста, подождите")
    case "status_completed" => Some("Анализ завершен")
    case "status_error" => Some("Ошибка анализа")
    case _ => None
  }

  /** The messages section of `RUSSIAN_TRANSLATIONS`. */
  function RussianMessages(key: string): Option<string>
  {
    match key
    case "enter_url" => Some("Введите URL для анализа")
    case "invalid_url" => Some("Неверный URL. Введите корректный адрес")
    case "analysis_complete" => Some("Анализ завершен успешно!")
    case "analysis_error" => Some("Ошибка при анализе: {error}")
    case "export_success" => Some("Результаты экспортированы в {filename}")
    case "export_error" => Some("Ошибка экспорта: {error}")
    case _ => None
  }

  /** The protection levels section of `RUSSIAN_TRANSLATIONS`. */
  function RussianProtection(key: string): Option<string>
  {
    match key
    case "protection_level" => Some("Уровень защиты")
    case "protection_low" => Some("НИЗКИЙ")
    case "protection_medium" => Some("СРЕДНИЙ")
    case "protection_high" => Some("ВЫСОКИЙ")
    case "protection_critical" => Some("КРИТИЧЕСКИЙ")
    case "protection_score" => Some("Балл защиты: {score}/100")
    case "cloudflare_detected" => Some("Обнаружен Cloudflare")
    case "javascript_required" => Some("Требуется JavaScript")
    case "rate_limiting" => Some("Ограничение частоты запросов")
    case "user_agent_blocking" => Some("Блокировка User-Agent")
    case "captcha_detected" => Some("Обнаружена капча")
    case "cookies_required" => Some("Требуются cookies")
    case _ => None
  }

  /** The bypass methods section of `RUSSIAN_TRANSLATIONS`. */
  function RussianBypassMethods(key: string): Option<string>
  {
    match key
    case "bypass_methods" => Some("Рекомендуемые методы обхода")
    case "bypass_requests" => Some("Простые HTTP запросы (requests)")
    case "bypass_cloudscraper" => Some("CloudScraper для обхода Cloudflare")
    case "bypass_selenium" => Some("Selenium WebDriver")
    case "bypass_undetected" => Some("Undetected Chrome Driver")
    case "bypass_proxy" => Some("Прокси-серверы")
    case _ => None
  }

  /** The website structure section of `RUSSIAN_TRANSLATIONS`. */
  function RussianStructure(key: string): Option<string>
  {
    match key
    case "dom_structure" => Some("DOM структура")
    case "total_elements" => Some("Всего элементов: {count}")
    case "unique_tags" => Some("Уникальных тегов: {count}")
    case "classes_count" => Some("CSS классов: {count}")
    case "ids_count" => Some("ID элементов: {count}")
    case "forms_count" => Some("Форм: {count}")
    case "links_count" => Some("Ссылок: {count}")
    case "images_count" => Some("Изображений: {count}")
    case _ => None
  }

  /** The content types section of `RUSSIAN_TRANSLATIONS`. */
  function RussianContentTypes(key: string): Option<string>
  {
    match key
    case "content_types" => Some("Типы контента")
    case "products_detected" => Some("Товары обнаружены")
    case "articles_detected" => Some("Статьи обнаружены")
    case "navigation_detected" => Some("Навигация обнаружена")
    case "forms_detected" => Some("Формы обнаружены")
    case "pagination_detected" => Some("Пагинация обнаружена")
    case _ => None
  }

  /** The selectors section of `RUSSIAN_TRANSLATIONS`. */
  function RussianSelectors(key: string): Option<string>
  {
    match key
    case "suggested_selectors" => Some("Рекомендуемые селекторы")
    case "selector_products" => Some("Товары")
    case "selector_prices" => Some("Цены")
    case "selector_titles" => Some("Заголовки")
    case "selector_descriptions" => Some("Описания")
    case "selector_links" => Some("Ссылки")
    case "selector_images" => Some("Изображения")
    case _ => None
  }

  /** The recommendations section of `RUSSIAN_TRANSLATIONS`. */
  function RussianRecommendations(key: string): Option<string>
  {
    match key
    case "recommendations" => Some("Рекомендации")
    case "complexity_assessment" => Some("Оценка сложности парсинга")
    case "recommended_tools" => Some("Рекомендуемые инструменты")
    case "estimated_time" => Some("Ориентировочное время разработки")
    case _ => None
  }

  /** The export section of `RUSSIAN_TRANSLATIONS`. */
  function RussianExport(key: string): Option<string>
  {
    match key
    case "export_format" => Some("Формат экспорта")
    case "export_json" => Some("JSON отчет")
    case "export_text" => Some("Текстовый отчет")
    case "export_csv" => Some("CSV данные")
    case _ => None
  }

  /** The errors and warnings section of `RUSSIAN_TRANSLATIONS`. */
  function RussianErrors(key: string): Option<string>
  {
    match key
    case "connection_error" => Some("Ошибка подключения к сайту")
    case "timeout_error" => Some("Превышено время ожидания")
    case "access_denied" => Some("Доступ запрещен")
    case "server_error" => Some("Ошибка сервера")
    case "unknown_error" => Some("Неизвестная ошибка")
    case _ => None
  }

  /** The languages section of `RUSSIAN_TRANSLATIONS`. */
  function RussianLanguageNames(key: string): Option<string>
  {
    match key
    case "russian" => Some("Русский")
    case "english" => Some("English")
    case _ => None
  }

  /** `RUSSIAN_TRANSLATIONS[key]`, or `None` where the dict has no such key: its sections in display order. */
  function RussianEntry(key: string): Option<string>
  {
    Either(RussianGui(key),
    Either(RussianAnalysisTypes(key),
    Either(RussianTabs(key),
    Either(RussianStates(key),
    Either(RussianMessages(key),
    Either(RussianProtection(key),
    Either(RussianBypassMethods(key),
    Either(RussianStructure(key),
    Either(RussianContentTypes(key),
    Either(RussianSelectors(key),
    Either(RussianRecommendations(key),
    Either(RussianExport(key),
    Either(RussianErrors(key),
    RussianLanguageNames(key))))))))))))))
  }

  /** The GUI elements section of `ENGLISH_TRANSLATIONS`. */
  function EnglishGui(key: string): Option<string>
  {
    match key
    case "app_title" => Some("🔍 Comprehensive Website Analyzer")
    case "url_label" => Some("URL to analyze:")
    case "url_placeholder" => Some("https://example.com")
    case "analysis_type_label" => Some("Analysis type:")
    case "analyze_button" => Some("🔍 Analyze")
    case "clear_button" => Some("🗑️ Clear")
    case "export_button" => Some("💾 Export")
    case "language_label" => Some("🌐 Language:")
    case _ => None
  }

  /** The analysis types section of `ENGLISH_TRANSLATIONS`. */
  function EnglishAnalysisTypes(key: string): Option<string>
  {
    match key
    case "analysis_protection" => Some("Anti-scraping protection")
    case "analysis_structure" => Some("Website structure")
    case "analysis_both" => Some("Full analysis")
    case _ => None
  }

  /** The tabs section of `ENGLISH_TRANSLATIONS`. */
  function EnglishTabs(key: string): Option<string>
  {
    match key
    case "tab_summary" => Some("📋 Summary")
    case "tab_protection" => Some("🔒 Protection")
    case "tab_structure" => Some("🏗️ Structure")
    case "tab_selectors" => Some("🎯 Selectors")
    case "tab_full_report" => Some("📄 Full Report")
    case _ => None
  }

  /** The analysis states section of `ENGLISH_TRANSLATIONS`. */
  function EnglishStates(key: string): Option<string>
  {
    match key
    case "status_ready" => Some("Ready to analyze")
    case "status_analyzing" => Some("Analyzing... Please wait")
    case "status_completed" => Some("Analysis completed")
    case "status_error" => Some("Analysis error")
    case _ => None
  }

  /** The messages section of `ENGLISH_TRANSLATIONS`. */
  function EnglishMessages(key: string): Option<string>
  {
    match key
    case "enter_url" => Some("Enter URL to analyze")
    case "invalid_url" => Some("Invalid URL. Please enter a valid address")
    case "analysis_complete" => Some("Analysis completed successfully!")
    case "analysis_error" => Some("Analysis error: {error}")
    case "export_success" => Some("Results exported to {filename}")
    case "export_error" => Some("Export error: {error}")
    case _ => None
  }

  /** The protection levels section of `ENGLISH_TRANSLATIONS`. */
  function EnglishProtection(key: string): Option<string>
  {
    match key
    case "protection_level" => Some("Protection Level")
    case "protection_low" => Some("LOW")
    case "protection_medium" => Some("MEDIUM")
    case "protection_high" => Some("HIGH")
    case "protection_critical" => Some("CRITICAL")
    case "protection_score" => Some("Protection Score: {score}/100")
    case "cloudflare_detected" => Some("Cloudflare detected")
    case "javascript_required" => Some("JavaScript required")
    case "rate_limiting" => Some("Rate limiting detected")
    case "user_agent_blocking" => Some("User-Agent blocking")
    case "captcha_detected" => Some("CAPTCHA detected")
    case "cookies_required" => Some("Cookies required")
    case _ => None
  }

  /** The bypass methods section of `ENGLISH_TRANSLATIONS`. */
  function EnglishBypassMethods(key: string): Option<string>
  {
    match key
    case "bypass_methods" => Some("Recommended bypass methods")
    case "bypass_requests" => Some("Simple HTTP requests (requests)")
    case "bypass_cloudscraper" => Some("CloudScraper for Cloudflare bypass")
    case "bypass_selenium" => Some("Selenium WebDriver")
    case "bypass_undetected" => Some("Undetected Chrome Driver")
    case "bypass_proxy" => Some("Proxy servers")
    case _ => None
  }

  /** The website structure section of `ENGLISH_TRANSLATIONS`. */
  function EnglishStructure(key: string): Option<string>
  {
    match key
    case "dom_structure" => Some("DOM Structure")
    case "total_elements" => Some("Total elements: {count}")
    case "unique_tags" => Some("Unique tags: {count}")
    case "classes_count" => Some("CSS classes: {count}")
    case "ids_count" => Some("Element IDs: {count}")
    case "forms_count" => Some("Forms: {count}")
    case "links_count" => Some("Links: {count}")
    case "images_count" => Some("Images: {count}")
    case _ => None
  }

  /** The content types section of `ENGLISH_TRANSLATIONS`. */
  function EnglishContentTypes(key: string): Option<string>
  {
    match key
    case "content_types" => Some("Content Types")
    case "products_detected" => Some("Products detected")
    case "articles_detected" => Some("Articles detected")
    case "navigation_detected" => Some("Navigation detected")
    case "forms_detected" => Some("Forms detected")
    case "pagination_detected" => Some("Pagination detected")
    case _ => None
  }

  /** The selectors section of `ENGLISH_TRANSLATIONS`. */
  function EnglishSelectors(key: string): Option<string>
  {
    match key
    case "suggested_selectors" => Some("Suggested Selectors")
    case "selector_products" => Some("Products")
    case "selector_prices" => Some("Prices")
    case "selector_titles" => Some("Titles")
    case "selector_descriptions" => Some("Descriptions")
    case "selector_links" => Some("Links")
    case "selector_images" => Some("Images")
    case _ => None
  }

  /** The recommendations section of `ENGLISH_TRANSLATIONS`. */
  function EnglishRecommendations(key: string): Option<string>
  {
    match key
    case "recommendations" => Some("Recommendations")
    case "complexity_assessment" => Some("Scraping complexity assessment")
    case "recommended_tools" => Some("Recommended tools")
    case "estimated_time" => Some("Estimated development time")
    case _ => None
  }

  /** The export section of `ENGLISH_TRANSLATIONS`. */
  function EnglishExport(key: string): Option<string>
  {
    match key
    case "export_format" => Some("Export format")
    case "export_json" => Some("JSON report")
    case "export_text" => Some("Text report")
    case "export_csv" => Some("CSV data")
    case _ => None
  }

  /** The errors and warnings section of `ENGLISH_TRANSLATIONS`. */
  function EnglishErrors(key: string): Option<string>
  {
    match key
    case "connection_error" => Some("Connection error to website")
    case "timeout_error" => Some("Request timeout")
    case "access_denied" => Some("Access denied")
    case "server_error" => Some("Server error")
    case "unknown_error" => Some("Unknown error")
    case _ => None
  }

  /** The languages section of `ENGLISH_TRANSLATIONS`. */
  function EnglishLanguageNames(key: string): Option<string>
  {
    match key
    case "russian" => Some("Русский")
    case "english" => Some("English")
    case _ => None
  }

  /** `ENGLISH_TRANSLATIONS[key]`, or `None` where the dict has no such key: its sections in display order. */
  function EnglishEntry(key: string): Option<string>
  {
    Either(EnglishGui(key),
    Either(EnglishAnalysisTypes(key),
    Either(EnglishTabs(key),
    Either(EnglishStates(key),
    Either(EnglishMessages(key),
    Either(EnglishProtection(key),
    Either(EnglishBypassMethods(key),
    Either(EnglishStructure(key),
    Either(EnglishContentTypes(key),
    Either(EnglishSelectors(key),
    Either(EnglishRecommendations(key),
    Either(EnglishExport(key),
    Either(EnglishErrors(key),
    EnglishLanguageNames(key))))))))))))))
  }
  /** A text table: the text for a key, or `None` where the dict lacks the key. */
  type Table = string -> Option<string>

  /** The manager's `translations` dict: language code to table, in display order. */
  function DefaultTranslations(): seq<(string, Table)>
  {
    [("ru", RussianEntry), ("en", EnglishEntry)]
  }

  /** The language the module-level manager starts with: `LanguageManager()` defaults to "ru". */
  const DefaultLanguage: string := "ru"

  datatype LanguageManager = LanguageManager(current: string, translations: seq<(string, Table)>)

  /** `LanguageManager(default_language)`: the default is kept as given, without a check. */
  function NewManager(defaultLanguage: string): LanguageManager
  {
    LanguageManager(defaultLanguage, DefaultTranslations())
  }

  /** The module-level `language_manager`, which `get_text`, `set_language` and `get_current_language` delegate to. */
  const GlobalManager: LanguageManager := NewManager(DefaultLanguage)

  /** `set_language`: the new manager and the returned flag. */
  function SetLanguage(m: LanguageManager, lang: string): (r: (LanguageManager, bool))
    ensures r.1 <==> lang in Firsts(m.translations)
    ensures r.1 ==> r.0.current == lang
    ensures !r.1 ==> r.0 == m
    ensures r.0.translations == m.translations
  {
    if lang in Firsts(m.translations) then (m.(current := lang), true) else (m, false)
  }

  function CurrentLanguage(m: LanguageManager): string
  {
    m.current
  }

  /** `get_available_languages`: the keys of the translations dict, in order. */
  function AvailableLanguages(m: LanguageManager): (r: seq<string>)
    ensures |r| == |m.translations|
    ensures forall c :: c in r <==> JsonValue.Get(m.translations, c).Some?
  {
    Firsts(m.translations)
  }

  /** `table.get(key, key)`. */
  function Lookup(table: Table, key: string): (r: string)
    ensures table(key).None? ==> r == key
    ensures table(key).Some? ==> r == table(key).value
  {
    match table(key)
    case None => key
    case Some(text) => text
  }

  /**
   * The keyword arguments of a `get_text` call: none, or some, in which case
   * `apply` is what `text.format(**kwargs)` gives for a template (`None`: it raised).
   */
  datatype FormatArgs = NoArgs | Args(apply: string -> Option<string>)

  /** `get_text`: an unknown language, an unknown key or a failed format all yield the key. */
  function GetText(m: LanguageManager, key: string, args: FormatArgs): (r: string)
    ensures m.current !in Firsts(m.translations) ==> r == key
    ensures forall t :: JsonValue.Get(m.translations, m.current) == Some(t) ==>
              (args.NoArgs? ==> r == Lookup(t, key))
    // With keyword arguments: the formatted text, or the key when formatting raised.
    ensures forall t :: JsonValue.Get(m.translations, m.current) == Some(t) && args.Args? ==>
              r == (match args.apply(Lookup(t, key)) case Some(s) => s case None => key)
  {
    match JsonValue.Get(m.translations, m.current)
    case None => key
    case Some(table) =>
      var text := Lookup(table, key);
      match args
      case NoArgs => text
      case Args(apply) => match apply(text) case Some(s) => s case None => key
  }

  /** `get_text` without keyword arguments. */
  function Text(m: LanguageManager, key: string): string
  {
    GetText(m, key, NoArgs)
  }

  lemma SameKeysGui(key: string)
    ensures RussianGui(key).Some? <==> EnglishGui(key).Some?
  {
  }

  lemma SameKeysAnalysisTypes(key: string)
    ensures RussianAnalysisTypes(key).Some? <==> EnglishAnalysisTypes(key).Some?
  {
  }

  lemma SameKeysTabs(key: string)
    ensures RussianTabs(key).Some? <==> EnglishTabs(key).Some?
  {
  }

  lemma SameKeysStates(key: string)
    ensures RussianStates(key).Some? <==> EnglishStates(key).Some?
  {
  }

  lemma SameKeysMessages(key: string)
    ensures RussianMessages(key).Some? <==> EnglishMessages(key).Some?
  {
  }

  lemma SameKeysProtection(key: string)
    ensures RussianProtection(key).Some? <==> EnglishProtection(key).Some?
  {
  }

  lemma SameKeysBypassMethods(key: string)
    ensures RussianBypassMethods(key).Some? <==> EnglishBypassMethods(key).Some?
  {
  }

  lemma SameKeysStructure(key: string)
    ensures RussianStructure(key).Some? <==> EnglishStructure(key).Some?
  {
  }

  lemma SameKeysContentTypes(key: string)
    ensures RussianContentTypes(key).Some? <==> EnglishContentTypes(key).Some?
  {
  }

  lemma SameKeysSelectors(key: string)
    ensures RussianSelectors(key).Some? <==> EnglishSelectors(key).Some?
  {
  }

  lemma SameKeysRecommendations(key: string)
    ensures RussianRecommendations(key).Some? <==> EnglishRecommendations(key).Some?
  {
  }

  lemma SameKeysExport(key: string)
    ensures RussianExport(key).Some? <==> EnglishExport(key).Some?
  {
  }

  lemma SameKeysErrors(key: string)
    ensures RussianErrors(key).Some? <==> EnglishErrors(key).Some?
  {
  }

  lemma SameKeysLanguageNames(key: string)
    ensures RussianLanguageNames(key).Some? <==> EnglishLanguageNames(key).Some?
  {
  }

  /** Both tables define the same keys. */
  lemma SameKeys(key: string)
    ensures RussianEntry(key).Some? <==> EnglishEntry(key).Some?
  {
    SameKeysGui(key);
    SameKeysAnalysisTypes(key);
    SameKeysTabs(key);
    SameKeysStates(key);
    SameKeysMessages(key);
    SameKeysProtection(key);
    SameKeysBypassMethods(key);
    SameKeysStructure(key);
    SameKeysContentTypes(key);
    SameKeysSelectors(key);
    SameKeysRecommendations(key);
    SameKeysExport(key);
    SameKeysErrors(key);
    SameKeysLanguageNames(key);
  }

  /** From a fresh manager, `set_language` accepts exactly the two table codes. */
  lemma SetLanguageAcceptsKnownCodes(defaultLanguage: string, lang: string)
    ensures SetLanguage(NewManager(defaultLanguage), lang).1 <==> lang == "ru" || lang == "en"
    ensures AvailableLanguages(NewManager(defaultLanguage)) == ["ru", "en"]
  {
  }

  /**
   * Whatever the default and whatever `set_language` was asked for, a key that
   * the Russian table lacks comes back unchanged: the fallback does not depend on the language.
   */
  lemma UnknownKeyFallsBack(defaultLanguage: string, lang: string, key: string)
    requires RussianEntry(key).None?
    ensures Text(SetLanguage(NewManager(defaultLanguage), lang).0, key) == key
  {
    SameKeys(key);
  }

  /** A known key comes back as the text of whichever table is in force. */
  lemma KnownKeyIsTranslated(defaultLanguage: string, lang: string, key: string)
    requires RussianEntry(key).Some?
    ensures var m := SetLanguage(NewManager(defaultLanguage), lang).0;
            m.current == "ru" ==> RussianEntry(key) == Some(Text(m, key))
    ensures var m := SetLanguage(NewManager(defaultLanguage), lang).0;
            m.current == "en" ==> EnglishEntry(key) == Some(Text(m, key))
  {
    SameKeys(key);
  }

  /** The manager after a run of `set_language` calls. */
  function SetLanguages(m: LanguageManager, langs: seq<string>): LanguageManager
    decreases |langs|
  {
    if langs == [] then m else SetLanguages(SetLanguage(m, langs[0]).0, langs[1..])
  }

  /**
   * The two-state machine: whatever `set_language` is asked for, the tables stay
   * the same and the current language is the starting one or a code the tables know.
   */
  lemma {:induction false} SetLanguagesStaysKnown(m: LanguageManager, langs: seq<string>)
    ensures SetLanguages(m, langs).translations == m.translations
    ensures SetLanguages(m, langs).current == m.current
            || SetLanguages(m, langs).current in Firsts(m.translations)
    decreases |langs|
  {
    if langs != [] {
      var m' := SetLanguage(m, langs[0]).0;
      SetLanguagesStaysKnown(m', langs[1..]);
    }
  }

  /** Once a known code has been accepted, the manager never leaves the two languages. */
  lemma GlobalManagerStaysKnown(langs: seq<string>)
    ensures SetLanguages(GlobalManager, langs).current in ["ru", "en"]
  {
    SetLanguagesStaysKnown(GlobalManager, langs);
    SetLanguageAcceptsKnownCodes(DefaultLanguage, DefaultLanguage);
  }
}
