# Website analyser core, modelled in Dafny

This project models the analysis core of a Python desktop tool that judges how
hard a website is to scrape. Its parts:

- the **protection analyser** (`protection_analyzer.py`) probes a site and
  rates its anti-bot protection;
- the **structure analyser** (`structure_analyzer.py`) reads the page's markup
  and reports its structure and suggested CSS selectors;
- the **comprehensive analyser** (`comprehensive_analyzer.py`) validates the
  URL, runs one or both analysers, and localises their reports. It adds
  recommendations and a summary, and counts the runs it completed;
- the **utilities** (`utils.py`) validate URLs, clean text, format numbers,
  make file names safe, parse `robots.txt` and retry failing calls;
- the **language manager** (`languages.py`) holds the Russian and English text
  tables and switches between them.

Everything is pure. Network answers, page markup, selector matches, the clock,
the translation's `str.format`, the URL library's NFKC normalisation and IP
address parser (`UrlLib`) and the frames left on the interpreter's stack
(`Stack`, which decides whether `calculate_max_depth` overflows) are parameters, and a switch of language
returns a new manager value. Python dicts that later code reads by key are
modelled as JSON-like values (`JsonValue`), ordered lists of key/value pairs
written with exactly the keys the Python writes. That is what makes "this key is
never written" provable.

Modules and files:

| module | file | models |
|---|---|---|
| `PyBase` | pybase.dfy | Python exceptions, `Option`/`Result`, list helpers |
| `Text` | text.dfy | `str.strip`, ASCII `lower`, `in`, `split`, `str(int)` |
| `JsonValue` | json.dfy | dict values: `get`, item assignment |
| `Sorting` | sorting.dfy | `sorted(..., reverse=True)`, `Counter.most_common`, `sorted(set(..))` |
| `Languages` | languages.dfy | languages.py |
| `UrlValidation` | url.dfy | `validate_url` |
| `TextUtils` | text_utils.dfy | `clean_text`, `format_number`, `safe_filename`, `get_file_extension` |
| `Robots` | robots.dfy | `parse_robots_txt` |
| `Retry` | retry.dfy | `retry_on_failure` |
| `ProtectionChecks` | protection_checks.dfy | the eight probes of the protection analyser |
| `Protection` | protection.dfy | its scoring, levels and report |
| `Dom` | dom.dfy | the parsed document tree, `calculate_max_depth` |
| `StructureInfo`, `StructureContent`, `StructurePage` | structure_*.dfy | the parts of the structure analysis |
| `Structure` | structure.dfy | its report and `evaluate_parsing_complexity` |
| `ComprehensiveTranslate` | comprehensive_translate.dfy | the comprehensive analyser's dict reads and report translations |
| `ComprehensiveAdvice` | comprehensive_advice.dfy | its recommendations and summary |
| `ComprehensiveReports` | comprehensive_reports.dfy | the analysers' reports as it reads them |
| `Comprehensive` | comprehensive.dfy | `analyze_website` |

What the composed flow shows. `analyze_website` reads three keys from the
analysers' reports that the analysers never write:

- `complexity_score`: the protection report carries `total_score` instead, so
  every recommendation and summary uses the low band;
- `pagination`: no content category has that name, so the pagination note is
  never given;
- `dom_stats`: the structure report keeps its DOM statistics at the top level,
  so the summary's `dom_elements` is always 0.

`Comprehensive.AnalyzeValid` and `Comprehensive.AnalyzeWebsite` state the
results that follow from this for every page and every probe outcome.

Where the written description of the system and the code disagree, the model
follows the code:

- the page counts as accessible only for status 200, not for any 2xx status;
- the 10 points of `basic_access` are part of `total_score` on the normal path.

## Model

| member | source | states |
|---|---|---|
| Languages.SetLanguage | languages.py:16-21 | the call returns True exactly when the code is a key of the translations dict; only then does the current language become that code; on False the manager is unchanged; the tables never change |
| Languages.AvailableLanguages | languages.py:37-39 | the list holds one entry per table, and a code is listed exactly when a table exists for it |
| JsonValue.Get | languages.py:26 | indexing a dict by key (here `translations[current_language]`) finds nothing exactly when the key is absent (the `KeyError` case), and a found value is the one stored under that key |
| Languages.Lookup | languages.py:26 | `table.get(key, key)`: the table's text when the key is present, the key itself otherwise |
| Languages.GetText | languages.py:23-31 | an unknown current language yields the key (the exception is swallowed); without keyword arguments the table's text or the key comes back; with them, the formatted text, or the key when formatting raises |
| Languages.SameKeys | languages.py:42-266 | the Russian and the English tables define exactly the same keys |
| Languages.SetLanguageAcceptsKnownCodes | languages.py:9-39 | whatever the default language, a fresh manager accepts exactly "ru" and "en" and lists them in that order |
| Languages.UnknownKeyFallsBack | languages.py:23-31 | a key missing from the tables comes back unchanged, whatever language was requested |
| Languages.KnownKeyIsTranslated | languages.py:23-31 | a known key yields the Russian text while "ru" is current and the English text while "en" is current |
| Languages.SetLanguagesStaysKnown | languages.py:16-21 | after any run of `set_language` calls the tables are unchanged, and the current language is either the starting one or a known code |
| Languages.GlobalManagerStaysKnown | languages.py:268-274 | the module-level manager starts with "ru" and, whatever it is asked, its language stays "ru" or "en" |
| UrlValidation.Normalize | utils.py:80-85 | after stripping and the `https://` prefixing, the address always starts with `http://` or `https://` |
| UrlValidation.ValidateUrl | utils.py:63-111 | a missing or empty argument raises "URL не может быть пустым"; an accepted address is the stripped input with `https://` added when it had no web scheme, and it has a web scheme, a network location `urlparse` does not refuse, and a host the domain pattern matches; every other failure is a ValueError whose message starts with "Ошибка валидации URL: " |
| UrlValidation.CheckAddress | utils.py:88-111 | the address comes back unchanged only when `urlparse` accepts its network location and its host is well formed; when `urlparse` raises, its own message is re-raised behind the validation prefix; every failure is a ValueError with that prefix |
| UrlValidation.NetlocError | utils.py:89 | `urlparse` raises "Invalid IPv6 URL" when the network location has one bracket without the other, and raises nothing when the brackets are balanced, NFKC normalisation adds no delimiter and the host after the last `@` passes the bracketed-host check (which applies even when all brackets lie before that `@`) |
| UrlValidation.PlainNetlocAccepted | utils.py:89 | a network location of ASCII text without brackets never makes `urlparse` raise, whatever the library answers |
| UrlValidation.NfkcRefusal | utils.py:89 | without brackets, a network location whose NFKC form gains a delimiter is refused with the NFKC message |
| UrlValidation.BracketedRefusal | utils.py:89 | with both brackets present, the bracket check's error is the one raised |
| UrlValidation.TextBeforeBracketRefused | utils.py:89 | text before the `[` of a network location without `@` makes it an invalid IPv6 URL |
| UrlValidation.BracketedIpv4Refused | utils.py:89 | an IPv4 address in brackets is refused |
| UrlValidation.UserinfoBracketsChecked | utils.py:89 | when the text after the last `@` has no `[`, its part before the first `:` is the host the bracket check examines, whatever brackets come earlier |
| UrlValidation.UserinfoBracketsRefused | utils.py:89 | brackets before the last `@` followed by a host that is neither an IPvFuture form nor an IPv6 address make `urlparse` raise the bracketed-host error |
| UrlValidation.UserinfoAddressRefused | utils.py:84-111 | a foreign address `a@b` with brackets only in `a` and a host `b` that is no IP address is rejected with `ip_address`'s message behind the validation prefix |
| UrlValidation.UserinfoExampleRefused | utils.py:84-111 | `user:pa[ss]@example.com` is rejected when `example.com` is no IP address |
| UrlValidation.UnbalancedBracketsRefused | utils.py:77-111 | `h:port[` and `h:port]` are rejected with the validation prefix and "Invalid IPv6 URL" |
| UrlValidation.NfkcDelimiterRefused | utils.py:77-111 | `h:x`, with a non-ASCII `x` whose NFKC form is a URL delimiter, is rejected with the NFKC message behind the validation prefix |
| UrlValidation.ForeignNetlocRefused | utils.py:84-111 | an address without a web scheme whose network location `urlparse` refuses is rejected with that error behind the validation prefix |
| UrlValidation.ValidHostMatchesPattern | utils.py:100-106 | checking the dot-separated labels one by one accepts exactly the hosts the domain regular expression matches |
| UrlValidation.SchemeAlwaysWeb | utils.py:84-98 | once the prefix has been added, the scheme is always http or https, so the scheme check can never fail |
| UrlValidation.CheckAddressAccepts | utils.py:88-108 | on an address with a web scheme, both directions: the checks accept exactly when `urlparse` accepts the network location and the host part before the first `:` is well formed |
| UrlValidation.ValidateUrlAccepts | utils.py:63-111 | both directions: a non-empty string is accepted exactly when `urlparse` accepts the network location of its normalised form and that form's host is well formed |
| UrlValidation.NormalizeIdempotent | utils.py:80-85 | normalising twice gives the same as normalising once |
| UrlValidation.ValidateUrlIdempotent | utils.py:63-111 | an accepted address, validated again, is accepted and returned unchanged |
| UrlValidation.ForeignSchemeBecomesHost | utils.py:84-106 | for a label `w` and a remainder `r` not ending in whitespace, an address `w:r` without a web scheme is prefixed with `https://` and its host is `w`; it is accepted as the prefixed address unless `urlparse` refuses the network location, whose error is then re-raised behind the validation prefix; with a plain remainder it is always accepted |
| UrlValidation.ForeignSchemeIsPrefixed | utils.py:84-85 | `ftp://x` is accepted as `https://ftp://x` instead of being rejected as an unsupported scheme |
| TextUtils.CollapseSpaces | utils.py:169 | every run of whitespace becomes one space: the result has no double space, is no longer than the input, and is empty only for empty input |
| TextUtils.CollapseKeepsText | utils.py:169 | collapsing keeps every character other than whitespace, in order |
| TextUtils.CollapseIdempotent | utils.py:169 | collapsing twice is the same as collapsing once |
| TextUtils.Cleaned | utils.py:169 | the cleaned text has only single spaces as whitespace and no whitespace at either end |
| TextUtils.CleanedKeepsText | utils.py:169 | cleaning only drops and merges whitespace |
| TextUtils.Truncate | utils.py:172-173 | no limit, a zero limit or a long enough limit leaves the text alone; a limit of at least 3 below the length gives exactly that many characters ending in `...`; a limit of 1 or 2 gives more characters than the text had |
| TextUtils.CleanText | utils.py:153-175 | empty text gives an empty result; without an effective limit the result is the cleaned text |
| TextUtils.CleanTextWithinLimit | utils.py:172-173 | a limit m with 3 <= m below the cleaned length gives the first m-3 cleaned characters followed by `...` |
| TextUtils.CleanTextOverrunsSmallLimit | utils.py:172-173 | as written, a limit of 1 or 2 gives a result longer than the limit |
| TextUtils.CleanTextOverrunExample | utils.py:172-173 | six characters without whitespace under a limit of 1 come back as seven characters: the first four and `...` |
| TextUtils.CleanTextBounded | utils.py:153-175 | the corrected cut: a positive limit bounds the length, and the result is a prefix of the cleaned text, possibly followed by `...` |
| TextUtils.CleanTextBoundedAgrees | utils.py:153-175 | the corrected cut agrees with the written one for every limit except 1 and 2 |
| TextUtils.FormatNumberDigits | utils.py:140-151 | removing the separating spaces from the formatted number gives `str(n)` |
| TextUtils.FormatNumberGroups | utils.py:140-151 | the formatted number splits at its spaces into the sign with 1 to 3 digits, then groups of exactly 3 digits |
| TextUtils.FormatNumberSmall | utils.py:140-151 | numbers of magnitude below 1000 are written as `str(n)` |
| TextUtils.ReplaceUnsafe | utils.py:224 | each character of the unsafe class (angle brackets, colon, double quote, both slashes, vertical bar, question mark, asterisk) becomes `_` and every other character stays |
| TextUtils.CutName | utils.py:227-228 | the name is cut to a prefix of at most 200 characters, and a shorter name is kept |
| TextUtils.GeneratedName | utils.py:234-235 | the stamped `file_...` name is itself a safe name |
| TextUtils.SafeFilename | utils.py:212-237 | the result is never empty, has at most 200 characters, holds none of the unsafe characters and has no dot at either end |
| TextUtils.SafeFilenameFixedPoint | utils.py:212-237 | a name that is already safe comes back unchanged |
| TextUtils.SafeFilenameIdempotent | utils.py:212-237 | making a name safe twice gives the same as once, whatever the clock reads the second time |
| TextUtils.SafeFilenameOnlyDots | utils.py:231-235 | a name of dots only is replaced by the stamped generated name |
| TextUtils.MimeTableKeys | utils.py:250-264 | the extension table holds exactly the thirteen listed MIME types |
| TextUtils.GetFileExtension | utils.py:239-266 | the result is empty or starts with a dot |
| TextUtils.GetFileExtensionKnown | utils.py:239-266 | an extension is found exactly when the lower-cased type is one of the listed types |
| TextUtils.GetFileExtensionCaseInsensitive | utils.py:266 | the extension does not depend on the case of the type |
| Robots.DirectiveOf | utils.py:316-333 | a recognised field name is the lower-case name of its directive |
| Robots.DirectiveNameRoundTrip | utils.py:316-333 | each directive is recognised by its own name |
| Robots.SplitField | utils.py:306-314 | a line is skipped exactly when, once stripped, it is empty, starts with `#` or has no `:` |
| Robots.ClassifyLine | utils.py:306-314 | a line reads as nothing exactly when it is skipped |
| Robots.KeyCaseInsensitive | utils.py:312-314 | two spellings of a field name that lower-case alike read a line the same way, as the lower-cased name and the stripped value |
| Robots.AppendRule | utils.py:324-328 | appending a rule changes only the named agent's list of that kind and keeps the agent order |
| Robots.AddAgent | utils.py:316-322 | an agent already present is left with its lists; a new one is appended with empty lists |
| Robots.ParseLines | utils.py:305-339 | no agent is recorded twice, and the sitemaps are the values of the `Sitemap` lines in order |
| Robots.ParseRobotsTxt | utils.py:286-339 | the parsed file never records the same agent twice |
| Robots.RunKeepsInvariant | utils.py:305-337 | the loop keeps the agent names distinct and the current agent, when set, registered |
| Robots.SitemapsCollected | utils.py:330-331 | sitemaps are collected in order, whichever agent is current |
| Robots.ParsedAgents | utils.py:316-322 | the agents are the distinct `User-agent` values, in order of first appearance |
| Robots.ParsedAgentRules | utils.py:316-328 | an agent's disallow and allow lists are exactly the values of the rules that follow its `User-agent` lines, in order; an agent never named has no entry |
| Robots.NoAgentNoRules | utils.py:324-328 | rules before any `User-agent` line are dropped, so a file without one records no agent |
| Robots.CrawlDelayIsLast | utils.py:333-337 | the crawl delay is the last value `float` accepts; a value it rejects leaves the earlier one |
| Robots.SkippedLine | utils.py:306-309 | a blank line, a comment or a line without `:` changes nothing |
| Robots.RunAppend | utils.py:305-337 | the loop over two runs of lines is the loop over the first run, then over the second |
| Retry.RetryOnFailure | utils.py:474-502 | at most `max_attempts` calls are made, each after a failed one; success returns the last call's value; a full failure raises the last exception, or TypeError when there was no attempt; the k-th pause is `delay * (k + 1)`, with one pause after each failed attempt but the last; with a non-negative delay the wrapper succeeds exactly when some attempt within the budget does |
| Retry.LinearBackoffTotal | utils.py:492-498 | the pauses of n failed attempts add up to `delay * n * (n + 1) / 2` |
| Sorting.SortDesc | structure_analyzer.py:383 | the stable descending sort is ordered by the key, is a permutation of its input, and keeps items with equal keys in their input order |
| Sorting.Tally | structure_analyzer.py:111 | `Counter`: each distinct item appears once, with its number of occurrences |
| Sorting.MostCommon | structure_analyzer.py:135 | `most_common(n)` keeps min(n, distinct items) entries with distinct items, ranked by count, each with its true count; everything it leaves out occurs no more often than anything it keeps; among equal counts, the entries keep the order of first occurrence |
| Sorting.RankedTake | structure_analyzer.py:135 | the first n entries of any stable ranking of the tally have the size, the true counts, the ranking and the tie order of `most_common(n)` |
| Sorting.LeftOutAreRarer | structure_analyzer.py:135 | whatever the ranked tally's first n entries leave out is no more frequent than any of them |
| Sorting.SortedSet | structure_analyzer.py:110-134 | `sorted(set(xs))` is strictly ascending and holds exactly the items of xs |
| Sorting.AscendingUnique | structure_analyzer.py:110-134 | a finite set of strings has exactly one strictly ascending listing, so the sorted unique tags are determined |
| Dom.MaxDepth | structure_analyzer.py:144-153 | the depth reached is never below the starting depth |
| Dom.DeepestChildBounds | structure_analyzer.py:148-151 | the loop's maximum bounds the depth every element child reaches one level down |
| Dom.LeafDepth | structure_analyzer.py:144-153 | a node without element children is as deep as it starts |
| Dom.MaxDepthIsHeight | structure_analyzer.py:144-153 | from depth d the result is d plus the length of the longest chain of nested elements below the node: a chain that long exists and none is longer |
| Dom.MaxDepthShift | structure_analyzer.py:144-153 | the starting depth only shifts the result |
| ProtectionChecks.HeaderGet | protection_analyzer.py:201-219 | header lookup ignores letter case: nothing is found exactly when no header name matches, and a found value belongs to a matching header |
| ProtectionChecks.CheckBasicAccess | protection_analyzer.py:86-106 | the page counts as accessible exactly when a response came back with status 200; a failed request reports status 0, no content, no headers and its error |
| ProtectionChecks.AccessibleIffStatus200 | protection_analyzer.py:93-101 | the accessible flag agrees with the reported status: accessible exactly when the status is 200 |
| ProtectionChecks.AgentRecord | protection_analyzer.py:126-140 | an agent's probe counts as blocked when it raised or was answered with 403, 429 or 503 |
| ProtectionChecks.CheckUserAgent | protection_analyzer.py:108-152 | one record per agent, in order; protection is detected exactly when some agent was blocked; the strength lies in [0, 1] and is 1 exactly when every agent was blocked |
| ProtectionChecks.RateRecord | protection_analyzer.py:161-182 | a rate probe counts as blocked when it raised or was answered with 429 or 503 |
| ProtectionChecks.CheckRateLimiting | protection_analyzer.py:154-196 | ten numbered requests are recorded; the blocked ones never outnumber the total; rate limiting is detected exactly when some request was blocked |
| ProtectionChecks.CloudflareIndicators | protection_analyzer.py:204-211 | six indicators, each the check of its own header or body marker |
| ProtectionChecks.CheckCloudflare | protection_analyzer.py:198-228 | a failed request reports an error; otherwise at most six indicators are found, Cloudflare is detected exactly when one holds, and the `cf-ray` value is reported |
| ProtectionChecks.RayHeaderMeansCloudflare | protection_analyzer.py:206 | a `cf-ray` header in any letter case is enough for detection |
| ProtectionChecks.ChallengePageMeansCloudflare | protection_analyzer.py:208 | the challenge wording "checking your browser", in any letter case, is enough for detection |
| ProtectionChecks.JsIndicators | protection_analyzer.py:266-278 | five body indicators, each the check of its own marker |
| ProtectionChecks.CheckJavaScript | protection_analyzer.py:230-291 | a failed plain request or browser ends the check with its error; with a browser, JavaScript counts as required exactly when the similarity is below 0.7, and the reported similarity and difference add up to 100; without one, at most five indicators are counted and two suffice |
| ProtectionChecks.ShortJavaScriptPageNeedsJs | protection_analyzer.py:266-278 | without a browser, a page shorter than 1000 characters that mentions "javascript" is judged to need JavaScript |
| ProtectionChecks.CaptchaIndicators | protection_analyzer.py:299-306 | indicator i holds exactly when the lowered body contains marker i |
| ProtectionChecks.CheckCaptcha | protection_analyzer.py:293-322 | a failed request reports an error; otherwise a captcha is detected exactly when one of the six markers occurs in the lowered body |
| ProtectionChecks.RecaptchaCountsTwice | protection_analyzer.py:300-301 | "recaptcha" contains "captcha", so a reCAPTCHA page always shows at least two indicators |
| ProtectionChecks.CheckCookies | protection_analyzer.py:324-347 | either request's failure ends the check with its error; otherwise the count is the cookies the fresh session received, and cookies count as used exactly when there is one |
| ProtectionChecks.RequestMethod | protection_analyzer.py:351-412 | a request-based bypass succeeds exactly when answered with status 200; a status is reported exactly when there was an answer |
| ProtectionChecks.ChromeMethod | protection_analyzer.py:418-436 | the browser bypass succeeds exactly when its lowered page source does not mention "error" |
| ProtectionChecks.AttemptedMethods | protection_analyzer.py:349-441 | the plain and session methods are always attempted first; each optional method is attempted exactly when its library is available |
| ProtectionChecks.TestBypassMethods | protection_analyzer.py:349-441 | one outcome per attempted method, under its name and in order, the browser method last when it is available |
| Protection.Score | protection_analyzer.py:455-514 | no mechanism scores more than 40 points |
| Protection.DetectionRaisesScore | protection_analyzer.py:455-514 | every mechanism scores more when detected than when not, so the total is monotone in every detection flag |
| Protection.Scored | protection_analyzer.py:455-514 | a mechanism entry carries its kind, its flag and the score the table gives that flag |
| Protection.Tier | protection_analyzer.py:523-530 | the level's rank is the number of thresholds 40, 60 and 80 the total reaches |
| Protection.TierMonotone | protection_analyzer.py:523-530 | a higher total never gives a lower level |
| Protection.Summarize | protection_analyzer.py:532-544 | no method is reported exactly when none succeeded; otherwise the best method is the first that succeeded, and the success rate is the successful share of all methods, as a percentage in (0, 100] |
| Protection.FirstSuccess | protection_analyzer.py:532-540 | the chosen method succeeded and every method before it failed |
| Protection.RunChecks | protection_analyzer.py:455 | the basic check's outcome is computed from the plain request alone |
| Protection.MechanismFor | protection_analyzer.py:455-514 | the entry of a mechanism carries its check's flag and the table's score for it |
| Protection.TotalBounds | protection_analyzer.py:467-521 | with basic access granted, the seven scores add up to between 35 and 150 |
| Protection.Assemble | protection_analyzer.py:443-546 | an inaccessible page short-circuits: only basic access, scored 0, a total of 100 and the CRITICAL level; otherwise all seven mechanisms are scored in order, the total is their sum (between 35 and 150), the level is its tier, and the bypass outcomes are summarised |
| Protection.Analyze | protection_analyzer.py:443-546 | the short report appears exactly when the plain request did not answer 200; the full report's level is the tier of a total between 35 and 150, and its bypass entry is the attempted methods' outcomes |
| Protection.MechanismsJson | protection_analyzer.py:456-514 | one entry per mechanism, in order, under its name |
| Protection.BypassJson | protection_analyzer.py:355-436 | each bypass entry is a dict whose `success` is the method's outcome |
| Protection.BypassMethodsJson | protection_analyzer.py:349-441 | the bypass dict's keys are the attempted methods' names, in order |
| Protection.ReportJson | protection_analyzer.py:445-546 | the report's keys are those the analyser writes, in order, with `best_method` and `bypass_success_rate` only after the full analysis; `complexity_score` is never written |
| StructureInfo.UpToSemicolon | structure_analyzer.py:91 | the captured group `[^;]+` is the longest prefix without `;` |
| StructureInfo.FirstCharsetMatch | structure_analyzer.py:91 | the search finds the leftmost position where `charset=` is followed by a character other than `;`, or reports that there is none |
| StructureInfo.CharsetSearch | structure_analyzer.py:91 | a match yields a non-empty name without `;` |
| StructureInfo.ContentTypeCharsetRoundTrip | structure_analyzer.py:88-93 | a Content-Type value `text/html; charset=v` yields exactly `v`, and the name stops at the next `;` |
| StructureInfo.Charset | structure_analyzer.py:80-93 | the character set is `unknown` or a non-empty name |
| StructureInfo.CharsetAttributeWins | structure_analyzer.py:80-87 | a non-empty `charset` attribute on the first `<meta>` carrying one is taken as it is |
| StructureInfo.ContentTypeDecides | structure_analyzer.py:80-93 | without any `<meta charset>`, the first Content-Type `<meta>` decides through its content |
| StructureInfo.NoMetaUnknownCharset | structure_analyzer.py:80-85 | a page without any `<meta>` has the character set `unknown` |
| StructureInfo.Title | structure_analyzer.py:68-70 | the title is stripped, and empty when the page has no `<title>` |
| StructureInfo.MetaDescription | structure_analyzer.py:72-74 | the description is empty without a description `<meta>` or without its `content` |
| StructureInfo.Language | structure_analyzer.py:76-78 | the language is `unknown` without `<html>`, and otherwise its `lang` attribute when present |
| StructureInfo.TagNames | structure_analyzer.py:109 | every named element contributes its non-empty tag name |
| StructureInfo.AllClasses | structure_analyzer.py:116-119 | every class word of every element is collected |
| StructureInfo.AllIds | structure_analyzer.py:120-121 | only non-empty ids are collected |
| StructureInfo.SemanticFound | structure_analyzer.py:128-141 | the semantic tags found are exactly the listed HTML5 tags that occur on the page |
| StructureInfo.SemanticFlagAgrees | structure_analyzer.py:129-141 | the `has_semantic_html5` flag holds exactly when the list of semantic tags found is non-empty |
| StructureInfo.AnalyzeDom | structure_analyzer.py:102-142 | the unique tags are sorted, strictly ascending and exactly the page's tag names; at most 20 entries each in the tag and class distributions; the semantic flag agrees with the semantic tags found, which are the listed tags present |
| StructureContent.SelectedNodes | structure_analyzer.py:218-224 | the set holds exactly the elements some accepted selector matched, skipping selectors that raise |
| StructureContent.KeywordNodes | structure_analyzer.py:227-235 | the set holds exactly the page elements whose class words or id match one of the keywords, ignoring case |
| StructureContent.ContentCountBounds | structure_analyzer.py:215-237 | a category's count is at least the number of distinct elements any one of its selectors matched, and at least the number of keyword-matched elements |
| StructureContent.ContentCountZero | structure_analyzer.py:215-237 | a category counts zero exactly when no selector matched anything and no element matched a keyword |
| StructureContent.DetectContentTypes | structure_analyzer.py:155-238 | the seven categories, in the order of the pattern table, each with its count of distinct elements |
| StructureContent.SampleText | structure_analyzer.py:375 | the sample is a prefix, of at most 100 characters, of the first element's stripped text |
| StructureContent.PatternEntries | structure_analyzer.py:369-380 | every suggestion carries a sample, a match count of at least one and a sample text of at most 100 characters |
| StructureContent.PatternEntriesEmpty | structure_analyzer.py:369-380 | the list is empty exactly when no pattern of the type matched anything |
| StructureContent.TypeSuggestions | structure_analyzer.py:382-383 | a type's suggestions are ordered by match count, most first, ties in pattern order, and are a permutation of the matched patterns' entries |
| StructureContent.CommonSuggestions | structure_analyzer.py:397-405 | a common selector gives one described entry with its count when it matched, and none otherwise |
| StructureContent.Candidates | structure_analyzer.py:353-409 | the thirteen candidate sections: the five pattern types, then the eight common selectors |
| StructureContent.GenerateSelectors | structure_analyzer.py:353-409 | the report keeps exactly the candidate sections that are non-empty, in the order the dict is filled |
| StructureContent.PatternSectionPresent | structure_analyzer.py:366-383 | a pattern type's section is present exactly when one of its patterns matched |
| StructureContent.CommonSectionPresent | structure_analyzer.py:397-407 | a common section is present exactly when its selector matched, and then holds one suggestion |
| StructurePage.LinkTargets | structure_analyzer.py:250-255 | the first link whose `urljoin` raises makes the call raise that ValueError; otherwise a URL is followed exactly when it is the join of some link whose reference is not empty, in-page or `javascript:` |
| StructurePage.FormOf | structure_analyzer.py:269-291 | a form's input count is the number of fields listed, and it has a file upload exactly when a file input lies inside it |
| StructurePage.AnalyzeLinksAndForms | structure_analyzer.py:240-301 | raises exactly when joining some link raises, with that ValueError; otherwise internal and external links carry no duplicates, and together they are exactly the followed targets, split by whether their host is the page's own or absent; one form entry per `<form>` |
| StructurePage.UpperAscii | structure_analyzer.py:272 | the form method keeps its length, each ASCII letter becomes its capital and every other character stays |
| StructurePage.ReactMarkerIsPlainReact | structure_analyzer.py:336 | the `_react` marker adds nothing: React is detected exactly when `react` occurs |
| StructurePage.DetectFrameworks | structure_analyzer.py:331-350 | the detected frameworks are exactly those whose marker occurs in the lowered page, each listed once |
| StructurePage.AnalyzeScriptsAndStyles | structure_analyzer.py:303-351 | one script entry per `<script>` and one style entry per stylesheet link; the external and inline script counts never exceed the scripts; the frameworks come from the lowered page |
| StructurePage.LoadScore | structure_analyzer.py:430-435 | the loading score lies between 0 and 62.5, and reaches 62.5 once every capped term is at its cap |
| StructurePage.LoadingOf | structure_analyzer.py:444 | the loading level is HIGH exactly above 70 and LOW exactly at 40 or below |
| StructurePage.LoadingNeverHigh | structure_analyzer.py:430-444 | the capped terms keep the score below 70, so the loading level is never HIGH |
| StructurePage.Round1 | structure_analyzer.py:443 | rounding to one decimal moves the value by at most 0.05 and gives a whole number of tenths |
| StructurePage.AnalyzePerformance | structure_analyzer.py:411-445 | the page size is the markup's length; the image, script, stylesheet and external-resource counts are zero exactly when the page has no element of that kind, and the external ones are among the images, scripts and links; the score is the capped average of the size and the image, script and external counts rounded to one decimal, and the loading level follows the unrounded average; the score lies between 0 and 62.5 and the level is never HIGH |
| Structure.ParsingLevelOf | structure_analyzer.py:539-550 | VERY_HIGH exactly from 70, HIGH exactly from 50 below 70, MEDIUM exactly from 30 below 50, LOW exactly below 30 |
| Structure.ParsingLevelMonotone | structure_analyzer.py:539-550 | a higher score never gets a lower level |
| Structure.ScriptTerm | structure_analyzer.py:507-513 | the scripts add 0, 15 or 30 points |
| Structure.ParsingScore | structure_analyzer.py:501-537 | the score is at most 100, and at most 80 unless the loading level is HIGH |
| Structure.ParsingFactors | structure_analyzer.py:501-537 | at most five factors, each backed by at least 10 points of the score; without factors the score is 0 or 15 |
| Structure.HeavyLoadingFactorIff | structure_analyzer.py:528-531 | the heavy-loading factor is listed exactly when the loading level is HIGH |
| Structure.EvaluateParsingComplexity | structure_analyzer.py:501-563 | the verdict's level is the level of its score, its recommendation and effort are that level's, and without HIGH loading the score stays at most 80 with no heavy-loading factor |
| Structure.ParsingScoreMonotone | structure_analyzer.py:501-537 | raising any one reading never lowers the score |
| Structure.ParsingInputsOf | structure_analyzer.py:504-533 | the loading reading is HIGH exactly when the performance analysis says so |
| Structure.Assemble | structure_analyzer.py:460-494 | a page that loaded gives a successful report carrying the content types, and without HIGH loading its parsing score is at most 80 |
| Structure.AnalyzePage | structure_analyzer.py:456-499 | for a loaded page: when `calculate_max_depth` would exhaust the interpreter's stack, the failed report stopped after the basic information, carrying the recursion error; otherwise the report fails exactly when joining a link raises, and then stopped after the DOM statistics and content types with that error; a complete report holds the page's own basic information, DOM statistics, content types, links, scripts, selectors, performance and the parsing verdict of those parts |
| Structure.AnalyzeStructure | structure_analyzer.py:447-499 | the report keeps the url and timestamp; it stopped at the fetch exactly when the page could not be loaded, and then carries the load error; a loaded page gives the page report of `Structure.AnalyzePage` |
| Structure.PageReportCounts | structure_analyzer.py:456-494 | a page report carries category counts exactly when the page was not too deep for the stack, and they, and a complete report's selectors, are the page's own |
| Structure.FromLinks | structure_analyzer.py:472-494 | after the DOM statistics, the report fails exactly when joining a link raises, keeping what was computed; otherwise it is complete with the page's links, scripts, selectors, performance and parsing verdict |
| Structure.CarriedParts | structure_analyzer.py:476-488 | the scripts, the selectors and the performance are those of the page |
| Structure.StructureJson | structure_analyzer.py:447-499 | a complete report has exactly the keys the analyser writes, in order, with the content types and the selectors in their places; a failed one has the keys written before the step that raised, then `error` and `success` |
| Structure.FailedReportFields | structure_analyzer.py:450-499 | a failed report has `success` false and carries its error; one stopped at the fetch has the three header keys only; past the fetch it keeps the page title; `content_types` is present exactly when the analysis stopped at the links, holding the counts found |
| Structure.AbsentKey | structure_analyzer.py:447-499 | a key in neither key list is never written |
| Structure.NoDomStatsKey | structure_analyzer.py:460-494 | the report never has a `dom_stats` key: the DOM statistics sit at the top level |
| Structure.NoComplexityScoreKey | structure_analyzer.py:484-486 | the report never has a `complexity_score` key: that value sits inside `performance` |
| Structure.OkReportHasNoError | structure_analyzer.py:460-494 | a successful report has neither `error` nor `success` |
| Structure.NoPaginationCategory | structure_analyzer.py:161-211 | no content category is called `pagination` |
| ComprehensiveTranslate.DictGet | comprehensive_analyzer.py:149 | `get` succeeds exactly on a dict, giving the default for a missing key and the stored value otherwise |
| ComprehensiveTranslate.Iterate | comprehensive_analyzer.py:134 | iteration succeeds exactly on a dict, a list or a string; a dict yields its keys in order, a list its items |
| ComprehensiveTranslate.Localize | comprehensive_analyzer.py:135 | a known name becomes the current language's text for its key; an unknown name is kept |
| ComprehensiveTranslate.LocalizeValue | comprehensive_analyzer.py:118-121 | looking a value up succeeds exactly when it is hashable; a string may be renamed, any other hashable value passes through |
| ComprehensiveTranslate.LocalizeItems | comprehensive_analyzer.py:134-136 | the loop succeeds exactly when every item is hashable, and then gives one looked-up item per item |
| ComprehensiveTranslate.LocalizeAll | comprehensive_analyzer.py:133-136 | the list is built exactly when the value can be iterated and looked up item by item; for a dict it holds the display names of its keys, in order |
| ComprehensiveTranslate.RenameKeysCover | comprehensive_analyzer.py:148-151 | every key of the original dict is found again under its display name |
| ComprehensiveTranslate.RenameKeysUnchanged | comprehensive_analyzer.py:148-151 | a dict whose keys all keep their names comes back as it was |
| ComprehensiveTranslate.AddLevelText | comprehensive_analyzer.py:111-121 | the localised level is written exactly when there is a level, as its display text; a level that cannot be looked up raises; nothing else changes |
| ComprehensiveTranslate.AddBypassTexts | comprehensive_analyzer.py:124-136 | the localised method list is written exactly when there are bypass methods, one display name per method; nothing else changes |
| ComprehensiveTranslate.AddDetectionTexts | comprehensive_analyzer.py:139-151 | the localised detections are always written, from an empty dict when the report has no details; details that are not a dict raise; nothing else changes |
| ComprehensiveTranslate.TranslateProtection | comprehensive_analyzer.py:106-153 | the translation succeeds exactly on the report shapes it can read, and keeps every entry other than the `*_localized` ones it adds |
| ComprehensiveTranslate.AddRenamedSection | comprehensive_analyzer.py:159-170 | a present section is copied under its new key with display names as keys; a section that is not a dict raises; nothing else changes |
| ComprehensiveTranslate.AddDomStatsTexts | comprehensive_analyzer.py:173-184 | the labelled statistics are written only when the report has `dom_stats`; nothing else changes |
| ComprehensiveTranslate.TranslateStructure | comprehensive_analyzer.py:155-203 | the translation succeeds exactly when the sections it reads are dicts where present, and keeps every entry other than the `*_localized` ones it adds |
| ComprehensiveAdvice.BandOf | comprehensive_analyzer.py:214-245 | the band is low below 40, medium from 40 below 60, high from 60 below 80, critical from 80 |
| ComprehensiveAdvice.BandMatchesTier | comprehensive_analyzer.py:293-304 | the score bands are the protection analyser's levels: a band read from the total score names the analyser's own level |
| ComprehensiveAdvice.Number | comprehensive_analyzer.py:214 | comparing with 40 succeeds exactly for a boolean or a number |
| ComprehensiveAdvice.BandOfReport | comprehensive_analyzer.py:212-214 | a report without `complexity_score` falls in the low band |
| ComprehensiveAdvice.BandNotes | comprehensive_analyzer.py:214-246 | two notes for the three lower bands and three for the critical one, none of them about products or pagination |
| ComprehensiveAdvice.BandNotesDistinct | comprehensive_analyzer.py:214-246 | different bands give different notes |
| ComprehensiveAdvice.ProtectionAdvice | comprehensive_analyzer.py:210-246 | no protection report means no notes; otherwise the notes are those of the report's band, and reading the score fails only when the band cannot be read |
| ComprehensiveAdvice.ContentFlag | comprehensive_analyzer.py:252 | reading a content flag succeeds exactly when the report and its content types are dicts |
| ComprehensiveAdvice.StructureAdvice | comprehensive_analyzer.py:249-262 | no structure report means no notes; the products note appears exactly when the products flag is true, and the pagination note exactly when the pagination flag is |
| ComprehensiveAdvice.NoteTexts | comprehensive_analyzer.py:215-262 | each note is written in Russian when the current language is "ru", in English otherwise |
| ComprehensiveAdvice.Recommendations | comprehensive_analyzer.py:205-264 | the recommendations are produced exactly when the notes can be decided |
| ComprehensiveAdvice.RecommendationsSameNotes | comprehensive_analyzer.py:205-264 | the language changes the wording only: any two managers give the same notes, each in its own language |
| ComprehensiveAdvice.AdviceStartsWithBand | comprehensive_analyzer.py:210-246 | the protection notes come first, and they are those of the report's band |
| ComprehensiveAdvice.SumLens | comprehensive_analyzer.py:286-288 | the sum is defined exactly when every value has a length |
| ComprehensiveAdvice.SumLensBound | comprehensive_analyzer.py:286-288 | the total is at least the length of each selector list |
| ComprehensiveAdvice.TruthyCount | comprehensive_analyzer.py:283-285 | no more content types are counted than there are |
| ComprehensiveAdvice.TruthyCountZero | comprehensive_analyzer.py:283-285 | the count is zero exactly when every value is falsy |
| ComprehensiveAdvice.ProtectionSummary | comprehensive_analyzer.py:274-278 | defined exactly on a dict report; it gives the level, the score and the localised level, in that order, each the report's value or its default ("UNKNOWN", 0, "UNKNOWN") when the key is missing |
| ComprehensiveAdvice.StructureSummary | comprehensive_analyzer.py:280-288 | a readable report gives the element count (`dom_stats.total_elements`, 0 without `dom_stats` or without that key), the number of content types with a truthy count, and the total length of the selector lists |
| ComprehensiveAdvice.Part | comprehensive_analyzer.py:274-288 | an optional summary part is empty without its report and built from the report otherwise |
| ComprehensiveAdvice.Summary | comprehensive_analyzer.py:266-309 | a missing url raises KeyError; the summary starts with the url, the time it was made and the current language, then the protection entries of the protection report when there is one, then the structure entries of the structure report when there is one, and ends with the difficulty and time estimate of the protection band in the current language |
| ComprehensiveReports.AnalyserProtectionShaped | protection_analyzer.py:445-546 | every report the protection analyser returns has its keys, a dict of bypass methods and a level name |
| ComprehensiveReports.ProtectionShapedTranslates | comprehensive_analyzer.py:106-153 | such a report always translates, and the translation has no `complexity_score` |
| ComprehensiveReports.AnalyserStructureShaped | structure_analyzer.py:447-499 | every report the structure analyser returns (stopped at the fetch, at the DOM statistics, at the links, or complete) has one of four key lists, integer counts for the seven categories where `content_types` is present, and lists of selectors in a complete one |
| ComprehensiveReports.ReportEntries | structure_analyzer.py:450-499 | `content_types` is written exactly when the analysis got past the DOM statistics, holding its counts; `suggested_selectors` only in a complete report; `error` in every failed one |
| ComprehensiveReports.StructureShapedFailed | structure_analyzer.py:496-498 | a report that stopped at the fetch or the DOM statistics has neither counts nor selectors |
| ComprehensiveReports.StructureShapedLinksFailed | structure_analyzer.py:468-498 | a report that stopped at the links has its counts in place and no selectors |
| ComprehensiveReports.StructureShapedTranslates | comprehensive_analyzer.py:155-203 | such a report always translates, and the translation keeps what the summary reads |
| ComprehensiveReports.GatheredFlags | comprehensive_analyzer.py:252-258 | on gathered results the products flag is whether products were counted, and the pagination flag is always false |
| ComprehensiveReports.GatheredProtectionAdvice | comprehensive_analyzer.py:210-246 | without a `complexity_score` every protection report gives the low band's notes |
| ComprehensiveReports.GatheredStructureAdvice | comprehensive_analyzer.py:249-262 | on gathered results the structure notes are the products note when products were counted, and never the pagination note |
| ComprehensiveReports.GatheredAdvice | comprehensive_analyzer.py:205-264 | on gathered results the notes are the low band's (when protection ran) followed by the products note (when products were counted) |
| ComprehensiveReports.GatheredSummary | comprehensive_analyzer.py:266-309 | on gathered results the summary is produced, rates the difficulty low, reports 0 DOM elements, and counts the content types and selectors from the structure report |
| Comprehensive.Header | comprehensive_analyzer.py:65-71 | the results start with exactly the url, type, language, timestamp and version entries |
| Comprehensive.HeaderFields | comprehensive_analyzer.py:65-71 | the header holds the given values and version 3.1.0, and no report yet |
| Comprehensive.WithReport | comprehensive_analyzer.py:75-91 | an analyser that did not run leaves the results alone; one that ran stores its translated report, and a failed translation ends the analysis; other entries stay |
| Comprehensive.Reports | comprehensive_analyzer.py:73-91 | the reports are stored exactly when their translations succeed; each requested report sits under its key, translated; the header entries stay |
| Comprehensive.ShapedReportsGathered | comprehensive_analyzer.py:73-91 | the analysers' reports are always stored without error, each present exactly when it was produced |
| Comprehensive.Conclusions | comprehensive_analyzer.py:94-95 | the recommendations are the notes of the results, a summary dict is added, and nothing else changes |
| Comprehensive.GatheredOutcome | comprehensive_analyzer.py:94-95 | concluding gathered results always succeeds, keeps the reports, recommends the expected notes and rates the difficulty low |
| Comprehensive.ValidatedNonEmpty | comprehensive_analyzer.py:62-63 | a validated address is never empty, so the `not validate_url(url)` branch never raises |
| Comprehensive.NewAnalyzer | comprehensive_analyzer.py:31-42 | a fresh analyser has counted nothing; it shares the module-level language manager, whose language is Russian at start-up (languages.py:268-274) |
| Comprehensive.Conclude | comprehensive_analyzer.py:97-104 | a completed analysis is counted and returned; an exception is raised again as the localised `analysis_error` message and is not counted |
| Comprehensive.RunAnalysers | comprehensive_analyzer.py:74-91 | the protection analyser runs exactly for "protection" or "both", the structure analyser exactly for "structure" or "both" |
| Comprehensive.ProtectionResults | comprehensive_analyzer.py:77 | the protection entry handed to the translation is the report the protection analyser makes of the probes, in a shape the translation reads |
| Comprehensive.Gather | comprehensive_analyzer.py:65-91 | the results carry the header and exactly the requested reports, translated, and the structure report is the page's: its counts, selectors and load error are those of the page in the environment |
| Comprehensive.StructureReport | structure_analyzer.py:447-499 | the structure report stopped at the fetch exactly when the page did not load, then with the load error; it has counts exactly when the page loaded and was not too deep for the stack, and they are the page's; a complete report's selectors are the page's |
| Comprehensive.StructureResults | structure_analyzer.py:447-499 | the dict the structure analyser returns is readable by the comprehensive analyser and holds the page's counts, selectors and load error |
| Comprehensive.TranslatedOfPage | comprehensive_analyzer.py:155-203 | the structure translation keeps the counts, the selectors and the error it was given |
| Comprehensive.ConcludedStamp | comprehensive_analyzer.py:93-94 | concluding gathered results writes a summary that opens with the url, the time and the language, followed by the protection report's entries when there is one |
| Comprehensive.ConcludedReports | comprehensive_analyzer.py:93-94 | concluding keeps the header and the requested reports, the structure report still the page's |
| Comprehensive.ConcludedSummary | comprehensive_analyzer.py:93-94 | the concluded summary and recommendations are those the gathered reports imply |
| Comprehensive.AnalyzeValid | comprehensive_analyzer.py:65-99 | for a valid address the analysis always completes with the header and exactly the requested reports; the structure report's counts, selectors and load error are the page's; the summary opens with the url, its own time and the current language, followed by the protection report's entries; the recommendations are those the reports imply; the difficulty is rated low; with structure the summary counts the structure report |
| Comprehensive.ConcludedDelivered | comprehensive_analyzer.py:94-99 | gathered results with the header and the requested reports conclude into the promised results |
| Comprehensive.AnalyzeWebsite | comprehensive_analyzer.py:44-104 | the language is switched first when one is given; an invalid address raises its validation error and is not counted; a valid one is counted once and yields the results `Comprehensive.AnalyzeValid` states, in the switched language |

## Left out

- Network, browser and parser work: every HTTP request, the Selenium driver, BeautifulSoup parsing, the CSS selector engine, `urljoin`/`urlparse` in link classification and `difflib` similarity are inputs (`Observations`, `Node`, `Selection`, `UrlOps`, `BrowserRun`). Each is an outside library whose behaviour is not part of this code.
- Sleeps, timeouts, `response.elapsed`, `total_time` and `requests_per_second` in the probes are not modelled: they are wall-clock measurements. `time.strftime`/`datetime.now` readings are parameters (`Clock`, `DateTime`, timestamps).
- The random User-Agent choice (`get_random_headers`) is not modelled: every probe's outcome is already an input.
- `str.format` of translation templates and of the `analysis_error` message, and `str(e)`, are parameters (`FormatArgs`, `Environment.failure`). The template text is opaque.
- Logging calls in `analyze_website` and `__init__` are not modelled: they have no effect on results.
- `format_bytes`, `extract_domain`, `is_internal_url`, `calculate_similarity`, `generate_user_agents`, `check_dependencies`, `get_system_info`, `setup_logging`, `error_handler` and `create_progress_callback` in utils.py are outside the modelled core: they are float formatting, library calls or environment queries.
- `export_results`, `get_statistics` and `main` in comprehensive_analyzer.py, the GUI and the installer are outside the modelled core: they write files and drive the interface.
- Robots.ParseRobotsTxt: the crawl delay is what Python's `float` makes of the text, taken as the parameter `parseFloat`; float parsing (including `inf` and `nan`) is not modelled.
- Retry.RetryOnFailure: the pauses are exact reals; float rounding of `delay * (attempt + 1)` is not modelled.
- Text.Lower: lower-cases ASCII letters and the one-to-one Unicode mappings `LowerChar` lists (such as the Kelvin sign to `k`); mappings Python applies to other letters, and those that change a string's length, are not modelled. They matter only for non-ASCII header names, field names and markers; none of the constants the code compares against contain such letters.
- StructurePage.UpperAscii: upper-cases ASCII letters only; Python's `upper()` also maps other letters (`é` to `É`, `ſ` to `S`) and can lengthen a string (`ß` to `SS`), which is not modelled. Form methods are ASCII in practice.
- StructurePage.Round1: `round(x, 1)` is modelled on exact reals, not binary floats: Python's `round(0.05, 1)` gives 0.1 where the model gives 0.0, because the binary value of 0.05 lies just above it. The contract states the bound and the tenths, which hold for both.
- StructurePage.AnalyzePerformance: the score is exact. For a page of 1400 bytes with no images, scripts or external resources the score is 0.35; Python's float lies just below it and `round` gives 0.3, while the exact model gives 0.4. The contract states the score as `Round1` of the exact average, so it can differ from Python's by 0.1 at such ties; the counts and the bounds hold either way.
- Protection.Summarize: the success rate is an exact real (1 success of 3 gives 100/3, where Python's float is 33.33333333333333); float rounding of the division is not modelled.
- Comprehensive.AnalyzeValid: the protection report in the results is stated to be present exactly when asked for, translated and summarised, but its entries are not restated as those of the probes; `Comprehensive.ProtectionResults` states that the dict is the analyser's report. Carrying the probe-level report through the translation and the conclusions was left out to keep the proofs small.
- Comprehensive.AnalyzeWebsite: the same protection-report limit as `Comprehensive.AnalyzeValid`.
- UrlValidation.ValidateUrl: `urlparse` follows current Python 3 releases, where `urlsplit` checks bracketed hosts with `ipaddress`; older releases without that check accept more. NFKC normalisation and `ipaddress.ip_address` are the parameter `UrlLib`, assumed not to raise anything but the errors modelled.
- Structure.AnalyzeStructure: the only failures modelled are the load error, the recursion error of `calculate_max_depth` and the `ValueError` of `urljoin`; the other library calls (BeautifulSoup, the selector engine) are assumed not to raise. The interpreter's stack is the parameter `Stack`.
- StructurePage.AnalyzeLinksAndForms: Python's `list(set(...))` order is unspecified; the model keeps first occurrences in document order, and the contract states the link sets, not their order.
- The `not validate_url(url)` branch of `analyze_website` is not modelled as a separate error: it can never be taken (`Comprehensive.ValidatedNonEmpty`).
- ProtectionChecks.CheckUserAgent: the strength `blocked_count / len(results)` is stated only through its bounds and its extremes, not as the exact ratio.
- StructureInfo.AnalyzeDom: `classes_count` and `ids_count` are computed as set sizes; the contract does not restate this.

## Findings

| source | as written | input that shows it | evidently intended | confidence | as-written member | corrected member |
|---|---|---|---|---|---|---|
| utils.py:172-173 | a truthy `max_length` below the text's length keeps `text[:max_length-3]` and appends `...`; for a limit of 1 or 2 the slice end is negative, so almost the whole text is kept | `clean_text("abcdef", 1)` gives `"abcd..."`, 7 characters for a limit of 1 | the result never exceeds a positive `max_length` | not executed | TextUtils.CleanTextOverrunExample | TextUtils.CleanTextBounded |
