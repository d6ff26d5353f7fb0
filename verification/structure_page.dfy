/**
 * The structure analyser's inventory of links, forms, scripts and styles
 * (`analyze_links_and_forms`, `analyze_scripts_and_styles`) and its loading
 * cost estimate (`analyze_performance_indicators`). URL resolution and the
 * serialized markup of the page are inputs.
 */
module StructurePage {
  import opened PyBase
  import opened Text
  import opened Dom

  // ---------------------------------------------------------------------------
  // Links

  /** What `urljoin(base, href)` does: return the joined URL, or raise `ValueError` with a message (a malformed bracketed host, say). */
  datatype Joined = Joined(url: string) | JoinRaised(message: string)

  /** `urljoin(base, href)` and `urlparse(url).netloc`, which the model does not define. */
  datatype UrlOps = UrlOps(join: (string, string) -> Joined, netloc: string -> string)

  predicate IsLink(e: Node)
  {
    IsTag(e, "a") && HasAttr(e, "href")
  }

  function Href(e: Node): string
  {
    AttrOr(e, "href", "")
  }

  /** Empty, in-page and `javascript:` references are not links to follow. */
  predicate SkippedHref(href: string)
  {
    href == "" || StartsWith(href, "#") || StartsWith(href, "javascript:")
  }

  /** `urljoin` raises on this link, which is one to follow. */
  predicate JoinFails(baseUrl: string, ops: UrlOps, e: Node)
  {
    !SkippedHref(Href(e)) && ops.join(baseUrl, Href(e)).JoinRaised?
  }

  function FailsFor(baseUrl: string, ops: UrlOps): Node -> bool
  {
    e => JoinFails(baseUrl, ops, e)
  }

  /**
   * The absolute URLs of the followed links, in document order, or the
   * `ValueError` of the first followed link `urljoin` raises on.
   */
  function LinkTargets(baseUrl: string, links: seq<Node>, ops: UrlOps): (r: Result<seq<string>>)
    ensures r.Err? <==> FirstWhere(links, FailsFor(baseUrl, ops)).Some?
    ensures r.Err? ==> r.error == ValueError(ops.join(baseUrl, Href(links[FirstWhere(links, FailsFor(baseUrl, ops)).value])).message)
    ensures r.Ok? ==> forall u :: u in r.value <==>
              exists e :: e in links && !SkippedHref(Href(e)) && ops.join(baseUrl, Href(e)) == Joined(u)
  {
    if links == [] then Ok([])
    else
      var rest := LinkTargets(baseUrl, links[1..], ops);
      assert forall e :: e in links[1..] ==> e in links;
      assert forall e :: e in links ==> e == links[0] || e in links[1..];
      assert FailsFor(baseUrl, ops)(links[0]) == JoinFails(baseUrl, ops, links[0]);
      var head := if SkippedHref(Href(links[0])) then Joined("") else ops.join(baseUrl, Href(links[0]));
      match head
      case JoinRaised(m) => Err(ValueError(m))
      case Joined(u) =>
        match rest
        case Err(e) => Err(e)
        case Ok(us) => Ok((if SkippedHref(Href(links[0])) then [] else [u]) + us)
  }

  predicate IsInternal(url: string, baseUrl: string, ops: UrlOps)
  {
    ops.netloc(url) == ops.netloc(baseUrl) || ops.netloc(url) == ""
  }

  datatype InputInfo = InputInfo(tag: string, inputType: string, name: string, placeholder: string, required: bool)

  datatype FormInfo = FormInfo(
    action: string,
    httpMethod: string,
    inputsCount: nat,
    hasFileUpload: bool,
    classes: seq<string>,
    id: string,
    inputs: seq<InputInfo>)

  datatype LinksForms = LinksForms(internal: seq<string>, external: seq<string>, forms: seq<FormInfo>)

  predicate IsFormField(e: Node)
  {
    e.Element? && e.name in ["input", "select", "textarea"]
  }

  predicate IsFileInput(e: Node)
  {
    IsTag(e, "input") && Attr(e, "type") == Some("file")
  }

  function UpperAsciiChar(c: char): char
  {
    if 'a' <= c <= 'z' then (c as int - 32) as char else c
  }

  /** `s.upper()` on the ASCII letters. */
  function UpperAscii(s: string): (r: string)
    ensures |r| == |s|
    ensures forall i :: 0 <= i < |s| ==> r[i] == UpperAsciiChar(s[i])
  {
    if s == [] then [] else [UpperAsciiChar(s[0])] + UpperAscii(s[1..])
  }

  function InputOf(e: Node): InputInfo
  {
    InputInfo(if e.Element? then e.name else "", AttrOr(e, "type", ""), AttrOr(e, "name", ""), AttrOr(e, "placeholder", ""), HasAttr(e, "required"))
  }

  function InputsOf(fields: seq<Node>): (r: seq<InputInfo>)
    ensures |r| == |fields|
    ensures forall i :: 0 <= i < |fields| ==> r[i] == InputOf(fields[i])
  {
    if fields == [] then [] else [InputOf(fields[0])] + InputsOf(fields[1..])
  }

  /** The description of one `<form>`. */
  function FormOf(form: Node): (r: FormInfo)
    ensures r.inputsCount == |r.inputs|
    ensures r.hasFileUpload <==> exists e :: e in Descendants(form) && IsFileInput(e)
  {
    var fields := Filter(Descendants(form), IsFormField);
    var upload := FirstWhere(Descendants(form), IsFileInput).Some?;
    assert upload <==> exists e :: e in Descendants(form) && IsFileInput(e);
    FormInfo(
      AttrOr(form, "action", ""),
      UpperAscii(AttrOr(form, "method", "GET")),
      |fields|,
      upload,
      if form.Element? then form.classes else [],
      AttrOr(form, "id", ""),
      InputsOf(fields))
  }

  function FormsOf(forms: seq<Node>): (r: seq<FormInfo>)
    ensures |r| == |forms|
    ensures forall i :: 0 <= i < |forms| ==> r[i] == FormOf(forms[i])
  {
    if forms == [] then [] else [FormOf(forms[0])] + FormsOf(forms[1..])
  }

  predicate IsForm(e: Node)
  {
    IsTag(e, "form")
  }

  /**
   * `analyze_links_and_forms`: the error of `LinkTargets` when `urljoin`
   * raises, else the links split by host and the forms. Python collects the
   * links through a set, whose order the language leaves open; the model
   * keeps first occurrences in order.
   */
  function AnalyzeLinksAndForms(doc: Node, baseUrl: string, ops: UrlOps): (r: Result<LinksForms>)
    ensures r.Err? <==> LinkTargets(baseUrl, Filter(Descendants(doc), IsLink), ops).Err?
    ensures r.Err? ==> r.error == LinkTargets(baseUrl, Filter(Descendants(doc), IsLink), ops).error && r.error.ValueError?
    ensures r.Ok? ==> forall i, j :: 0 <= i < j < |r.value.internal| ==> r.value.internal[i] != r.value.internal[j]
    ensures r.Ok? ==> forall i, j :: 0 <= i < j < |r.value.external| ==> r.value.external[i] != r.value.external[j]
    ensures r.Ok? ==> forall u :: u in r.value.internal <==>
              u in LinkTargets(baseUrl, Filter(Descendants(doc), IsLink), ops).value && IsInternal(u, baseUrl, ops)
    ensures r.Ok? ==> forall u :: u in r.value.external <==>
              u in LinkTargets(baseUrl, Filter(Descendants(doc), IsLink), ops).value && !IsInternal(u, baseUrl, ops)
    ensures r.Ok? ==> |r.value.forms| == CountIf(Descendants(doc), IsForm)
  {
    match LinkTargets(baseUrl, Filter(Descendants(doc), IsLink), ops)
    case Err(e) => Err(e)
    case Ok(targets) =>
      Ok(LinksForms(
        Dedup(Filter(targets, u => IsInternal(u, baseUrl, ops))),
        Dedup(Filter(targets, u => !IsInternal(u, baseUrl, ops))),
        FormsOf(Filter(Descendants(doc), IsForm))))
  }

  // ---------------------------------------------------------------------------
  // Scripts and styles

  datatype ScriptInfo = ScriptInfo(src: string, inline: bool, scriptType: string, isAsync: bool, defer: bool)

  datatype StyleInfo = StyleInfo(href: string, media: string, styleType: string)

  /** The six frameworks looked for, in report order. */
  datatype Framework = JQuery | React | Vue | Angular | Bootstrap | Foundation

  const Frameworks: seq<Framework> := [JQuery, React, Vue, Angular, Bootstrap, Foundation]

  function FrameworkName(f: Framework): string
  {
    match f
    case JQuery => "jquery"
    case React => "react"
    case Vue => "vue"
    case Angular => "angular"
    case Bootstrap => "bootstrap"
    case Foundation => "foundation"
  }

  /** The framework's marker occurs in the lower-cased page. */
  predicate FrameworkFound(f: Framework, page: string)
  {
    match f
    case JQuery => Contains(page, "jquery")
    case React => Contains(page, "react") || Contains(page, "_react")
    case Vue => Contains(page, "vue.js") || Contains(page, "vue.min.js")
    case Angular => Contains(page, "angular")
    case Bootstrap => Contains(page, "bootstrap")
    case Foundation => Contains(page, "foundation")
  }

  /** The second React marker adds nothing: `_react` contains `react`. */
  lemma ReactMarkerIsPlainReact(page: string)
    ensures FrameworkFound(React, page) <==> Contains(page, "react")
  {
    if Contains(page, "_react") {
      assert "_react"[1..] == "react";
      assert OccursAt("_react", "react", 1);
      OccursAtWitness("_react", "react", 1);
      ContainsTransitive(page, "_react", "react");
    }
  }

  lemma AllFrameworksListed()
    ensures forall f :: f in Frameworks
  {
    forall f
      ensures f in Frameworks
    {
      match f
      case JQuery => assert Frameworks[0] == f;
      case React => assert Frameworks[1] == f;
      case Vue => assert Frameworks[2] == f;
      case Angular => assert Frameworks[3] == f;
      case Bootstrap => assert Frameworks[4] == f;
      case Foundation => assert Frameworks[5] == f;
    }
  }

  /** The frameworks whose markers occur in the lower-cased page, in report order. */
  function DetectFrameworks(page: string): (r: seq<Framework>)
    ensures forall f :: f in r <==> FrameworkFound(f, page)
    ensures forall i, j :: 0 <= i < j < |r| ==> r[i] != r[j]
  {
    AllFrameworksListed();
    FilterKeepsDistinct(Frameworks, f => FrameworkFound(f, page));
    Filter(Frameworks, f => FrameworkFound(f, page))
  }

  datatype ScriptsStyles = ScriptsStyles(
    scripts: seq<ScriptInfo>,
    externalScripts: nat,
    inlineScripts: nat,
    styles: seq<StyleInfo>,
    inlineStylesCount: nat,
    frameworksDetected: seq<Framework>)

  /** `script.string and script.string.strip()`. */
  predicate HasInlineCode(e: Node)
  {
    match StringOf(e)
    case Some(t) => Strip(t) != ""
    case None => false
  }

  function ScriptOf(e: Node): ScriptInfo
  {
    ScriptInfo(AttrOr(e, "src", ""), HasInlineCode(e), AttrOr(e, "type", "text/javascript"), HasAttr(e, "async"), HasAttr(e, "defer"))
  }

  function ScriptsOf(es: seq<Node>): (r: seq<ScriptInfo>)
    ensures |r| == |es|
    ensures forall i :: 0 <= i < |es| ==> r[i] == ScriptOf(es[i])
  {
    if es == [] then [] else [ScriptOf(es[0])] + ScriptsOf(es[1..])
  }

  function StyleOf(e: Node): StyleInfo
  {
    StyleInfo(AttrOr(e, "href", ""), AttrOr(e, "media", "all"), AttrOr(e, "type", "text/css"))
  }

  function StylesOf(es: seq<Node>): (r: seq<StyleInfo>)
    ensures |r| == |es|
    ensures forall i :: 0 <= i < |es| ==> r[i] == StyleOf(es[i])
  {
    if es == [] then [] else [StyleOf(es[0])] + StylesOf(es[1..])
  }

  predicate IsScript(e: Node) { IsTag(e, "script") }

  /** `find_all('link', rel='stylesheet')`: a `<link>` one of whose `rel` words is `stylesheet`. */
  predicate IsStylesheet(e: Node)
  {
    IsTag(e, "link") && "stylesheet" in e.rel
  }

  predicate HasStyleAttr(e: Node) { HasAttr(e, "style") }

  predicate ExternalScript(s: ScriptInfo) { s.src != "" }

  predicate InlineScript(s: ScriptInfo) { s.inline }

  /** `analyze_scripts_and_styles`, given the serialized page. */
  function AnalyzeScriptsAndStyles(doc: Node, markup: string): (r: ScriptsStyles)
    ensures |r.scripts| == CountIf(Descendants(doc), IsScript)
    ensures r.externalScripts <= |r.scripts| && r.inlineScripts <= |r.scripts|
    ensures |r.styles| == CountIf(Descendants(doc), IsStylesheet)
    ensures r.frameworksDetected == DetectFrameworks(Lower(markup))
  {
    var elems := Descendants(doc);
    var scripts := ScriptsOf(Filter(elems, IsScript));
    ScriptsStyles(
      scripts,
      CountIf(scripts, ExternalScript),
      CountIf(scripts, InlineScript),
      StylesOf(Filter(elems, IsStylesheet)),
      CountIf(elems, HasStyleAttr),
      DetectFrameworks(Lower(markup)))
  }

  lemma {:induction false} FilterKeepsDistinct<T(!new)>(xs: seq<T>, p: T -> bool)
    requires forall i, j :: 0 <= i < j < |xs| ==> xs[i] != xs[j]
    ensures forall i, j :: 0 <= i < j < |Filter(xs, p)| ==> Filter(xs, p)[i] != Filter(xs, p)[j]
  {
    if xs != [] {
      FilterKeepsDistinct(xs[1..], p);
      var rest := Filter(xs[1..], p);
      assert forall x :: x in rest ==> x in xs[1..];
      assert xs[0] !in xs[1..];
    }
  }

  // ---------------------------------------------------------------------------
  // Performance indicators

  datatype Loading = LoadLow | LoadMedium | LoadHigh

  function LoadingName(l: Loading): string
  {
    match l
    case LoadLow => "LOW"
    case LoadMedium => "MEDIUM"
    case LoadHigh => "HIGH"
  }

  datatype Performance = Performance(
    pageSizeBytes: nat,
    imagesCount: nat,
    scriptsCount: nat,
    stylesCount: nat,
    externalResources: nat,
    complexityScore: real,
    loading: Loading)

  function MinReal(a: real, b: real): real
  {
    if a <= b then a else b
  }

  /**
   * The loading score: page size in kilobytes capped at 100, twice the images
   * capped at 50, three times the scripts capped at 50, external resources capped
   * at 50, averaged over the four terms. Computed exactly (the source uses floats).
   */
  function LoadScore(pageSize: nat, images: nat, scripts: nat, external: nat): (s: real)
    ensures 0.0 <= s <= 62.5
    ensures pageSize >= 100000 && images >= 25 && scripts >= 17 && external >= 50 ==> s == 62.5
  {
    (MinReal(pageSize as real / 1000.0, 100.0)
     + MinReal((images * 2) as real, 50.0)
     + MinReal((scripts * 3) as real, 50.0)
     + MinReal(external as real, 50.0)) / 4.0
  }

  /** The loading level: above 70 HIGH, above 40 MEDIUM, otherwise LOW. */
  function LoadingOf(score: real): (l: Loading)
    ensures l == LoadHigh <==> score > 70.0
    ensures l == LoadLow <==> score <= 40.0
  {
    if score > 70.0 then LoadHigh else if score > 40.0 then LoadMedium else LoadLow
  }

  /** Each capped term is at most its cap, so the score stays below the HIGH band. */
  lemma LoadingNeverHigh(pageSize: nat, images: nat, scripts: nat, external: nat)
    ensures LoadingOf(LoadScore(pageSize, images, scripts, external)) != LoadHigh
  {
  }

  /**
   * `round(x, 1)` for a non-negative value: the nearest multiple of 0.1, a tie
   * going to the even tenth.
   */
  function Round1(x: real): (r: real)
    requires x >= 0.0
    ensures -0.05 <= r - x <= 0.05
    ensures (r * 10.0).Floor as real == r * 10.0
    ensures x <= 62.5 ==> r <= 62.5
  {
    var t := x * 10.0;
    var n := t.Floor;
    var f := t - n as real;
    var m := if f > 0.5 then n + 1 else if f < 0.5 then n else if n % 2 == 0 then n else n + 1;
    assert (m as real / 10.0) * 10.0 == m as real;
    m as real / 10.0
  }

  predicate IsImage(e: Node) { IsTag(e, "img") }

  predicate IsResource(e: Node)
  {
    e.Element? && e.name in ["img", "script", "link"]
  }

  /** `elem.get('src') or elem.get('href', '')`. */
  function ResourceUrl(e: Node): string
  {
    if AttrOr(e, "src", "") != "" then AttrOr(e, "src", "") else AttrOr(e, "href", "")
  }

  predicate LoadsExternally(e: Node)
  {
    var u := ResourceUrl(e);
    u != "" && (StartsWith(u, "http") || StartsWith(u, "//"))
  }

  /** A count is zero exactly when no item qualifies. */
  lemma NoneOfKind(xs: seq<Node>, p: Node -> bool)
    ensures CountIf(xs, p) == 0 <==> forall e :: e in xs ==> !p(e)
  {
    CountIfPositive(xs, p);
  }

  /** `analyze_performance_indicators`, given the serialized page. */
  function AnalyzePerformance(doc: Node, markup: string): (r: Performance)
    ensures r.pageSizeBytes == |markup|
    // Each count is zero exactly when the page has no element of its kind.
    ensures r.imagesCount == 0 <==> forall e :: e in Descendants(doc) ==> !IsImage(e)
    ensures r.scriptsCount == 0 <==> forall e :: e in Descendants(doc) ==> !IsScript(e)
    ensures r.stylesCount == 0 <==> forall e :: e in Descendants(doc) ==> !IsStylesheet(e)
    ensures r.externalResources == 0 <==> forall e :: e in Descendants(doc) && IsResource(e) ==> !LoadsExternally(e)
    ensures r.externalResources <= CountIf(Descendants(doc), IsResource)
    // The score is the rounded capped average of the size and of the counts the report shows; styles do not enter it.
    ensures r.complexityScore == Round1(LoadScore(r.pageSizeBytes, r.imagesCount, r.scriptsCount, r.externalResources))
    ensures r.loading == LoadingOf(LoadScore(r.pageSizeBytes, r.imagesCount, r.scriptsCount, r.externalResources))
    ensures 0.0 <= r.complexityScore <= 62.5
    ensures r.loading != LoadHigh
  {
    var elems := Descendants(doc);
    var resources := Filter(elems, IsResource);
    var external := CountIf(resources, LoadsExternally);
    NoneOfKind(elems, IsImage);
    NoneOfKind(elems, IsScript);
    NoneOfKind(elems, IsStylesheet);
    NoneOfKind(resources, LoadsExternally);
    var score := LoadScore(|markup|, CountIf(elems, IsImage), CountIf(elems, IsScript), external);
    LoadingNeverHigh(|markup|, CountIf(elems, IsImage), CountIf(elems, IsScript), external);
    Performance(
      |markup|,
      CountIf(elems, IsImage),
      CountIf(elems, IsScript),
      CountIf(elems, IsStylesheet),
      external,
      Round1(score),
      LoadingOf(score))
  }
}
