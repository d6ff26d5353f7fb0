/**
 * What kinds of content a page holds (`detect_content_types`) and which CSS
 * selectors are worth using on it (`generate_selectors`). The CSS selector
 * engine is an input: for each selector it returns the matching elements, or
 * nothing when the engine rejects the selector (the analyser skips those).
 */
module StructureContent {
  import opened PyBase
  import opened Text
  import opened Sorting
  import opened Dom

  /** `soup.select(s)`: the matched elements, or `None` when the call raises. */
  type Selection = string -> Option<seq<Node>>

  // ---------------------------------------------------------------------------
  // Content categories

  const CategoryCount: nat := 7

  function CategoryName(k: nat): string
    requires k < CategoryCount
  {
    match k
    case 0 => "products"
    case 1 => "articles"
    case 2 => "navigation"
    case 3 => "forms"
    case 4 => "lists"
    case 5 => "media"
    case _ => "text_content"
  }

  function CategorySelectors(k: nat): seq<string>
    requires k < CategoryCount
  {
    match k
    case 0 => ["[class*=\"product\"]", "[class*=\"item\"]", "[class*=\"card\"]",
               "[data-product]", "[data-item]", "[itemtype*=\"Product\"]",
               "[class*=\"goods\"]", "[class*=\"catalog\"]"]
    case 1 => ["article", "[class*=\"article\"]", "[class*=\"post\"]",
               "[class*=\"news\"]", "[class*=\"blog\"]", "[class*=\"content\"]"]
    case 2 => ["nav", "[class*=\"nav\"]", "[class*=\"menu\"]",
               "[class*=\"breadcrumb\"]", "[role=\"navigation\"]", "ul.menu", "ul.nav"]
    case 3 => ["form", "[class*=\"form\"]", "[class*=\"search\"]",
               "[class*=\"contact\"]", "[class*=\"subscribe\"]", "input", "textarea"]
    case 4 => ["[class*=\"list\"]", "[class*=\"grid\"]", "[class*=\"catalog\"]",
               "ul", "ol", "[class*=\"items\"]", "table"]
    case 5 => ["img", "video", "audio", "[class*=\"image\"]",
               "[class*=\"photo\"]", "[class*=\"gallery\"]", "picture"]
    case _ => ["p", "div", "span", "[class*=\"text\"]",
               "[class*=\"description\"]", "[class*=\"content\"]"]
  }

  /** The keywords searched, case-insensitively, in class words and ids. */
  function CategoryKeywords(k: nat): seq<string>
    requires k < CategoryCount
  {
    match k
    case 0 => ["price", "buy", "cart", "product", "item", "товар", "цена"]
    case 1 => ["read", "article", "post", "news", "blog", "статья", "новости"]
    case 2 => ["menu", "navigation", "nav", "breadcrumb", "меню", "навигация"]
    case 3 => ["form", "search", "contact", "subscribe", "login", "форма", "поиск"]
    case 4 => ["list", "grid", "catalog", "items", "collection", "список", "каталог"]
    case 5 => ["image", "photo", "gallery", "video", "media", "изображение", "фото"]
    case _ => ["text", "description", "content", "paragraph", "текст", "описание"]
  }

  /** The regular expression `kw` compiled with `re.I` finds a match in `s`. */
  predicate SearchI(s: string, kw: string)
  {
    Contains(Fold(s), kw)
  }

  /**
   * `attrs={'class': re.compile(kw, re.I)}` holds for `e`: the pattern is searched
   * in each class word and in the words joined by spaces.
   */
  predicate ClassMatches(e: Node, kw: string)
  {
    e.Element? && ((exists c :: c in e.classes && SearchI(c, kw)) || SearchI(Join(" ", e.classes), kw))
  }

  /** `attrs={'id': re.compile(kw, re.I)}` holds for `e`. */
  predicate IdMatches(e: Node, kw: string)
  {
    e.Element? && "id" in e.attrs && SearchI(e.attrs["id"], kw)
  }

  predicate KeywordHit(e: Node, kws: seq<string>)
  {
    exists kw :: kw in kws && (ClassMatches(e, kw) || IdMatches(e, kw))
  }

  /**
   * The union of what the selectors matched, skipping selectors the engine
   * rejects. Elements are collected in a Python set, so structurally equal
   * elements count once; datatype equality is that same equality.
   */
  function SelectedNodes(select: Selection, sels: seq<string>): (r: set<Node>)
    ensures forall i :: 0 <= i < |sels| && select(sels[i]).Some? ==> (set x | x in select(sels[i]).value) <= r
    ensures forall x :: x in r ==> exists i :: 0 <= i < |sels| && select(sels[i]).Some? && x in select(sels[i]).value
  {
    if sels == [] then {}
    else
      var first := match select(sels[0]) case Some(ms) => (set x | x in ms) case None => {};
      var rest := SelectedNodes(select, sels[1..]);
      assert forall i :: 1 <= i < |sels| ==> sels[i] == sels[1..][i - 1];
      first + rest
  }

  /** The elements of the page whose class words or id match one of the keywords. */
  function KeywordNodes(elems: seq<Node>, kws: seq<string>): (r: set<Node>)
    ensures forall x :: x in r <==> x in elems && KeywordHit(x, kws)
  {
    set x | x in elems && KeywordHit(x, kws)
  }

  /**
   * The number of distinct elements found for category `k`. bs4 elements
   * compare and hash by structure, so structurally equal elements count once
   * in the Python set as they do here.
   */
  function ContentCount(doc: Node, select: Selection, k: nat): nat
    requires k < CategoryCount
  {
    |SelectedNodes(select, CategorySelectors(k)) + KeywordNodes(Descendants(doc), CategoryKeywords(k))|
  }

  lemma SubsetCard<T>(a: set<T>, b: set<T>)
    requires a <= b
    ensures |a| <= |b|
  {
    assert b == a + (b - a);
  }

  /**
   * A category's count is at least the number of distinct elements any one of its
   * selectors matched, and at least the number of keyword-matched elements.
   */
  lemma ContentCountBounds(doc: Node, select: Selection, k: nat, i: nat)
    requires k < CategoryCount && i < |CategorySelectors(k)|
    ensures select(CategorySelectors(k)[i]).Some? ==>
              |set x | x in select(CategorySelectors(k)[i]).value| <= ContentCount(doc, select, k)
    ensures |KeywordNodes(Descendants(doc), CategoryKeywords(k))| <= ContentCount(doc, select, k)
  {
    var sel := SelectedNodes(select, CategorySelectors(k));
    var kw := KeywordNodes(Descendants(doc), CategoryKeywords(k));
    SubsetCard(kw, sel + kw);
    if select(CategorySelectors(k)[i]).Some? {
      SubsetCard((set x | x in select(CategorySelectors(k)[i]).value), sel + kw);
    }
  }

  /** A category counts nothing exactly when no selector matched and no element hit a keyword. */
  lemma ContentCountZero(doc: Node, select: Selection, k: nat)
    requires k < CategoryCount
    ensures ContentCount(doc, select, k) == 0 <==>
              (forall i :: 0 <= i < |CategorySelectors(k)| && select(CategorySelectors(k)[i]).Some? ==>
                 select(CategorySelectors(k)[i]).value == [])
              && (forall x :: x in Descendants(doc) ==> !KeywordHit(x, CategoryKeywords(k)))
  {
    var sels := CategorySelectors(k);
    var sel := SelectedNodes(select, sels);
    var kw := KeywordNodes(Descendants(doc), CategoryKeywords(k));
    if i :| 0 <= i < |sels| && select(sels[i]).Some? && select(sels[i]).value != [] {
      var ms := select(sels[i]).value;
      assert ms[0] in sel + kw;
    }
    if x :| x in Descendants(doc) && KeywordHit(x, CategoryKeywords(k)) {
      assert x in sel + kw;
    }
    if sel + kw != {} {
      var x :| x in sel + kw;
    }
  }

  /** `detect_content_types`: every category, in order, with its count. */
  function DetectContentTypes(doc: Node, select: Selection): (r: seq<(string, nat)>)
    ensures |r| == CategoryCount
    ensures forall k :: 0 <= k < CategoryCount ==> r[k] == (CategoryName(k), ContentCount(doc, select, k))
  {
    seq(CategoryCount, k requires 0 <= k < CategoryCount => (CategoryName(k), ContentCount(doc, select, k)))
  }

  // ---------------------------------------------------------------------------
  // Suggested selectors

  /** One suggestion: a selector with its match count and either a text sample or a description. */
  datatype Suggestion =
    | Sampled(selector: string, count: nat, sampleText: string)
    | Described(selector: string, count: nat, description: string)

  const SampleLength: nat := 100

  const PatternTypeCount: nat := 5

  function PatternTypeName(k: nat): string
    requires k < PatternTypeCount
  {
    match k
    case 0 => "products"
    case 1 => "articles"
    case 2 => "navigation"
    case 3 => "forms"
    case _ => "lists"
  }

  function PatternTypePatterns(k: nat): seq<string>
    requires k < PatternTypeCount
  {
    match k
    case 0 => ["[class*=\"product\"]", "[class*=\"item\"]", "[class*=\"card\"]"]
    case 1 => ["article", "[class*=\"article\"]", "[class*=\"post\"]"]
    case 2 => ["nav", "[class*=\"menu\"]", "[class*=\"nav\"]"]
    case 3 => ["form", "[class*=\"form\"]"]
    case _ => ["ul", "ol", "[class*=\"list\"]"]
  }

  const CommonCount: nat := 8

  function CommonName(k: nat): string
    requires k < CommonCount
  {
    match k
    case 0 => "all_links"
    case 1 => "all_images"
    case 2 => "all_forms"
    case 3 => "all_inputs"
    case 4 => "headings"
    case 5 => "paragraphs"
    case 6 => "lists"
    case _ => "tables"
  }

  function CommonSelector(k: nat): string
    requires k < CommonCount
  {
    match k
    case 0 => "a[href]"
    case 1 => "img[src]"
    case 2 => "form"
    case 3 => "input, textarea, select"
    case 4 => "h1, h2, h3, h4, h5, h6"
    case 5 => "p"
    case 6 => "ul, ol"
    case _ => "table"
  }

  /** The first matched element's stripped text, cut to 100 characters. */
  function SampleText(ms: seq<Node>): (r: string)
    requires ms != []
    ensures |r| <= SampleLength
    ensures r <= Strip(GetText(ms[0]))
  {
    Take(Strip(GetText(ms[0])), SampleLength)
  }

  /** The selector matched at least one element (and did not raise). */
  predicate Matched(select: Selection, p: string)
  {
    select(p).Some? && select(p).value != []
  }

  /** A pattern suggestion: it matched at least once, and its sample is cut short. */
  predicate WellSampled(s: Suggestion)
  {
    s.Sampled? && s.count >= 1 && |s.sampleText| <= SampleLength
  }

  /** The suggestion for one pattern, if it matched something. */
  function PatternEntry(select: Selection, p: string): (r: seq<Suggestion>)
    ensures |r| <= 1 && (r == [] <==> !Matched(select, p))
    ensures r != [] ==> WellSampled(r[0])
  {
    if Matched(select, p) then
      var ms := select(p).value;
      [Sampled(p, |ms|, SampleText(ms))]
    else []
  }

  /** The suggestions for the patterns that matched something, in pattern order. */
  function PatternEntries(select: Selection, patterns: seq<string>): (r: seq<Suggestion>)
    ensures forall i :: 0 <= i < |r| ==> WellSampled(r[i])
  {
    if patterns == [] then []
    else
      var head := PatternEntry(select, patterns[0]);
      var rest := PatternEntries(select, patterns[1..]);
      head + rest
  }

  /** No suggestion at all exactly when no pattern matched. */
  lemma {:induction false} PatternEntriesEmpty(select: Selection, patterns: seq<string>)
    ensures PatternEntries(select, patterns) == [] <==> forall i :: 0 <= i < |patterns| ==> !Matched(select, patterns[i])
  {
    if patterns != [] {
      PatternEntriesEmpty(select, patterns[1..]);
      assert forall i :: 1 <= i < |patterns| ==> patterns[i] == patterns[1..][i - 1];
    }
  }

  function SuggestionCount(s: Suggestion): int
  {
    s.count
  }

  /** The suggestions of pattern type `k`, most matches first, ties in pattern order. */
  function TypeSuggestions(select: Selection, k: nat): (r: seq<Suggestion>)
    requires k < PatternTypeCount
    ensures SortedDesc(r, SuggestionCount)
    ensures multiset(r) == multiset(PatternEntries(select, PatternTypePatterns(k)))
    ensures forall c :: WithKey(r, c, SuggestionCount) == WithKey(PatternEntries(select, PatternTypePatterns(k)), c, SuggestionCount)
  {
    SortDesc(PatternEntries(select, PatternTypePatterns(k)), SuggestionCount)
  }

  /** The one-entry list for common selector `k`, empty when it matched nothing. */
  function CommonSuggestions(select: Selection, k: nat): (r: seq<Suggestion>)
    requires k < CommonCount
    ensures r == [] <==> !Matched(select, CommonSelector(k))
    ensures r != [] ==> |r| == 1 && r[0].Described? && r[0].count == |select(CommonSelector(k)).value|
  {
    if Matched(select, CommonSelector(k)) then
      [Described(CommonSelector(k), |select(CommonSelector(k)).value|, "Все " + ReplaceChar(CommonName(k), '_', ' '))]
    else []
  }

  const SectionCount: nat := PatternTypeCount + CommonCount

  /** Candidate section `i`: the pattern types first, then the common selectors. */
  function Candidate(select: Selection, i: nat): (string, seq<Suggestion>)
    requires i < SectionCount
  {
    (CandidateName(i), CandidateList(select, i))
  }

  /** The key of candidate section `i`. */
  function CandidateName(i: nat): string
    requires i < SectionCount
  {
    if i < PatternTypeCount then PatternTypeName(i) else "common_" + CommonName(i - PatternTypeCount)
  }

  /** The list of candidate section `i`. */
  function CandidateList(select: Selection, i: nat): seq<Suggestion>
    requires i < SectionCount
  {
    if i < PatternTypeCount then TypeSuggestions(select, i) else CommonSuggestions(select, i - PatternTypeCount)
  }

  /** Every key the selector report may hold, in insertion order, with its list. */
  function Candidates(select: Selection): (c: seq<(string, seq<Suggestion>)>)
    ensures |c| == SectionCount
    ensures forall i :: 0 <= i < SectionCount ==> c[i] == Candidate(select, i)
  {
    seq(SectionCount, i requires 0 <= i < SectionCount => Candidate(select, i))
  }

  predicate NonEmptySection(c: (string, seq<Suggestion>))
  {
    c.1 != []
  }

  /** `generate_selectors`: the pattern-type sections, then the common ones, each kept only when non-empty. */
  function GenerateSelectors(select: Selection): (r: seq<(string, seq<Suggestion>)>)
    ensures forall i :: 0 <= i < |r| ==> r[i].1 != []
    ensures forall x :: x in r <==> x in Candidates(select) && x.1 != []
    // The sections keep the order in which the dict is filled.
    ensures SubsequenceOf(r, Candidates(select))
  {
    FilterKeepsOrder(Candidates(select), NonEmptySection);
    Filter(Candidates(select), NonEmptySection)
  }

  /** A pattern type's section is present exactly when one of its patterns matched. */
  lemma PatternSectionPresent(select: Selection, k: nat)
    requires k < PatternTypeCount
    ensures (PatternTypeName(k), TypeSuggestions(select, k)) in GenerateSelectors(select) <==>
              exists i :: 0 <= i < |PatternTypePatterns(k)| && Matched(select, PatternTypePatterns(k)[i])
  {
    var c := Candidates(select);
    assert c[k] == Candidate(select, k) && c[k] in c;
    assert |TypeSuggestions(select, k)| == |PatternEntries(select, PatternTypePatterns(k))|;
    PatternEntriesEmpty(select, PatternTypePatterns(k));
  }

  /** A common section is present exactly when its selector matched, and then holds one suggestion. */
  lemma CommonSectionPresent(select: Selection, k: nat)
    requires k < CommonCount
    ensures ("common_" + CommonName(k), CommonSuggestions(select, k)) in GenerateSelectors(select) <==>
              Matched(select, CommonSelector(k))
    ensures forall x :: x in GenerateSelectors(select) && x.0 == "common_" + CommonName(k) ==> |x.1| == 1
  {
    var c := Candidates(select);
    assert c[PatternTypeCount + k] == Candidate(select, PatternTypeCount + k) && c[PatternTypeCount + k] in c;
    forall x | x in GenerateSelectors(select) && x.0 == "common_" + CommonName(k)
      ensures |x.1| == 1
    {
      var i :| 0 <= i < |c| && c[i] == x;
      assert x.0 == CandidateName(i) && x.1 == CandidateList(select, i);
      CommonSectionEntry(select, k, i);
    }
  }

  /** The section under a common key holds one suggestion. */
  lemma CommonSectionEntry(select: Selection, k: nat, i: nat)
    requires k < CommonCount && i < SectionCount
    requires CandidateList(select, i) != [] && CandidateName(i) == "common_" + CommonName(k)
    ensures |CandidateList(select, i)| == 1
  {
    CommonKeyIndex(i, k);
    CandidateListCommon(select, k);
  }

  /** Candidate `PatternTypeCount + k` lists common selector `k`'s suggestions. */
  lemma CandidateListCommon(select: Selection, k: nat)
    requires k < CommonCount
    ensures CandidateList(select, PatternTypeCount + k) == CommonSuggestions(select, k)
  {
  }

  /** Only candidate `PatternTypeCount + k` carries the key of common selector `k`. */
  lemma CommonKeyIndex(i: nat, k: nat)
    requires i < SectionCount && k < CommonCount && CandidateName(i) == "common_" + CommonName(k)
    ensures i == PatternTypeCount + k
  {
    if i < PatternTypeCount {
      PatternNamesAreNotCommon(i, k);
      assert false;
    }
    CommonNameIndex(i - PatternTypeCount, k);
  }

  /** Common keys name their selector. */
  lemma CommonNameIndex(i: nat, k: nat)
    requires i < CommonCount && k < CommonCount && "common_" + CommonName(i) == "common_" + CommonName(k)
    ensures i == k
  {
    CommonNamesDistinct();
  }

  lemma PatternNamesAreNotCommon(i: nat, k: nat)
    requires i < PatternTypeCount && k < CommonCount
    ensures PatternTypeName(i) != "common_" + CommonName(k)
  {
    assert ("common_" + CommonName(k))[..7] == "common_";
  }

  lemma CommonNamesDistinct()
    ensures forall i, j :: 0 <= i < j < CommonCount ==> "common_" + CommonName(i) != "common_" + CommonName(j)
  {
    forall i, j | 0 <= i < j < CommonCount
      ensures "common_" + CommonName(i) != "common_" + CommonName(j)
    {
      assert ("common_" + CommonName(i))[7..] == CommonName(i);
      assert ("common_" + CommonName(j))[7..] == CommonName(j);
    }
  }
}
