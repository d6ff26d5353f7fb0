/**
 * The structure analyser's reading of a page's head and of its element
 * statistics: title, description, language and character set
 * (`analyze_basic_info`) and tag, class and id counts, nesting depth and
 * semantic HTML5 tags (`analyze_dom_structure`).
 */
module StructureInfo {
  import opened PyBase
  import opened Text
  import opened Sorting
  import opened Dom

  // ---------------------------------------------------------------------------
  // Character set

  const CharsetPrefix := "charset="

  /** The pattern `charset=([^;]+)` matches at position `i`. */
  predicate CharsetMatchAt(s: string, i: nat)
  {
    i + |CharsetPrefix| < |s| && s[i..i + |CharsetPrefix|] == CharsetPrefix && s[i + |CharsetPrefix|] != ';'
  }

  /** The longest prefix of `s` without a `;`. */
  function UpToSemicolon(s: string): (r: string)
    ensures r <= s && ';' !in r
    ensures |r| == |s| || s[|r|] == ';'
  {
    if s == [] || s[0] == ';' then [] else [s[0]] + UpToSemicolon(s[1..])
  }

  /** The leftmost match position at or after `i`, as `re.search` scans. */
  function FirstCharsetMatch(s: string, i: nat): (r: Option<nat>)
    ensures r.None? ==> forall j: nat :: i <= j ==> !CharsetMatchAt(s, j)
    ensures r.Some? ==> i <= r.value && CharsetMatchAt(s, r.value)
    ensures r.Some? ==> forall j: nat :: i <= j < r.value ==> !CharsetMatchAt(s, j)
    decreases |s| - i
  {
    if i + |CharsetPrefix| >= |s| then None
    else if CharsetMatchAt(s, i) then Some(i)
    else FirstCharsetMatch(s, i + 1)
  }

  /** `re.search(r'charset=([^;]+)', s).group(1)`, or `None` when nothing matches. */
  function CharsetSearch(s: string): (r: Option<string>)
    ensures r.Some? ==> r.value != [] && ';' !in r.value
  {
    match FirstCharsetMatch(s, 0)
    case None => None
    case Some(i) => Some(UpToSemicolon(s[i + |CharsetPrefix|..]))
  }

  /** A Content-Type value declaring a character set yields exactly that name. */
  lemma ContentTypeCharsetRoundTrip(v: string, rest: string)
    requires v != [] && ';' !in v
    ensures CharsetSearch("text/html; " + CharsetPrefix + v + rest) == Some(UpToSemicolon(v + rest))
    ensures rest == [] || rest[0] == ';' ==> CharsetSearch("text/html; " + CharsetPrefix + v + rest) == Some(v)
  {
    var s := "text/html; " + CharsetPrefix + v + rest;
    forall j: nat | j < 11
      ensures !CharsetMatchAt(s, j)
    {
      assert s[j] == "text/html; "[j];
      assert s[j..j + |CharsetPrefix|][0] == s[j];
    }
    assert CharsetMatchAt(s, 11) by {
      assert s[11..19] == CharsetPrefix;
      assert s[19] == v[0];
    }
    assert s[19..] == v + rest;
    if rest == [] || rest[0] == ';' {
      UpToSemicolonStops(v, rest);
    }
  }

  lemma {:induction false} UpToSemicolonStops(v: string, rest: string)
    requires ';' !in v
    requires rest == [] || rest[0] == ';'
    ensures UpToSemicolon(v + rest) == v
  {
    if v != [] {
      assert (v + rest)[1..] == v[1..] + rest;
      UpToSemicolonStops(v[1..], rest);
    } else {
      assert v + rest == rest;
    }
  }

  predicate IsMetaWithCharset(e: Node)
  {
    IsTag(e, "meta") && HasAttr(e, "charset")
  }

  predicate IsMetaContentType(e: Node)
  {
    IsTag(e, "meta") && Attr(e, "http-equiv") == Some("Content-Type")
  }

  /** The `<meta>` consulted for the character set: one with a `charset` attribute, else the Content-Type one. */
  function CharsetMeta(doc: Node): Option<Node>
  {
    match Find(doc, IsMetaWithCharset)
    case Some(m) => Some(m)
    case None => Find(doc, IsMetaContentType)
  }

  /** The character set of the page, `'unknown'` when it declares none. */
  function Charset(doc: Node): (r: string)
    ensures r == "unknown" || r != []
  {
    match CharsetMeta(doc)
    case None => "unknown"
    case Some(m) =>
      if AttrOr(m, "charset", "") != "" then AttrOr(m, "charset", "")
      else if AttrOr(m, "content", "") != "" then
        (match CharsetSearch(AttrOr(m, "content", ""))
         case Some(v) => v
         case None => "unknown")
      else "unknown"
  }

  /** A non-empty `charset` attribute on the first `<meta>` carrying one is taken as it is. */
  lemma CharsetAttributeWins(doc: Node, m: Node, v: string)
    requires Find(doc, IsMetaWithCharset) == Some(m)
    requires Attr(m, "charset") == Some(v) && v != []
    ensures Charset(doc) == v
  {
  }

  /**
   * Without any `<meta charset>`, the first Content-Type `<meta>` decides: its
   * content `text/html; charset=v` gives `v`.
   */
  lemma ContentTypeDecides(doc: Node, m: Node, v: string)
    requires Find(doc, IsMetaWithCharset).None?
    requires Find(doc, IsMetaContentType) == Some(m)
    requires Attr(m, "content") == Some("text/html; " + CharsetPrefix + v)
    requires !HasAttr(m, "charset") && v != [] && ';' !in v
    ensures Charset(doc) == v
  {
    ContentTypeCharsetRoundTrip(v, []);
    assert "text/html; " + CharsetPrefix + v + [] == "text/html; " + CharsetPrefix + v;
  }

  /** A page without either kind of `<meta>` has an unknown character set. */
  lemma NoMetaUnknownCharset(doc: Node)
    requires forall x :: x in Descendants(doc) ==> !IsTag(x, "meta")
    ensures Charset(doc) == "unknown"
  {
  }

  // ---------------------------------------------------------------------------
  // Basic information

  datatype BasicInfo = BasicInfo(title: string, metaDescription: string, language: string, charset: string)

  predicate IsTitle(e: Node) { IsTag(e, "title") }

  predicate IsHtml(e: Node) { IsTag(e, "html") }

  predicate IsMetaDescription(e: Node)
  {
    IsTag(e, "meta") && Attr(e, "name") == Some("description")
  }

  /** The stripped text of the first `<title>`, or `""`. */
  function Title(doc: Node): (r: string)
    ensures r == "" || (!IsSpace(r[0]) && !IsSpace(r[|r| - 1]))
    ensures Find(doc, IsTitle).None? ==> r == ""
  {
    match Find(doc, IsTitle)
    case Some(t) => Strip(GetText(t))
    case None => ""
  }

  /** The `content` of the first `<meta name="description">`, or `""`. */
  function MetaDescription(doc: Node): (r: string)
    ensures Find(doc, IsMetaDescription).None? ==> r == ""
    ensures forall m :: Find(doc, IsMetaDescription) == Some(m) && !HasAttr(m, "content") ==> r == ""
  {
    match Find(doc, IsMetaDescription)
    case Some(m) => AttrOr(m, "content", "")
    case None => ""
  }

  /** The `lang` of the first `<html>`, or `'unknown'`. */
  function Language(doc: Node): (r: string)
    ensures Find(doc, IsHtml).None? ==> r == "unknown"
    ensures forall h :: Find(doc, IsHtml) == Some(h) && HasAttr(h, "lang") ==> r == h.attrs["lang"]
  {
    match Find(doc, IsHtml)
    case Some(h) => AttrOr(h, "lang", "unknown")
    case None => "unknown"
  }

  /** `analyze_basic_info`. */
  function AnalyzeBasicInfo(doc: Node): BasicInfo
  {
    BasicInfo(Title(doc), MetaDescription(doc), Language(doc), Charset(doc))
  }

  // ---------------------------------------------------------------------------
  // DOM statistics

  const SemanticTags: seq<string> := ["article", "section", "nav", "header", "footer", "main", "aside", "figure"]

  const TopN: nat := 20

  datatype DomStats = DomStats(
    totalElements: nat,
    uniqueTags: seq<string>,
    tagDistribution: seq<(string, nat)>,
    classesCount: nat,
    idsCount: nat,
    popularClasses: seq<(string, nat)>,
    maxNestingDepth: nat,
    hasSemanticHtml5: bool,
    semanticTagsFound: seq<string>)

  /** The tag names of the elements, skipping empty names. */
  function TagNames(elems: seq<Node>): (r: seq<string>)
    ensures forall t :: t in r ==> t != []
    ensures forall e :: e in elems && e.Element? && e.name != [] ==> e.name in r
  {
    if elems == [] then []
    else (if elems[0].Element? && elems[0].name != [] then [elems[0].name] else []) + TagNames(elems[1..])
  }

  /** Every class word of every element, in document order. */
  function AllClasses(elems: seq<Node>): (r: seq<string>)
    ensures forall e, c :: e in elems && e.Element? && c in e.classes ==> c in r
  {
    if elems == [] then []
    else (if elems[0].Element? then elems[0].classes else []) + AllClasses(elems[1..])
  }

  /** Every non-empty `id`, in document order. */
  function AllIds(elems: seq<Node>): (r: seq<string>)
    ensures forall i :: i in r ==> i != []
  {
    if elems == [] then []
    else (if AttrOr(elems[0], "id", "") != "" then [AttrOr(elems[0], "id", "")] else []) + AllIds(elems[1..])
  }

  function Distinct(xs: seq<string>): nat
  {
    |set x | x in xs|
  }

  /** The semantic HTML5 tags among `unique`, in the fixed order of `SemanticTags`. */
  function SemanticFound(unique: seq<string>): (r: seq<string>)
    ensures forall t :: t in r <==> t in SemanticTags && t in unique
  {
    Filter(SemanticTags, t => t in unique)
  }

  /** `any(tag in unique for tag in SemanticTags)`. */
  predicate HasSemantic(unique: seq<string>)
  {
    exists t :: t in SemanticTags && t in unique
  }

  /** The flag and the list of semantic tags agree. */
  lemma SemanticFlagAgrees(unique: seq<string>)
    ensures HasSemantic(unique) <==> SemanticFound(unique) != []
  {
    var r := SemanticFound(unique);
    if HasSemantic(unique) {
      var t :| t in SemanticTags && t in unique;
      assert t in r;
    }
    if r != [] {
      assert r[0] in r;
      assert r[0] in SemanticTags && r[0] in unique;
    }
  }

  /** `analyze_dom_structure`. */
  function AnalyzeDom(doc: Node): (r: DomStats)
    ensures StrictlyAscending(r.uniqueTags)
    ensures forall t :: t in r.uniqueTags <==> t in TagNames(Descendants(doc))
    ensures |r.tagDistribution| <= TopN && |r.popularClasses| <= TopN
    ensures r.hasSemanticHtml5 <==> r.semanticTagsFound != []
    ensures forall t :: t in r.semanticTagsFound <==> t in SemanticTags && t in r.uniqueTags
    // The distributions are `most_common(20)` of the tag names and of the class words.
    ensures r.tagDistribution == MostCommon(TagNames(Descendants(doc)), TopN)
    ensures r.popularClasses == MostCommon(AllClasses(Descendants(doc)), TopN)
    ensures r.totalElements == |Descendants(doc)| && r.maxNestingDepth == MaxDepth(doc, 0)
  {
    var elems := Descendants(doc);
    var tags := TagNames(elems);
    var unique := SortedSet(tags);
    var classes := AllClasses(elems);
    SemanticFlagAgrees(unique);
    DomStats(
      |elems|,
      unique,
      MostCommon(tags, TopN),
      Distinct(classes),
      Distinct(AllIds(elems)),
      MostCommon(classes, TopN),
      MaxDepth(doc, 0),
      HasSemantic(unique),
      SemanticFound(unique))
  }
}
