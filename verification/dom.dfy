/**
 * The parsed HTML document the structure analyser inspects, as the parser
 * hands it over: a tree of element nodes and text nodes. Comments and doctype
 * declarations are not represented. The multi-valued attributes the analyser
 * reads (`class`, `rel`) hold their whitespace-separated words; every other
 * attribute holds its text. The document root is itself an element (the
 * parser names it `[document]`).
 */
module Dom {
  import opened PyBase
  import opened Text

  datatype Node =
    | Element(name: string, attrs: map<string, string>, classes: seq<string>, rel: seq<string>, children: seq<Node>)
    | TextNode(text: string)

  /** `e.get(a)` for a single-valued attribute. */
  function Attr(e: Node, a: string): (r: Option<string>)
    ensures r.Some? <==> e.Element? && a in e.attrs
  {
    if e.Element? && a in e.attrs then Some(e.attrs[a]) else None
  }

  /** `e.get(a, default)`. */
  function AttrOr(e: Node, a: string, default: string): string
  {
    match Attr(e, a)
    case Some(v) => v
    case None => default
  }

  /** `e.has_attr(a)`. */
  predicate HasAttr(e: Node, a: string)
  {
    Attr(e, a).Some?
  }

  predicate IsTag(e: Node, name: string)
  {
    e.Element? && e.name == name
  }

  /** The element descendants of `n` in document order (what `n.find_all()` walks). */
  function Descendants(n: Node): (r: seq<Node>)
    ensures forall i :: 0 <= i < |r| ==> r[i].Element?
    decreases n
  {
    match n
    case TextNode(_) => []
    case Element(_, _, _, _, cs) => DescendantsOf(cs)
  }

  function DescendantsOf(cs: seq<Node>): (r: seq<Node>)
    ensures forall i :: 0 <= i < |r| ==> r[i].Element?
    decreases cs
  {
    if cs == [] then []
    else (if cs[0].Element? then [cs[0]] + Descendants(cs[0]) else []) + DescendantsOf(cs[1..])
  }

  /** Every element child is a descendant, and so is everything below it. */
  lemma {:induction false} ChildrenAreDescendants(n: Node, i: nat)
    requires n.Element? && i < |n.children| && n.children[i].Element?
    ensures n.children[i] in Descendants(n)
    ensures forall x :: x in Descendants(n.children[i]) ==> x in Descendants(n)
  {
    DescendantsOfIncludes(n.children, i);
  }

  lemma {:induction false} DescendantsOfIncludes(cs: seq<Node>, i: nat)
    requires i < |cs| && cs[i].Element?
    ensures cs[i] in DescendantsOf(cs)
    ensures forall x :: x in Descendants(cs[i]) ==> x in DescendantsOf(cs)
  {
    var head := if cs[0].Element? then [cs[0]] + Descendants(cs[0]) else [];
    assert DescendantsOf(cs) == head + DescendantsOf(cs[1..]);
    if i > 0 {
      DescendantsOfIncludes(cs[1..], i - 1);
      assert cs[1..][i - 1] == cs[i];
    }
  }

  /** The first element below `root`, in document order, satisfying `p` (`root.find(...)`). */
  function Find(root: Node, p: Node -> bool): (r: Option<Node>)
    ensures r.None? <==> forall x :: x in Descendants(root) ==> !p(x)
    ensures r.Some? ==> r.value in Descendants(root) && p(r.value) && r.value.Element?
  {
    var all := Descendants(root);
    match FirstWhere(all, p)
    case None => None
    case Some(i) => Some(all[i])
  }

  /** `n.get_text()`: the text nodes below `n`, concatenated in document order. */
  function GetText(n: Node): string
    decreases n
  {
    match n
    case TextNode(t) => t
    case Element(_, _, _, _, cs) => TextOf(cs)
  }

  function TextOf(cs: seq<Node>): string
    decreases cs
  {
    if cs == [] then [] else GetText(cs[0]) + TextOf(cs[1..])
  }

  /**
   * `n.string`: the text of a text node; for an element with exactly one child,
   * that child's `.string`; otherwise `None`.
   */
  function StringOf(n: Node): Option<string>
    decreases n
  {
    match n
    case TextNode(t) => Some(t)
    case Element(_, _, _, _, cs) => if |cs| == 1 then StringOf(cs[0]) else None
  }

  /** Whenever `.string` exists it is the whole text of the node. */
  lemma {:induction false} StringIsWholeText(n: Node)
    requires StringOf(n).Some?
    ensures StringOf(n).value == GetText(n)
    decreases n
  {
    if n.Element? {
      StringIsWholeText(n.children[0]);
      assert TextOf(n.children) == GetText(n.children[0]) + TextOf(n.children[1..]);
    }
  }

  // ---------------------------------------------------------------------------
  // Nesting depth

  function Max(a: nat, b: nat): nat
  {
    if a >= b then a else b
  }

  /** The node has no element children. */
  predicate IsLeaf(n: Node)
  {
    n.TextNode? || forall i :: 0 <= i < |n.children| ==> !n.children[i].Element?
  }

  /**
   * `calculate_max_depth(n, d)`: `d`, raised to the depth each element child
   * reaches one level further down. Text nodes have no children to visit.
   */
  function MaxDepth(n: Node, d: nat): (r: nat)
    ensures r >= d
    decreases n, 1
  {
    match n
    case TextNode(_) => d
    case Element(_, _, _, _, cs) => DeepestChild(n, 0, d, d)
  }

  /** The loop over the children of `n` from position `i`, with `acc` the maximum so far. */
  function DeepestChild(n: Node, i: nat, d: nat, acc: nat): (r: nat)
    requires n.Element? && i <= |n.children|
    ensures r >= acc
    decreases n, 0, |n.children| - i
  {
    if i == |n.children| then acc
    else
      var c := n.children[i];
      DeepestChild(n, i + 1, d, if c.Element? then Max(acc, MaxDepth(c, d + 1)) else acc)
  }

  /** The loop's result bounds the depth every remaining element child reaches. */
  lemma {:induction false} DeepestChildBounds(n: Node, i: nat, d: nat, acc: nat)
    requires n.Element? && i <= |n.children|
    ensures forall j :: i <= j < |n.children| && n.children[j].Element? ==>
              MaxDepth(n.children[j], d + 1) <= DeepestChild(n, i, d, acc)
    decreases |n.children| - i
  {
    if i < |n.children| {
      var c := n.children[i];
      DeepestChildBounds(n, i + 1, d, if c.Element? then Max(acc, MaxDepth(c, d + 1)) else acc);
    }
  }

  /** The loop's result is the starting maximum or the depth some element child reaches. */
  lemma {:induction false} DeepestChildAttained(n: Node, i: nat, d: nat, acc: nat)
    requires n.Element? && i <= |n.children|
    ensures var r := DeepestChild(n, i, d, acc);
            r == acc || exists j :: i <= j < |n.children| && n.children[j].Element? && r == MaxDepth(n.children[j], d + 1)
    decreases |n.children| - i
  {
    if i < |n.children| {
      var c := n.children[i];
      DeepestChildAttained(n, i + 1, d, if c.Element? then Max(acc, MaxDepth(c, d + 1)) else acc);
    }
  }

  /** A node without element children is as deep as it starts. */
  lemma LeafDepth(n: Node, d: nat)
    requires IsLeaf(n)
    ensures MaxDepth(n, d) == d
  {
    if n.Element? {
      DeepestChildAttained(n, 0, d, d);
    }
  }

  /** A chain of `k` nested element children starts at `n`. */
  ghost predicate ReachesDepth(n: Node, k: nat)
    decreases n
  {
    k == 0 || (n.Element? && exists j :: 0 <= j < |n.children| && n.children[j].Element? && ReachesDepth(n.children[j], k - 1))
  }

  /**
   * From depth `d`, the function returns `d` plus the length of the longest chain
   * of nested elements below `n`: the tree height.
   */
  lemma {:induction false} MaxDepthIsHeight(n: Node, d: nat)
    ensures ReachesDepth(n, MaxDepth(n, d) - d)
    ensures forall k: nat :: ReachesDepth(n, k) ==> k <= MaxDepth(n, d) - d
    decreases n
  {
    if n.Element? {
      var r := MaxDepth(n, d);
      DeepestChildBounds(n, 0, d, d);
      DeepestChildAttained(n, 0, d, d);
      forall j | 0 <= j < |n.children| && n.children[j].Element?
        ensures ReachesDepth(n.children[j], MaxDepth(n.children[j], d + 1) - (d + 1))
        ensures forall k: nat :: ReachesDepth(n.children[j], k) ==> k <= MaxDepth(n.children[j], d + 1) - (d + 1)
      {
        MaxDepthIsHeight(n.children[j], d + 1);
      }
      if r != d {
        var j :| 0 <= j < |n.children| && n.children[j].Element? && r == MaxDepth(n.children[j], d + 1);
        assert ReachesDepth(n.children[j], r - d - 1);
      }
      forall k: nat | ReachesDepth(n, k)
        ensures k <= r - d
      {
        if k > 0 {
          var j :| 0 <= j < |n.children| && n.children[j].Element? && ReachesDepth(n.children[j], k - 1);
        }
      }
    }
  }

  /** The starting depth only shifts the result. */
  lemma MaxDepthShift(n: Node, d: nat)
    ensures MaxDepth(n, d) == d + MaxDepth(n, 0)
  {
    MaxDepthIsHeight(n, d);
    MaxDepthIsHeight(n, 0);
  }
}
