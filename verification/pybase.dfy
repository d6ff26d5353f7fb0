/**
 * Python runtime notions the rest of the model needs: optional values,
 * the exceptions the modelled code can raise, and Python's slice rule.
 */
module PyBase {

  datatype Option<+T> = None | Some(value: T)

  /** The exception classes the modelled functions raise or let propagate. */
  datatype Exception =
    | ValueError(message: string)
    | TypeError
    | AttributeError
    | KeyError
    | Raised(message: string)   // an exception of any other class, by its message

  /** A Python call either returns a value or raises. */
  datatype Result<+T> = Ok(value: T) | Err(error: Exception)

  /** `s[:k]` in Python: a negative bound counts from the end, and bounds clamp. */
  function SliceTo<T>(s: seq<T>, k: int): (r: seq<T>)
    ensures k >= 0 ==> |r| == if k <= |s| then k else |s|
    ensures k < 0 ==> |r| == if |s| + k >= 0 then |s| + k else 0
    ensures r <= s
  {
    if k >= 0 then
      (if k <= |s| then s[..k] else s)
    else
      (if |s| + k >= 0 then s[..|s| + k] else [])
  }

  /** Concatenation is associative. */
  lemma AppendAssoc<T>(x: seq<T>, y: seq<T>, z: seq<T>)
    ensures x + (y + z) == (x + y) + z
  {
  }

  lemma PrefixOfAppend<T>(s: seq<T>, a: seq<T>, b: seq<T>)
    requires s == a + b
    ensures s[..|a|] == a
  {
  }

  /** The first components of a list of pairs: a dict's keys, a table's names. */
  function Firsts<K, V>(pairs: seq<(K, V)>): (ks: seq<K>)
    ensures |ks| == |pairs|
    ensures forall i :: 0 <= i < |pairs| ==> ks[i] == pairs[i].0
  {
    if pairs == [] then [] else [pairs[0].0] + Firsts(pairs[1..])
  }

  lemma FirstsAppend<K, V>(a: seq<(K, V)>, b: seq<(K, V)>)
    ensures Firsts(a + b) == Firsts(a) + Firsts(b)
  {
    assert forall i :: 0 <= i < |a + b| ==> Firsts(a + b)[i] == (Firsts(a) + Firsts(b))[i];
  }

  lemma FirstsCons<K, V>(f: (K, V), rest: seq<(K, V)>)
    ensures Firsts([f] + rest) == [f.0] + Firsts(rest)
  {
    assert ([f] + rest)[1..] == rest;
  }

  /** `sum(1 for x in xs if p(x))`. */
  function CountIf<T>(xs: seq<T>, p: T -> bool): (n: nat)
    ensures n <= |xs|
  {
    if xs == [] then 0 else (if p(xs[0]) then 1 else 0) + CountIf(xs[1..], p)
  }

  /** The count is positive exactly when some item qualifies (Python's `any`). */
  lemma {:induction false} CountIfPositive<T>(xs: seq<T>, p: T -> bool)
    ensures CountIf(xs, p) > 0 <==> exists i :: 0 <= i < |xs| && p(xs[i])
  {
    if xs != [] {
      CountIfPositive(xs[1..], p);
      if exists i :: 0 <= i < |xs[1..]| && p(xs[1..][i]) {
        var i :| 0 <= i < |xs[1..]| && p(xs[1..][i]);
        assert p(xs[i + 1]);
      }
      if exists i :: 0 <= i < |xs| && p(xs[i]) {
        var i :| 0 <= i < |xs| && p(xs[i]);
        if i > 0 {
          assert p(xs[1..][i - 1]);
        }
      }
    }
  }

  /** The count reaches the length exactly when every item qualifies (Python's `all`). */
  lemma {:induction false} CountIfAll<T>(xs: seq<T>, p: T -> bool)
    ensures CountIf(xs, p) == |xs| <==> forall i :: 0 <= i < |xs| ==> p(xs[i])
  {
    if xs != [] {
      CountIfAll(xs[1..], p);
      if forall i :: 0 <= i < |xs| ==> p(xs[i]) {
        assert forall i :: 0 <= i < |xs[1..]| ==> p(xs[1..][i]) by {
          forall i | 0 <= i < |xs[1..]| ensures p(xs[1..][i]) {
            assert xs[1..][i] == xs[i + 1];
          }
        }
      }
    }
  }

  /** Counting over a concatenation adds the counts of the parts. */
  lemma {:induction false} CountIfAppend<T>(xs: seq<T>, ys: seq<T>, p: T -> bool)
    ensures CountIf(xs + ys, p) == CountIf(xs, p) + CountIf(ys, p)
  {
    if xs != [] {
      assert (xs + ys)[1..] == xs[1..] + ys;
      CountIfAppend(xs[1..], ys, p);
    } else {
      assert xs + ys == ys;
    }
  }

  /** The position of the first item satisfying `p` (what `find` returns), if any. */
  function FirstWhere<T>(xs: seq<T>, p: T -> bool): (r: Option<nat>)
    ensures r.None? <==> forall i :: 0 <= i < |xs| ==> !p(xs[i])
    ensures r.Some? ==> r.value < |xs| && p(xs[r.value])
    ensures r.Some? ==> forall j :: 0 <= j < r.value ==> !p(xs[j])
  {
    if xs == [] then None
    else if p(xs[0]) then Some(0)
    else match FirstWhere(xs[1..], p)
      case None => None
      case Some(i) => Some(i + 1)
  }

  /** `[x for x in xs if p(x)]`. */
  function Filter<T(!new)>(xs: seq<T>, p: T -> bool): (r: seq<T>)
    ensures |r| == CountIf(xs, p)
    ensures forall i :: 0 <= i < |r| ==> p(r[i])
    ensures forall x :: x in r <==> x in xs && p(x)
  {
    if xs == [] then []
    else (if p(xs[0]) then [xs[0]] else []) + Filter(xs[1..], p)
  }

  /** `r` is `xs` with some items left out and the others in their order. */
  ghost predicate SubsequenceOf<T>(r: seq<T>, xs: seq<T>)
    decreases |xs|
  {
    if r == [] then true
    else if xs == [] then false
    else (r[0] == xs[0] && SubsequenceOf(r[1..], xs[1..])) || SubsequenceOf(r, xs[1..])
  }

  /** A comprehension keeps the items it selects in their order. */
  lemma {:induction false} FilterKeepsOrder<T(!new)>(xs: seq<T>, p: T -> bool)
    ensures SubsequenceOf(Filter(xs, p), xs)
  {
    if xs != [] {
      FilterKeepsOrder(xs[1..], p);
      var r := Filter(xs, p);
      if p(xs[0]) {
        assert r[0] == xs[0] && r[1..] == Filter(xs[1..], p);
      } else {
        assert r == Filter(xs[1..], p);
      }
    }
  }

  /**
   * The distinct items of `xs`, each at its first occurrence. Python's `list(set(xs))`
   * holds the same items in an order the language leaves open; this fixes one.
   */
  function Dedup<T(==,!new)>(xs: seq<T>): (r: seq<T>)
    ensures forall x :: x in r <==> x in xs
    ensures forall i, j :: 0 <= i < j < |r| ==> r[i] != r[j]
  {
    DedupFrom(xs, [])
  }

  function DedupFrom<T(==,!new)>(xs: seq<T>, seen: seq<T>): (r: seq<T>)
    requires forall i, j :: 0 <= i < j < |seen| ==> seen[i] != seen[j]
    ensures forall x :: x in r <==> x in xs || x in seen
    ensures forall i, j :: 0 <= i < j < |r| ==> r[i] != r[j]
  {
    if xs == [] then seen
    else if xs[0] in seen then DedupFrom(xs[1..], seen)
    else DedupFrom(xs[1..], seen + [xs[0]])
  }
}
