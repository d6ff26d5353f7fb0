/**
 * Python's `sorted(xs, key=k, reverse=True)` on integer keys, a stable sort,
 * and `collections.Counter(xs).most_common(n)`, which ranks by the same rule.
 */
module Sorting {
  import opened PyBase

  ghost predicate SortedDesc<T>(s: seq<T>, key: T -> int)
  {
    forall i, j :: 0 <= i < j < |s| ==> key(s[i]) >= key(s[j])
  }

  /** The items of `s` whose key is `k`, in their order in `s`. */
  function WithKey<T>(s: seq<T>, k: int, key: T -> int): seq<T>
  {
    if s == [] then []
    else WithKey(s[..|s| - 1], k, key) + (if key(s[|s| - 1]) == k then [s[|s| - 1]] else [])
  }

  /** Inserts `x` into a descending sequence after every item whose key is not below its own. */
  function InsertDesc<T>(ys: seq<T>, x: T, key: T -> int): seq<T>
  {
    if ys == [] || key(ys[|ys| - 1]) >= key(x) then ys + [x]
    else InsertDesc(ys[..|ys| - 1], x, key) + [ys[|ys| - 1]]
  }

  lemma WithKeySnoc<T>(s: seq<T>, x: T, k: int, key: T -> int)
    ensures WithKey(s + [x], k, key) == WithKey(s, k, key) + (if key(x) == k then [x] else [])
  {
    assert (s + [x])[..|s|] == s;
  }

  lemma {:induction false} InsertDescMultiset<T>(ys: seq<T>, x: T, key: T -> int)
    ensures multiset(InsertDesc(ys, x, key)) == multiset(ys) + multiset{x}
    decreases |ys|
  {
    if !(ys == [] || key(ys[|ys| - 1]) >= key(x)) {
      assert ys == ys[..|ys| - 1] + [ys[|ys| - 1]];
      InsertDescMultiset(ys[..|ys| - 1], x, key);
    }
  }

  /** Inserting keeps a lower bound that the sequence and the new item share. */
  lemma {:induction false} InsertDescBound<T>(ys: seq<T>, x: T, key: T -> int, m: int)
    requires forall i :: 0 <= i < |ys| ==> key(ys[i]) >= m
    requires key(x) >= m
    ensures forall i :: 0 <= i < |InsertDesc(ys, x, key)| ==> key(InsertDesc(ys, x, key)[i]) >= m
    decreases |ys|
  {
    if !(ys == [] || key(ys[|ys| - 1]) >= key(x)) {
      InsertDescBound(ys[..|ys| - 1], x, key, m);
    }
  }

  lemma {:induction false} InsertDescSorted<T>(ys: seq<T>, x: T, key: T -> int)
    requires SortedDesc(ys, key)
    ensures SortedDesc(InsertDesc(ys, x, key), key)
    decreases |ys|
  {
    if !(ys == [] || key(ys[|ys| - 1]) >= key(x)) {
      var init, last := ys[..|ys| - 1], ys[|ys| - 1];
      InsertDescSorted(init, x, key);
      InsertDescBound(init, x, key, key(last));
    }
  }

  lemma {:induction false} InsertDescWithKey<T>(ys: seq<T>, x: T, key: T -> int, k: int)
    ensures WithKey(InsertDesc(ys, x, key), k, key)
            == WithKey(ys, k, key) + (if key(x) == k then [x] else [])
    decreases |ys|
  {
    if ys == [] || key(ys[|ys| - 1]) >= key(x) {
      WithKeySnoc(ys, x, k, key);
    } else {
      var init, last := ys[..|ys| - 1], ys[|ys| - 1];
      InsertDescWithKey(init, x, key, k);
      WithKeySnoc(InsertDesc(init, x, key), last, k, key);
      assert ys == init + [last];
      WithKeySnoc(init, last, k, key);
    }
  }

  /** A stable descending sort: insertion sort, consuming the input from the right. */
  function SortDesc<T>(xs: seq<T>, key: T -> int): (r: seq<T>)
    ensures SortedDesc(r, key)
    ensures multiset(r) == multiset(xs)
    ensures forall k :: WithKey(r, k, key) == WithKey(xs, k, key)
  {
    if xs == [] then []
    else
      var init, last := xs[..|xs| - 1], xs[|xs| - 1];
      assert xs == init + [last];
      var sorted := SortDesc(init, key);
      InsertDescSorted(sorted, last, key);
      InsertDescMultiset(sorted, last, key);
      assert forall k :: WithKey(InsertDesc(sorted, last, key), k, key) == WithKey(xs, k, key) by {
        forall k ensures WithKey(InsertDesc(sorted, last, key), k, key) == WithKey(xs, k, key) {
          InsertDescWithKey(sorted, last, key, k);
          WithKeySnoc(init, last, k, key);
        }
      }
      InsertDesc(sorted, last, key)
  }

  /** `xs[:n]`. */
  function Take<T>(xs: seq<T>, n: nat): (r: seq<T>)
    ensures |r| <= n && r <= xs
    ensures |xs| <= n ==> r == xs
  {
    if |xs| <= n then xs else xs[..n]
  }

  // ---------------------------------------------------------------------------
  // Counter

  ghost predicate DistinctKeys<T>(t: seq<(T, nat)>)
  {
    forall i, j :: 0 <= i < j < |t| ==> t[i].0 != t[j].0
  }

  /** Adds one occurrence of `x` to a tally, appending `x` when it is new. */
  function TallyAdd<T(==)>(t: seq<(T, nat)>, x: T): seq<(T, nat)>
  {
    if t == [] then [(x, 1)]
    else if t[0].0 == x then [(x, t[0].1 + 1)] + t[1..]
    else [t[0]] + TallyAdd(t[1..], x)
  }

  lemma {:induction false} TallyAddProperties<T>(t: seq<(T, nat)>, x: T)
    requires DistinctKeys(t)
    ensures |TallyAdd(t, x)| == |t| + (if x in Firsts(t) then 0 else 1)
    ensures DistinctKeys(TallyAdd(t, x))
    ensures forall i :: 0 <= i < |t| ==> TallyAdd(t, x)[i].0 == t[i].0
    ensures x !in Firsts(t) ==> TallyAdd(t, x)[|t|] == (x, 1)
    ensures forall i :: 0 <= i < |t| ==>
              TallyAdd(t, x)[i].1 == t[i].1 + (if t[i].0 == x then 1 else 0)
  {
    TallyAddShape(t, x);
    var r := TallyAdd(t, x);
    forall i, j | 0 <= i < j < |r|
      ensures r[i].0 != r[j].0
    {
      if j == |t| {
        assert r[i].0 == t[i].0 && t[i].0 in Firsts(t);
      }
    }
  }

  /** The counts move, the keys stay, a new key goes last. */
  lemma {:induction false} TallyAddShape<T>(t: seq<(T, nat)>, x: T)
    requires DistinctKeys(t)
    ensures |TallyAdd(t, x)| == |t| + (if x in Firsts(t) then 0 else 1)
    ensures forall i :: 0 <= i < |t| ==> TallyAdd(t, x)[i].0 == t[i].0
    ensures x !in Firsts(t) ==> TallyAdd(t, x)[|t|] == (x, 1)
    ensures forall i :: 0 <= i < |t| ==>
              TallyAdd(t, x)[i].1 == t[i].1 + (if t[i].0 == x then 1 else 0)
  {
    if t != [] && t[0].0 != x {
      var tail := t[1..];
      var rest := TallyAdd(tail, x);
      var r := TallyAdd(t, x);
      assert DistinctKeys(tail) by {
        assert forall i :: 0 <= i < |tail| ==> tail[i] == t[i + 1];
      }
      TallyAddShape(tail, x);
      assert Firsts(t) == [t[0].0] + Firsts(tail);
      assert x in Firsts(t) <==> x in Firsts(tail);
      assert r == [t[0]] + rest;
      forall i | 1 <= i < |r|
        ensures r[i] == rest[i - 1]
      {
      }
      forall i | 1 <= i < |t|
        ensures t[i] == tail[i - 1]
      {
      }
    } else if t != [] {
      assert Firsts(t)[0] == x;
      assert forall i :: 1 <= i < |t| ==> t[i].0 != x;
    }
  }

  lemma {:induction false} TallyAddKeys<T>(t: seq<(T, nat)>, x: T)
    ensures forall y :: y in Firsts(TallyAdd(t, x)) <==> y in Firsts(t) || y == x
  {
    if t != [] && t[0].0 != x {
      TallyAddKeys(t[1..], x);
      assert Firsts(t) == [t[0].0] + Firsts(t[1..]);
      assert Firsts(TallyAdd(t, x)) == [t[0].0] + Firsts(TallyAdd(t[1..], x));
    } else if t != [] {
      assert Firsts(t) == [t[0].0] + Firsts(t[1..]);
      assert Firsts(TallyAdd(t, x)) == [x] + Firsts(t[1..]);
    }
  }

  lemma TallyAddCounts<T>(init: seq<T>, last: T, t0: seq<(T, nat)>)
    requires DistinctKeys(t0)
    requires forall y :: y in Firsts(t0) <==> y in init
    requires forall i :: 0 <= i < |t0| ==> t0[i].1 == multiset(init)[t0[i].0]
    ensures forall i :: 0 <= i < |TallyAdd(t0, last)| ==>
              TallyAdd(t0, last)[i].1 == multiset(init + [last])[TallyAdd(t0, last)[i].0]
  {
    TallyAddProperties(t0, last);
    var t := TallyAdd(t0, last);
    forall i | 0 <= i < |t|
      ensures t[i].1 == multiset(init + [last])[t[i].0]
    {
      if i == |t0| {
        assert last !in init;
      }
    }
  }

  /** `Counter(xs)` as an ordered tally: keys in order of first occurrence. */
  function Tally<T(==,!new)>(xs: seq<T>): (t: seq<(T, nat)>)
    ensures DistinctKeys(t)
    ensures forall x :: x in Firsts(t) <==> x in xs
    ensures forall i :: 0 <= i < |t| ==> t[i].1 == multiset(xs)[t[i].0]
  {
    if xs == [] then []
    else
      var init, last := xs[..|xs| - 1], xs[|xs| - 1];
      assert xs == init + [last];
      var t0 := Tally(init);
      TallyAddProperties(t0, last);
      TallyAddKeys(t0, last);
      TallyAddCounts(init, last, t0);
      TallyAdd(t0, last)
  }

  /** The position of the first `x` in `xs`. */
  function FirstAt<T(==)>(xs: seq<T>, x: T): (i: nat)
    requires x in xs
    ensures i < |xs| && xs[i] == x && x !in xs[..i]
  {
    if xs[0] == x then 0
    else
      var i := FirstAt(xs[1..], x);
      assert xs[..i + 1] == [xs[0]] + xs[1..][..i];
      i + 1
  }

  /** The first occurrence is the one with no `x` before it. */
  lemma FirstAtUnique<T>(ys: seq<T>, x: T, k: nat)
    requires k < |ys| && ys[k] == x && x !in ys[..k]
    ensures FirstAt(ys, x) == k
  {
    var j := FirstAt(ys, x);
    assert forall m :: 0 <= m < k ==> ys[..k][m] == ys[m];
    assert forall m :: 0 <= m < j ==> ys[..j][m] == ys[m];
  }

  /** Appending an item does not move the first occurrence of an earlier one. */
  lemma FirstAtSnoc<T>(xs: seq<T>, last: T, x: T)
    requires x in xs
    ensures FirstAt(xs + [last], x) == FirstAt(xs, x)
  {
    var i := FirstAt(xs, x);
    assert (xs + [last])[..i] == xs[..i];
    FirstAtUnique(xs + [last], x, i);
  }

  /** The keys of `t` come in the order of their first occurrences in `xs`. */
  ghost predicate InFirstOrder<T>(xs: seq<T>, t: seq<(T, nat)>)
  {
    (forall i :: 0 <= i < |t| ==> t[i].0 in xs)
    && forall i, j :: 0 <= i < j < |t| ==> FirstAt(xs, t[i].0) < FirstAt(xs, t[j].0)
  }

  /** `Counter` lists its keys in order of first occurrence. */
  lemma {:induction false} TallyFirstOccurrence<T(!new)>(xs: seq<T>)
    ensures InFirstOrder(xs, Tally(xs))
  {
    if xs != [] {
      var init, last := xs[..|xs| - 1], xs[|xs| - 1];
      assert xs == init + [last];
      TallyFirstOccurrence(init);
      TallyOrderStep(init, last, Tally(init));
    }
  }

  /** Counting one more item keeps the keys in first-occurrence order. */
  lemma TallyOrderStep<T>(init: seq<T>, last: T, t0: seq<(T, nat)>)
    requires DistinctKeys(t0) && InFirstOrder(init, t0)
    requires forall y :: y in Firsts(t0) <==> y in init
    ensures InFirstOrder(init + [last], TallyAdd(t0, last))
  {
    var xs := init + [last];
    TallyAddProperties(t0, last);
    var t := TallyAdd(t0, last);
    forall i | 0 <= i < |t|
      ensures t[i].0 in xs && (i < |t0| ==> FirstAt(xs, t[i].0) == FirstAt(init, t0[i].0))
    {
      if i < |t0| {
        FirstAtSnoc(init, last, t[i].0);
      }
    }
    forall i, j | 0 <= i < j < |t|
      ensures FirstAt(xs, t[i].0) < FirstAt(xs, t[j].0)
    {
      if j == |t0| {
        assert t[j] == (last, 1) && last !in init;
        FirstAtUnique(xs, last, |init|);
        assert xs[..|init|] == init;
      }
    }
  }

  /** Cutting a sequence short cuts each of its key groups short. */
  lemma {:induction false} WithKeyPrefix<T>(s: seq<T>, m: nat, k: int, key: T -> int)
    requires m <= |s|
    ensures WithKey(s[..m], k, key) <= WithKey(s, k, key)
    decreases |s|
  {
    if m < |s| {
      var init := s[..|s| - 1];
      assert init[..m] == s[..m];
      WithKeyPrefix(init, m, k, key);
    } else {
      assert s[..m] == s;
    }
  }

  /** A permutation of a tally with distinct keys has distinct keys. */
  lemma PermutedKeysDistinct<T>(t: seq<(T, nat)>, s: seq<(T, nat)>)
    requires DistinctKeys(t) && multiset(s) == multiset(t)
    ensures DistinctKeys(s)
  {
    forall i, j | 0 <= i < j < |s|
      ensures s[i].0 != s[j].0
    {
      assert s[i] in multiset(t) && s[j] in multiset(t);
      var a :| 0 <= a < |t| && t[a] == s[i];
      var b :| 0 <= b < |t| && t[b] == s[j];
      if s[i] == s[j] {
        assert s == s[..j] + s[j..];
        assert s[i] in s[..j] && s[j] in s[j..];
        assert multiset(s)[s[i]] >= 2;
        TallyOnce(t, a);
      }
    }
  }

  /** In a tally with distinct keys each entry occurs once. */
  lemma {:induction false} TallyOnce<T>(t: seq<(T, nat)>, a: nat)
    requires DistinctKeys(t) && a < |t|
    ensures multiset(t)[t[a]] == 1
  {
    if a == 0 {
      assert t == [t[0]] + t[1..];
      assert t[0] !in t[1..] by {
        forall m | 0 <= m < |t[1..]| ensures t[1..][m] != t[0] {
          assert t[1..][m].0 == t[m + 1].0;
        }
      }
    } else {
      var tail := t[1..];
      assert DistinctKeys(tail) by {
        assert forall i :: 0 <= i < |tail| ==> tail[i] == t[i + 1];
      }
      TallyOnce(tail, a - 1);
      assert t == [t[0]] + tail && t[0] != t[a];
    }
  }

  /** The ranking key of a tally entry: its count. */
  function Count<T>(e: (T, nat)): int
  {
    e.1 as int
  }

  /** The entries of a tally with count `c`, in order. */
  function CountGroup<T>(t: seq<(T, nat)>, c: int): seq<(T, nat)>
  {
    WithKey(t, c, Count)
  }

  /**
   * `Counter(xs).most_common(n)`: the min(n, distinct items) most frequent
   * items with their counts, each once, ties in `Counter`'s order.
   */
  function MostCommon<T(==,!new)>(xs: seq<T>, n: nat): (r: seq<(T, nat)>)
    ensures |r| == if n <= |Tally(xs)| then n else |Tally(xs)|
    ensures DistinctKeys(r)
    ensures SortedDesc(r, Count)
    ensures forall i :: 0 <= i < |r| ==> r[i].0 in xs && r[i].1 == multiset(xs)[r[i].0]
    ensures forall x :: x in xs && x !in Firsts(r) ==>
              forall j :: 0 <= j < |r| ==> multiset(xs)[x] <= r[j].1
    // Entries with equal counts keep their relative order in the tally.
    ensures forall c :: CountGroup(r, c) <= CountGroup(Tally(xs), c)
  {
    var t := Tally(xs);
    var s := SortDesc(t, Count);
    RankedTake(xs, t, s, n);
    Take(s, n)
  }

  /** The first `n` entries of the ranked tally. */
  lemma RankedTake<T(!new)>(xs: seq<T>, t: seq<(T, nat)>, s: seq<(T, nat)>, n: nat)
    requires t == Tally(xs) && multiset(s) == multiset(t) && SortedDesc(s, Count)
    requires forall c :: WithKey(s, c, Count) == WithKey(t, c, Count)
    ensures |Take(s, n)| == if n <= |t| then n else |t|
    ensures DistinctKeys(Take(s, n))
    ensures forall i :: 0 <= i < |Take(s, n)| ==> Take(s, n)[i].0 in xs && Take(s, n)[i].1 == multiset(xs)[Take(s, n)[i].0]
    ensures forall x :: x in xs && x !in Firsts(Take(s, n)) ==>
              forall j :: 0 <= j < |Take(s, n)| ==> multiset(xs)[x] <= Take(s, n)[j].1
    ensures forall c :: CountGroup(Take(s, n), c) <= CountGroup(t, c)
  {
    assert |s| == |t| by {
      assert |multiset(s)| == |multiset(t)|;
    }
    RankedPrefixEntries(xs, t, s, n);
    LeftOutAreRarer(xs, t, s, n);
    RankedPrefixGroups(t, s, n);
  }

  /** The kept entries are distinct tally entries of `xs`. */
  lemma RankedPrefixEntries<T(!new)>(xs: seq<T>, t: seq<(T, nat)>, s: seq<(T, nat)>, n: nat)
    requires t == Tally(xs) && multiset(s) == multiset(t)
    ensures DistinctKeys(Take(s, n))
    ensures forall i :: 0 <= i < |Take(s, n)| ==> Take(s, n)[i].0 in xs && Take(s, n)[i].1 == multiset(xs)[Take(s, n)[i].0]
  {
    RankedTallyEntries(xs, t, s);
    PermutedKeysDistinct(t, s);
    var r := Take(s, n);
    assert forall i :: 0 <= i < |r| ==> r[i] == s[i];
  }

  /** Taking a prefix of the stable ranking keeps each count group a prefix of the tally's. */
  lemma RankedPrefixGroups<T>(t: seq<(T, nat)>, s: seq<(T, nat)>, n: nat)
    requires forall c :: WithKey(s, c, Count) == WithKey(t, c, Count)
    ensures forall c :: CountGroup(Take(s, n), c) <= CountGroup(t, c)
  {
    var r := Take(s, n);
    forall c
      ensures CountGroup(r, c) <= CountGroup(t, c)
    {
      WithKeyPrefix(s, |r|, c, Count);
      assert s[..|r|] == r;
    }
  }

  /** Whatever `most_common(n)` leaves out is no more frequent than anything it keeps. */
  lemma LeftOutAreRarer<T(!new)>(xs: seq<T>, t: seq<(T, nat)>, s: seq<(T, nat)>, n: nat)
    requires t == Tally(xs) && multiset(s) == multiset(t)
    requires SortedDesc(s, Count)
    ensures forall x :: x in xs && x !in Firsts(Take(s, n)) ==>
              forall j :: 0 <= j < |Take(s, n)| ==> multiset(xs)[x] <= Take(s, n)[j].1
  {
    var r := Take(s, n);
    forall x, j | x in xs && x !in Firsts(r) && 0 <= j < |r|
      ensures multiset(xs)[x] <= r[j].1
    {
      var jt :| 0 <= jt < |t| && Firsts(t)[jt] == x;
      assert t[jt] in multiset(s);
      var i :| 0 <= i < |s| && s[i] == t[jt];
      assert i >= |r|;
      assert s[j].1 >= s[i].1;
    }
  }

  lemma RankedTallyEntries<T(!new)>(xs: seq<T>, t: seq<(T, nat)>, s: seq<(T, nat)>)
    requires t == Tally(xs) && multiset(s) == multiset(t)
    ensures forall i :: 0 <= i < |s| ==> s[i].0 in xs && s[i].1 == multiset(xs)[s[i].0]
  {
    forall i | 0 <= i < |s|
      ensures s[i].0 in xs && s[i].1 == multiset(xs)[s[i].0]
    {
      assert s[i] in multiset(t);
      var j :| 0 <= j < |t| && t[j] == s[i];
      assert Firsts(t)[j] == t[j].0;
    }
  }

  // ---------------------------------------------------------------------------
  // Ordering of strings

  /** Python's `a < b` on `str`: lexicographic by code point, a proper prefix first. */
  predicate StrLess(a: string, b: string)
  {
    if a == [] then b != []
    else if b == [] then false
    else if a[0] != b[0] then a[0] < b[0]
    else StrLess(a[1..], b[1..])
  }

  lemma {:induction false} StrLessIrreflexive(a: string)
    ensures !StrLess(a, a)
  {
    if a != [] {
      StrLessIrreflexive(a[1..]);
    }
  }

  lemma {:induction false} StrLessTransitive(a: string, b: string, c: string)
    requires StrLess(a, b) && StrLess(b, c)
    ensures StrLess(a, c)
  {
    if a != [] && b != [] && c != [] && a[0] == b[0] && b[0] == c[0] {
      StrLessTransitive(a[1..], b[1..], c[1..]);
    }
  }

  lemma {:induction false} StrLessTotal(a: string, b: string)
    ensures a == b || StrLess(a, b) || StrLess(b, a)
  {
    if a != [] && b != [] && a[0] == b[0] {
      StrLessTotal(a[1..], b[1..]);
      if a[1..] == b[1..] {
        assert a == [a[0]] + a[1..] && b == [b[0]] + b[1..];
      }
    }
  }

  ghost predicate StrictlyAscending(s: seq<string>)
  {
    forall i, j :: 0 <= i < j < |s| ==> StrLess(s[i], s[j])
  }

  /** Inserts `x` into a strictly ascending list unless it is already there. */
  function InsertAscending(ys: seq<string>, x: string): (r: seq<string>)
    requires StrictlyAscending(ys)
    ensures StrictlyAscending(r)
    ensures forall z :: z in r <==> z in ys || z == x
  {
    if ys == [] then [x]
    else if ys[0] == x then ys
    else if StrLess(x, ys[0]) then
      forall j | 0 <= j < |ys|
        ensures StrLess(x, ys[j])
      {
        if j > 0 {
          StrLessTransitive(x, ys[0], ys[j]);
        }
      }
      [x] + ys
    else
      StrLessTotal(x, ys[0]);
      var rest := InsertAscending(ys[1..], x);
      assert forall z :: z in rest ==> StrLess(ys[0], z);
      [ys[0]] + rest
  }

  /** `sorted(set(xs))` for a list of strings. */
  function SortedSet(xs: seq<string>): (r: seq<string>)
    ensures StrictlyAscending(r)
    ensures forall z :: z in r <==> z in xs
  {
    if xs == [] then []
    else
      assert xs == xs[..|xs| - 1] + [xs[|xs| - 1]];
      InsertAscending(SortedSet(xs[..|xs| - 1]), xs[|xs| - 1])
  }

  /** Two lists with the same members are empty together. */
  lemma SameMembersEmpty(a: seq<string>, b: seq<string>)
    requires forall z :: z in a <==> z in b
    ensures a == [] <==> b == []
  {
    if a != [] {
      assert a[0] in b;
    }
    if b != [] {
      assert b[0] in a;
    }
  }

  /** A finite set of strings has exactly one strictly ascending listing. */
  lemma {:induction false} AscendingUnique(a: seq<string>, b: seq<string>)
    requires StrictlyAscending(a) && StrictlyAscending(b)
    requires forall z :: z in a <==> z in b
    ensures a == b
  {
    SameMembersEmpty(a, b);
    if a != [] {
      assert a[0] in b;
      var k :| 0 <= k < |b| && b[k] == a[0];
      if k > 0 {
        assert b[0] in a;
        var m :| 0 <= m < |a| && a[m] == b[0];
        StrLessIrreflexive(a[0]);
        assert m != 0;
        StrLessTransitive(a[0], a[m], a[0]);
        assert false;
      }
      forall z
        ensures z in a[1..] <==> z in b[1..]
      {
        StrLessIrreflexive(z);
        if z in a[1..] {
          var i :| 1 <= i < |a| && a[i] == z;
          assert z != b[0] && z in b;
          var j :| 0 <= j < |b| && b[j] == z;
          assert b[1..][j - 1] == z;
        }
        if z in b[1..] {
          var i :| 1 <= i < |b| && b[i] == z;
          assert z != a[0] && z in a;
          var j :| 0 <= j < |a| && a[j] == z;
          assert a[1..][j - 1] == z;
        }
      }
      AscendingUnique(a[1..], b[1..]);
      assert a == [a[0]] + a[1..] && b == [b[0]] + b[1..];
    }
  }
}
