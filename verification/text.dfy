/**
 * String primitives shared by the analysers: Python's whitespace class,
 * `strip`, ASCII lower-casing, substring search and counting.
 */
module Text {
  import opened PyBase

  /** The characters for which Python's `str.isspace` (and the regex class `\s`) holds. */
  predicate IsSpace(c: char)
  {
    || ('\U{9}' <= c <= '\U{D}')
    || ('\U{1C}' <= c <= '\U{20}')
    || c == '\U{85}' || c == '\U{A0}' || c == '\U{1680}'
    || ('\U{2000}' <= c <= '\U{200A}')
    || c == '\U{2028}' || c == '\U{2029}' || c == '\U{202F}' || c == '\U{205F}' || c == '\U{3000}'
  }

  /** Drops leading characters while `drop` holds. */
  function TrimLeft(s: string, drop: char -> bool): (r: string)
    ensures |r| <= |s| && r == s[|s| - |r|..]
    ensures r == [] || !drop(r[0])
    ensures forall i :: 0 <= i < |s| - |r| ==> drop(s[i])
  {
    if s == [] || !drop(s[0]) then s else TrimLeft(s[1..], drop)
  }

  /** Drops trailing characters while `drop` holds. */
  function TrimRight(s: string, drop: char -> bool): (r: string)
    ensures |r| <= |s| && r == s[..|r|]
    ensures r == [] || !drop(r[|r| - 1])
    ensures forall i :: |r| <= i < |s| ==> drop(s[i])
  {
    if s == [] || !drop(s[|s| - 1]) then s else TrimRight(s[..|s| - 1], drop)
  }

  /** Python's `s.strip()`. */
  function Strip(s: string): (r: string)
    ensures r == [] || (!IsSpace(r[0]) && !IsSpace(r[|r| - 1]))
    ensures |r| <= |s|
  {
    TrimRight(TrimLeft(s, IsSpace), IsSpace)
  }

  /** A string without whitespace at either end is its own `strip()`. */
  lemma StripUnchanged(s: string)
    requires s == [] || (!IsSpace(s[0]) && !IsSpace(s[|s| - 1]))
    ensures Strip(s) == s
  {
    assert TrimLeft(s, IsSpace) == s;
  }

  /** Python's `s.strip(c)` for a single character. */
  function StripChar(s: string, c: char): (r: string)
    ensures r == [] || (r[0] != c && r[|r| - 1] != c)
    ensures |r| <= |s|
  {
    TrimRight(TrimLeft(s, x => x == c), x => x == c)
  }

  /**
   * `str.lower` on one character, as far as the analysers can observe it: they
   * only ever search lowered text for ASCII needles. ASCII capitals and the Kelvin
   * sign lower to ASCII letters; every other character keeps an image that no
   * ASCII needle can match, so it is left as it is.
   */
  function LowerChar(c: char): (r: char)
    ensures 'A' <= c <= 'Z' ==> r == (c as int + 32) as char
    ensures c == '\U{212A}' ==> r == 'k'
    ensures !('A' <= c <= 'Z') && c != '\U{212A}' ==> r == c
  {
    if 'A' <= c <= 'Z' then (c as int + 32) as char
    else if c == '\U{212A}' then 'k'
    else c
  }

  /**
   * The case folding a regular expression compiled with `re.I` applies before it
   * compares a character with a lower-case pattern character that is an ASCII or a
   * basic Cyrillic letter: the simple lower-case mapping (ASCII and Cyrillic capitals,
   * the Kelvin sign, the dotted capital I), plus the characters the regular expression
   * engine treats as equivalent to such a letter (dotless i, long s, and the historic
   * Cyrillic letter variants U+1C80..U+1C86).
   */
  function FoldChar(c: char): (r: char)
    ensures c in "\U{130}\U{131}" ==> r == 'i'
    ensures c == '\U{17F}' ==> r == 's'
    ensures '\U{410}' <= c <= '\U{42F}' ==> r == (c as int + 32) as char
    ensures c in "\U{1C80}\U{1C81}\U{1C82}\U{1C83}\U{1C84}\U{1C85}\U{1C86}" ==> r in "\U{432}\U{434}\U{43E}\U{441}\U{442}\U{44A}"
    ensures c !in "\U{130}\U{131}\U{17F}" && !('\U{410}' <= c <= '\U{42F}') && !('\U{1C80}' <= c <= '\U{1C86}')
            ==> r == LowerChar(c)
  {
    if c == '\U{130}' || c == '\U{131}' then 'i'
    else if c == '\U{17F}' then 's'
    else if '\U{410}' <= c <= '\U{42F}' then (c as int + 32) as char
    else if '\U{1C80}' <= c <= '\U{1C86}' then CyrillicVariant(c)
    else LowerChar(c)
  }

  /** The basic Cyrillic letter each historic variant letter is matched as. */
  function CyrillicVariant(c: char): (r: char)
    requires '\U{1C80}' <= c <= '\U{1C86}'
  {
    match c
    case '\U{1C80}' => '\U{432}'
    case '\U{1C81}' => '\U{434}'
    case '\U{1C82}' => '\U{43E}'
    case '\U{1C83}' => '\U{441}'
    case '\U{1C84}' => '\U{442}'
    case '\U{1C85}' => '\U{442}'
    case _ => '\U{44A}'
  }

  function Fold(s: string): (r: string)
    ensures |r| == |s|
    ensures forall i :: 0 <= i < |s| ==> r[i] == FoldChar(s[i])
  {
    if s == [] then [] else [FoldChar(s[0])] + Fold(s[1..])
  }

  function Lower(s: string): (r: string)
    ensures |r| == |s|
    ensures forall i :: 0 <= i < |s| ==> r[i] == LowerChar(s[i])
  {
    if s == [] then [] else [LowerChar(s[0])] + Lower(s[1..])
  }

  /** Lower-casing twice is lower-casing once. */
  lemma {:induction false} LowerIdempotent(s: string)
    ensures Lower(Lower(s)) == Lower(s)
  {
    assert forall i :: 0 <= i < |s| ==> LowerChar(LowerChar(s[i])) == LowerChar(s[i]);
  }

  predicate StartsWith(s: string, prefix: string)
  {
    |prefix| <= |s| && s[..|prefix|] == prefix
  }

  /** `s.find(c)` for one character, with `None` for `-1`. */
  function IndexOf(s: string, c: char): (r: Option<nat>)
    ensures r.None? <==> c !in s
    ensures r.Some? ==> r.value < |s| && s[r.value] == c && c !in s[..r.value]
  {
    if s == [] then None
    else if s[0] == c then Some(0)
    else match IndexOf(s[1..], c)
      case None => None
      case Some(i) =>
        assert s[..i + 1] == [s[0]] + s[1..][..i];
        Some(i + 1)
  }

  /** The first occurrence is found where `c` occurs and no earlier position holds it. */
  lemma {:induction false} IndexOfAt(s: string, c: char, i: nat)
    requires i < |s| && s[i] == c && c !in s[..i]
    ensures IndexOf(s, c) == Some(i)
  {
    if i > 0 {
      assert s[0] in s[..i];
      assert s[1..][..i - 1] == s[..i][1..];
      IndexOfAt(s[1..], c, i - 1);
    }
  }

  /** `sub in s` for Python strings. */
  predicate Contains(s: string, sub: string)
    decreases |s|
  {
    |sub| <= |s| && (s[..|sub|] == sub || Contains(s[1..], sub))
  }

  /** `sub` occurs in `s` at position `i`. */
  ghost predicate OccursAt(s: string, sub: string, i: int)
  {
    0 <= i && i + |sub| <= |s| && s[i..i + |sub|] == sub
  }

  /** The scanning definition of `Contains` agrees with "occurs at some position". */
  lemma {:induction false} ContainsIff(s: string, sub: string)
    ensures Contains(s, sub) <==> exists i :: OccursAt(s, sub, i)
    decreases |s|
  {
    if |sub| <= |s| && s[..|sub|] != sub {
      ContainsIff(s[1..], sub);
      if Contains(s[1..], sub) {
        var j :| OccursAt(s[1..], sub, j);
        assert s[j + 1..j + 1 + |sub|] == s[1..][j..j + |sub|];
        assert OccursAt(s, sub, j + 1);
      }
      if i :| OccursAt(s, sub, i) {
        assert i != 0;
        assert s[1..][i - 1..i - 1 + |sub|] == s[i..i + |sub|];
        assert OccursAt(s[1..], sub, i - 1);
      }
    } else if |sub| <= |s| {
      assert OccursAt(s, sub, 0);
    }
  }

  lemma OccursAtWitness(s: string, sub: string, i: int)
    requires OccursAt(s, sub, i)
    ensures Contains(s, sub)
  {
    ContainsIff(s, sub);
  }

  /** Containment is transitive: whatever occurs in a substring occurs in the whole. */
  lemma {:induction false} ContainsTransitive(s: string, mid: string, sub: string)
    requires Contains(s, mid) && Contains(mid, sub)
    ensures Contains(s, sub)
  {
    ContainsIff(s, mid);
    ContainsIff(mid, sub);
    var i :| OccursAt(s, mid, i);
    var j :| OccursAt(mid, sub, j);
    assert mid == s[i..i + |mid|];
    var inS, inMid := s[i + j..i + j + |sub|], mid[j..j + |sub|];
    forall k | 0 <= k < |sub|
      ensures inS[k] == inMid[k]
    {
      assert mid[j + k] == s[i..i + |mid|][j + k];
    }
    assert inS == inMid;
    OccursAtWitness(s, sub, i + j);
  }

  /** The number of non-overlapping occurrences of a non-empty `sub`, scanning left to right. */
  function CountOccurrences(s: string, sub: string): (n: nat)
    requires sub != []
    ensures n > 0 <==> Contains(s, sub)
    decreases |s|
  {
    if |s| < |sub| then 0
    else if s[..|sub|] == sub then 1 + CountOccurrences(s[|sub|..], sub)
    else CountOccurrences(s[1..], sub)
  }

  /** Joins `parts` with `sep` between consecutive items. */
  function Join(sep: string, parts: seq<string>): string
  {
    if parts == [] then []
    else if |parts| == 1 then parts[0]
    else parts[0] + sep + Join(sep, parts[1..])
  }

  /** Replaces every occurrence of character `a` by `b`. */
  function ReplaceChar(s: string, a: char, b: char): (r: string)
    ensures |r| == |s|
    ensures forall i :: 0 <= i < |s| ==> r[i] == (if s[i] == a then b else s[i])
  {
    if s == [] then [] else [if s[0] == a then b else s[0]] + ReplaceChar(s[1..], a, b)
  }

  // ---------------------------------------------------------------------------
  // Decimal rendering of integers

  predicate IsDigit(c: char)
  {
    '0' <= c <= '9'
  }

  function DigitChar(d: int): (c: char)
    requires 0 <= d < 10
    ensures IsDigit(c) && c as int - '0' as int == d
  {
    ('0' as int + d) as char
  }

  /** The number a string of decimal digits denotes. */
  function DigitsValue(s: string): nat
    requires forall i :: 0 <= i < |s| ==> IsDigit(s[i])
  {
    if s == [] then 0
    else
      assert IsDigit(s[|s| - 1]);
      DigitsValue(s[..|s| - 1]) * 10 + (s[|s| - 1] as int - '0' as int)
  }

  /** `str(n)` for a natural number: its digits, without leading zeros. */
  function NatStr(n: nat): (s: string)
    ensures 1 <= |s|
    ensures forall i :: 0 <= i < |s| ==> IsDigit(s[i])
    ensures |s| > 1 ==> s[0] != '0'
    ensures DigitsValue(s) == n
    decreases n
  {
    if n < 10 then [DigitChar(n)]
    else
      var init := NatStr(n / 10);
      var s := init + [DigitChar(n % 10)];
      assert s[..|s| - 1] == init;
      s
  }

  /** `str(i)` for any integer: a minus sign before the digits of a negative number. */
  function IntStr(i: int): (s: string)
    ensures i >= 0 ==> s == NatStr(i)
    ensures i < 0 ==> s == "-" + NatStr(-i)
  {
    if i < 0 then "-" + NatStr(-i) else NatStr(i)
  }

  // ---------------------------------------------------------------------------
  // Splitting

  /** `s.split(c)`: the pieces between occurrences of `c`, always at least one. */
  function SplitOn(s: string, c: char): (parts: seq<string>)
    ensures |parts| >= 1
    ensures forall k :: 0 <= k < |parts| ==> c !in parts[k]
    decreases |s|
  {
    var i := IndexOf(s, c);
    if i.None? then [s] else [s[..i.value]] + SplitOn(s[i.value + 1..], c)
  }

  /** Splitting and joining with the same separator give back the string. */
  lemma {:induction false} SplitOnJoin(s: string, c: char)
    ensures Join([c], SplitOn(s, c)) == s
    decreases |s|
  {
    var i := IndexOf(s, c);
    if i.Some? {
      var k := i.value;
      var rest := SplitOn(s[k + 1..], c);
      SplitOnJoin(s[k + 1..], c);
      assert SplitOn(s, c) == [s[..k]] + rest;
      JoinCons([c], s[..k], rest);
      SplitAround(s, k);
    }
  }

  /** Joining a list of two or more pieces puts the separator after the first. */
  lemma JoinCons(sep: string, first: string, rest: seq<string>)
    requires rest != []
    ensures Join(sep, [first] + rest) == first + sep + Join(sep, rest)
  {
    assert ([first] + rest)[1..] == rest;
  }

  /** A string is the part before position `k`, the character there, and the part after. */
  lemma SplitAround(s: string, k: nat)
    requires k < |s|
    ensures s == s[..k] + [s[k]] + s[k + 1..]
  {
    assert s[..k] + [s[k]] + s[k + 1..] == s[..k] + s[k..];
  }

  /** Joining pieces free of the separator and splitting again gives back the pieces. */
  lemma {:induction false} JoinSplitOn(parts: seq<string>, c: char)
    requires |parts| >= 1
    requires forall k :: 0 <= k < |parts| ==> c !in parts[k]
    ensures SplitOn(Join([c], parts), c) == parts
    decreases |parts|
  {
    if |parts| == 1 {
      assert IndexOf(Join([c], parts), c) == None;
    } else {
      var head := parts[0];
      var tail := Join([c], parts[1..]);
      JoinCons([c], head, parts[1..]);
      assert parts == [head] + parts[1..];
      SplitOnCons(head, c, tail);
      JoinSplitOn(parts[1..], c);
    }
  }

  /** A piece free of `c` followed by `c` splits off as the first part. */
  lemma SplitOnCons(head: string, c: char, tail: string)
    requires c !in head
    ensures SplitOn(head + [c] + tail, c) == [head] + SplitOn(tail, c)
  {
    var s := head + [c] + tail;
    assert s[..|head|] == head;
    IndexOfAt(s, c, |head|);
    assert s[|head| + 1..] == tail;
  }

  /** The pieces glued together without separators. */
  function Concat(parts: seq<string>): string
  {
    if parts == [] then [] else parts[0] + Concat(parts[1..])
  }

  /** `s.replace(c, '')`. */
  function RemoveChar(s: string, c: char): (r: string)
    ensures c !in r
    ensures |r| <= |s|
  {
    if s == [] then [] else (if s[0] == c then [] else [s[0]]) + RemoveChar(s[1..], c)
  }

  /** `RemoveChar` distributes over concatenation. */
  /** Removing `c` keeps every other character. */
  lemma {:induction false} RemoveCharKeeps(s: string, c: char, d: char)
    requires d != c && d in s
    ensures d in RemoveChar(s, c)
  {
    if s[0] != d {
      RemoveCharKeeps(s[1..], c, d);
    }
  }

  lemma {:induction false} RemoveCharAppend(a: string, b: string, c: char)
    ensures RemoveChar(a + b, c) == RemoveChar(a, c) + RemoveChar(b, c)
  {
    if a == [] {
      assert a + b == b;
    } else {
      var h := if a[0] == c then [] else [a[0]];
      assert (a + b)[0] == a[0] && (a + b)[1..] == a[1..] + b;
      assert RemoveChar(a + b, c) == h + RemoveChar(a[1..] + b, c);
      assert RemoveChar(a, c) == h + RemoveChar(a[1..], c);
      RemoveCharAppend(a[1..], b, c);
      assert h + (RemoveChar(a[1..], c) + RemoveChar(b, c)) == (h + RemoveChar(a[1..], c)) + RemoveChar(b, c);
    }
  }

  /** A string without `c` is unchanged by removing `c`. */
  lemma {:induction false} RemoveCharAbsent(s: string, c: char)
    requires c !in s
    ensures RemoveChar(s, c) == s
  {
    if s != [] {
      RemoveCharAbsent(s[1..], c);
    }
  }

  /** Removing the separator from a join of separator-free pieces concatenates them. */
  lemma {:induction false} RemoveSeparator(parts: seq<string>, c: char)
    requires forall k :: 0 <= k < |parts| ==> c !in parts[k]
    ensures RemoveChar(Join([c], parts), c) == Concat(parts)
    decreases |parts|
  {
    if |parts| == 1 {
      RemoveCharAbsent(parts[0], c);
      assert Concat(parts[1..]) == [];
      assert parts[0] + [] == parts[0];
    } else if |parts| > 1 {
      var tail := Join([c], parts[1..]);
      assert Join([c], parts) == parts[0] + [c] + tail;
      RemoveSeparator(parts[1..], c);
      RemoveCharAppend(parts[0] + [c], tail, c);
      RemoveCharAppend(parts[0], [c], c);
      RemoveCharAbsent(parts[0], c);
      assert RemoveChar([c], c) == [];
      assert RemoveChar(parts[0] + [c], c) == parts[0];
      assert Concat(parts) == parts[0] + Concat(parts[1..]);
    }
  }

  /** The first piece of `s.split(c)`: everything before the first `c`. */
  function Before(s: string, c: char): (r: string)
    ensures r <= s && c !in r
    ensures |r| < |s| ==> s[|r|] == c
  {
    var i := IndexOf(s, c);
    if i.None? then s else s[..i.value]
  }
}
