/**
 * The string utilities of the analyser: `clean_text`, `format_number`,
 * `safe_filename` and `get_file_extension`.
 */
module TextUtils {
  import opened PyBase
  import opened Text

  // ---------------------------------------------------------------------------
  // Whitespace collapsing

  /** `re.sub(r'\s+', ' ', s)`: every maximal run of whitespace becomes one space. */
  function CollapseSpaces(s: string): (r: string)
    ensures CollapseShape(s, r)
    decreases |s|
  {
    if s == [] then []
    else if IsSpace(s[0]) then
      var rest := TrimLeft(s, IsSpace);
      assert rest != s;
      var c := CollapseSpaces(rest);
      assert rest == [] ==> IsSpace(s[|s| - 1]);
      assert rest != [] ==> rest[|rest| - 1] == s[|s| - 1];
      SpaceStep(s, rest, c);
      [' '] + c
    else
      var c := CollapseSpaces(s[1..]);
      CharStep(s, c);
      [s[0]] + c
  }

  /**
   * `r` is a collapsed form of `s`: no longer, empty together, its only
   * whitespace single spaces, and starting and ending with a space exactly
   * when `s` starts and ends with whitespace.
   */
  ghost predicate CollapseShape(s: string, r: string)
  {
    && |r| <= |s|
    && (r == [] <==> s == [])
    && (forall i :: 0 <= i < |r| && IsSpace(r[i]) ==> r[i] == ' ')
    && NoDoubleSpace(r)
    && (r != [] ==> (r[0] == ' ' <==> IsSpace(s[0])))
    && (r != [] ==> (r[|r| - 1] == ' ' <==> IsSpace(s[|s| - 1])))
  }

  /** A run of leading whitespace becomes one space before the collapsed rest. */
  lemma SpaceStep(s: string, rest: string, c: string)
    requires s != [] && IsSpace(s[0]) && |rest| < |s|
    requires rest == [] ==> IsSpace(s[|s| - 1])
    requires rest != [] ==> !IsSpace(rest[0]) && rest[|rest| - 1] == s[|s| - 1]
    requires CollapseShape(rest, c)
    ensures CollapseShape(s, [' '] + c)
  {
    var r := [' '] + c;
    if c != [] {
      assert c[0] != ' ';
      assert r[|r| - 1] == c[|c| - 1];
    }
    NoDoubleSpaceCons(' ', c);
    forall i | 0 <= i < |r| && IsSpace(r[i])
      ensures r[i] == ' '
    {
      if i > 0 {
        assert r[i] == c[i - 1];
      }
    }
  }

  /** Any other character is kept before the collapsed rest. */
  lemma CharStep(s: string, c: string)
    requires s != [] && !IsSpace(s[0]) && CollapseShape(s[1..], c)
    ensures CollapseShape(s, [s[0]] + c)
  {
    NoDoubleSpaceCons(s[0], c);
    var r := [s[0]] + c;
    assert forall i :: 1 <= i < |r| ==> r[i] == c[i - 1];
  }

  lemma NoDoubleSpaceCons(x: char, c: string)
    requires NoDoubleSpace(c) && (c == [] || x != ' ' || c[0] != ' ')
    ensures NoDoubleSpace([x] + c)
  {
    var r := [x] + c;
    forall i, j | 0 <= i < j < |r| && j == i + 1 && r[i] == ' '
      ensures r[j] != ' '
    {
      if i > 0 {
        assert r[i] == c[i - 1] && r[j] == c[j - 1];
      }
    }
  }

  /** No space is directly followed by another. */
  ghost predicate NoDoubleSpace(s: string)
  {
    forall i, j :: 0 <= i < j < |s| && j == i + 1 && s[i] == ' ' ==> s[j] != ' '
  }

  /** The characters other than whitespace, in order. */
  function NonSpace(s: string): (r: string)
    ensures forall i :: 0 <= i < |r| ==> !IsSpace(r[i])
  {
    if s == [] then [] else (if IsSpace(s[0]) then [] else [s[0]]) + NonSpace(s[1..])
  }

  lemma {:induction false} NonSpaceSpacePrefix(s: string, k: nat)
    requires k <= |s|
    requires forall i :: 0 <= i < k ==> IsSpace(s[i])
    ensures NonSpace(s) == NonSpace(s[k..])
    decreases k
  {
    if k > 0 {
      NonSpaceSpacePrefix(s[1..], k - 1);
      assert s[1..][k - 1..] == s[k..];
    }
  }

  /** Collapsing keeps every character that is not whitespace, in order. */
  lemma {:induction false} CollapseKeepsText(s: string)
    ensures NonSpace(CollapseSpaces(s)) == NonSpace(s)
    decreases |s|
  {
    if s != [] {
      if IsSpace(s[0]) {
        var rest := TrimLeft(s, IsSpace);
        CollapseKeepsText(rest);
        NonSpaceSpacePrefix(s, |s| - |rest|);
        assert ([' '] + CollapseSpaces(rest))[1..] == CollapseSpaces(rest);
      } else {
        CollapseKeepsText(s[1..]);
        assert ([s[0]] + CollapseSpaces(s[1..]))[1..] == CollapseSpaces(s[1..]);
      }
    }
  }

  /** The only whitespace is single spaces. */
  ghost predicate Collapsed(s: string)
  {
    && (forall i :: 0 <= i < |s| && IsSpace(s[i]) ==> s[i] == ' ')
    && NoDoubleSpace(s)
  }

  /** A string that is already collapsed is left as it is. */
  lemma {:induction false} CollapseFixedPoint(s: string)
    requires Collapsed(s)
    ensures CollapseSpaces(s) == s
    decreases |s|
  {
    if s != [] {
      CollapsedTail(s);
      CollapseFixedPoint(s[1..]);
      if IsSpace(s[0]) {
        TrimSingleSpace(s);
        assert CollapseSpaces(s) == [' '] + CollapseSpaces(s[1..]);
        assert s == [' '] + s[1..];
      } else {
        assert CollapseSpaces(s) == [s[0]] + CollapseSpaces(s[1..]);
        assert s == [s[0]] + s[1..];
      }
    }
  }

  lemma CollapsedTail(s: string)
    requires s != [] && Collapsed(s)
    ensures Collapsed(s[1..])
  {
    assert forall i :: 0 <= i < |s[1..]| ==> s[1..][i] == s[i + 1];
  }

  /** In a collapsed string a leading space stands alone, so trimming drops just it. */
  lemma TrimSingleSpace(s: string)
    requires s != [] && Collapsed(s) && IsSpace(s[0])
    ensures s[0] == ' ' && TrimLeft(s, IsSpace) == s[1..]
  {
    if |s| > 1 {
      assert s[0] == ' ' && s[1] != ' ';
      assert !IsSpace(s[1]);
    }
  }

  /** Collapsing twice is collapsing once. */
  lemma CollapseIdempotent(s: string)
    ensures CollapseSpaces(CollapseSpaces(s)) == CollapseSpaces(s)
  {
    CollapseFixedPoint(CollapseSpaces(s));
  }

  // ---------------------------------------------------------------------------
  // clean_text

  /** `re.sub(r'\s+', ' ', text.strip())`. */
  function Cleaned(text: string): (r: string)
    ensures Collapsed(r)
    ensures r == [] || (!IsSpace(r[0]) && !IsSpace(r[|r| - 1]))
  {
    CollapseSpaces(Strip(text))
  }

  /** Cleaning only drops and merges whitespace: the other characters stay, in order. */
  lemma CleanedKeepsText(text: string)
    ensures NonSpace(Cleaned(text)) == NonSpace(text)
  {
    CollapseKeepsText(Strip(text));
    StripKeepsText(text);
  }

  lemma {:induction false} NonSpaceSpaceSuffix(s: string, k: nat)
    requires k <= |s|
    requires forall i :: k <= i < |s| ==> IsSpace(s[i])
    ensures NonSpace(s) == NonSpace(s[..k])
    decreases |s|
  {
    if s != [] {
      if k == 0 {
        NonSpaceSpacePrefix(s, |s|);
        assert s[|s|..] == [] && s[..0] == [];
      } else {
        NonSpaceSpaceSuffix(s[1..], k - 1);
        assert s[1..][..k - 1] == s[..k][1..];
      }
    }
  }

  /** Stripping only drops whitespace. */
  lemma StripKeepsText(s: string)
    ensures NonSpace(Strip(s)) == NonSpace(s)
  {
    var l := TrimLeft(s, IsSpace);
    NonSpaceSpacePrefix(s, |s| - |l|);
    NonSpaceSpaceSuffix(l, |TrimRight(l, IsSpace)|);
  }

  /**
   * The cut `clean_text` applies to the cleaned text `t`: a truthy limit below
   * the length keeps `t[:max_length-3]` and appends `...`. A limit of `0` is
   * falsy and imposes nothing; a negative limit is truthy and, since every
   * length exceeds it, always cuts.
   */
  function Truncate(t: string, maxLength: Option<int>): (r: string)
    ensures maxLength.None? || maxLength.value == 0 || |t| <= maxLength.value ==> r == t
    ensures maxLength.Some? && 3 <= maxLength.value < |t| ==>
      && |r| == maxLength.value
      && r[..maxLength.value - 3] == t[..maxLength.value - 3]
      && r[maxLength.value - 3..] == "..."
    ensures maxLength.Some? && 1 <= maxLength.value <= 2 && maxLength.value < |t| ==> |r| == |t| + maxLength.value
    // Either nothing is cut, or a prefix of `t` is followed by the ellipsis.
    ensures r == t || (|r| >= 3 && r[..|r| - 3] <= t && r[|r| - 3..] == "...")
  {
    if maxLength.Some? && maxLength.value != 0 && |t| > maxLength.value then
      var r := SliceTo(t, maxLength.value - 3) + "...";
      assert r[|r| - 3..] == "...";
      assert r[..|r| - 3] == SliceTo(t, maxLength.value - 3);
      r
    else t
  }

  /** `clean_text(text, max_length)`, with `None` for the default `max_length=None`. */
  function CleanText(text: string, maxLength: Option<int>): (r: string)
    ensures text == [] ==> r == []
    ensures maxLength.None? ==> r == Cleaned(text)
    ensures maxLength.Some? && (maxLength.value == 0 || |Cleaned(text)| <= maxLength.value) ==> r == Cleaned(text)
  {
    if text == [] then [] else Truncate(Cleaned(text), maxLength)
  }

  /**
   * A limit of at least 3 below the cleaned text's length gives exactly that
   * many characters: a prefix of the cleaned text and then `...`.
   */
  lemma CleanTextWithinLimit(text: string, m: int)
    requires 3 <= m < |Cleaned(text)|
    ensures |CleanText(text, Some(m))| == m
    ensures CleanText(text, Some(m)) == Cleaned(text)[..m - 3] + "..."
  {
    var r := CleanText(text, Some(m));
    assert r == r[..m - 3] + r[m - 3..];
  }

  /** As written, a limit of 1 or 2 below the cleaned text's length gives a result longer than the limit. */
  lemma CleanTextOverrunsSmallLimit(text: string, m: int)
    requires 1 <= m <= 2 && |Cleaned(text)| > m
    ensures |CleanText(text, Some(m))| == |Cleaned(text)| + m > m
  {
    assert text != [];
    assert CleanText(text, Some(m)) == Truncate(Cleaned(text), Some(m));
  }

  /** A text without whitespace is its own cleaned form. */
  lemma {:induction false} CleanedWithoutSpace(s: string)
    requires forall i :: 0 <= i < |s| ==> !IsSpace(s[i])
    ensures Cleaned(s) == s
  {
    assert TrimLeft(s, IsSpace) == s;
    assert TrimRight(s, IsSpace) == s;
    CollapseFixedPoint(s);
  }

  /**
   * Any six characters without whitespace, `"abcdef"` say, with a limit of 1
   * come back as their first four and `...`: seven characters.
   */
  lemma CleanTextOverrunExample(text: string)
    requires |text| == 6 && forall i :: 0 <= i < 6 ==> !IsSpace(text[i])
    ensures CleanText(text, Some(1)) == text[..4] + "..."
  {
    calc {
      CleanText(text, Some(1));
      Truncate(Cleaned(text), Some(1));
      { CleanedWithoutSpace(text); }
      Truncate(text, Some(1));
      { assert SliceTo(text, -2) == text[..4]; }
      text[..4] + "...";
    }
  }

  /**
   * `clean_text` as evidently intended: a positive limit bounds the length of the
   * result, also below 3, where the cleaned text is cut without an ellipsis.
   */
  function CleanTextBounded(text: string, maxLength: Option<int>): (r: string)
    ensures maxLength.Some? && maxLength.value > 0 ==> |r| <= maxLength.value
    ensures r <= Cleaned(text) || (|r| >= 3 && r[..|r| - 3] <= Cleaned(text) && r[|r| - 3..] == "...")
  {
    if text == [] then [] else CutBounded(Cleaned(text), maxLength)
  }

  /** The corrected cut of a cleaned text `t`: below 3 it keeps a prefix, otherwise it is the written cut. */
  function CutBounded(t: string, maxLength: Option<int>): (r: string)
    ensures maxLength.Some? && maxLength.value > 0 ==> |r| <= maxLength.value
    ensures r <= t || (|r| >= 3 && r[..|r| - 3] <= t && r[|r| - 3..] == "...")
  {
    if maxLength.Some? && 0 < maxLength.value < 3 && |t| > maxLength.value then t[..maxLength.value]
    else Truncate(t, maxLength)
  }

  /** The corrected cut differs from the written one only for a limit of 1 or 2. */
  lemma CleanTextBoundedAgrees(text: string, maxLength: Option<int>)
    requires maxLength.None? || !(1 <= maxLength.value <= 2)
    ensures CleanTextBounded(text, maxLength) == CleanText(text, maxLength)
  {
  }

  // ---------------------------------------------------------------------------
  // format_number

  predicate AllDigits(s: string)
  {
    forall i :: 0 <= i < |s| ==> IsDigit(s[i])
  }

  /** Cuts a string whose length is a multiple of 3 into pieces of 3. */
  function Chunks3(d: string): (parts: seq<string>)
    requires |d| % 3 == 0 && AllDigits(d)
    ensures forall k :: 0 <= k < |parts| ==> |parts[k]| == 3 && AllDigits(parts[k])
    ensures Concat(parts) == d
    decreases |d|
  {
    if d == [] then []
    else
      var parts := [d[..3]] + Chunks3(d[3..]);
      assert parts[1..] == Chunks3(d[3..]);
      assert d == d[..3] + d[3..];
      parts
  }

  /** The thousands groups of a digit string: 1 to 3 digits first, exactly 3 in each later group. */
  function DigitGroups(d: string): (parts: seq<string>)
    requires d != [] && AllDigits(d)
    ensures |parts| >= 1 && 1 <= |parts[0]| <= 3
    ensures forall k :: 0 <= k < |parts| ==> AllDigits(parts[k])
    ensures forall k :: 1 <= k < |parts| ==> |parts[k]| == 3
    ensures Concat(parts) == d
  {
    var k := if |d| % 3 == 0 then 3 else |d| % 3;
    var parts := [d[..k]] + Chunks3(d[k..]);
    assert parts[1..] == Chunks3(d[k..]);
    assert d == d[..k] + d[k..];
    parts
  }

  /** The sign `f"{n:,}"` writes: `-` for a negative number. */
  function Sign(n: int): string
  {
    if n < 0 then "-" else ""
  }

  lemma DigitsHaveNoSpace(groups: seq<string>)
    requires forall k :: 0 <= k < |groups| ==> AllDigits(groups[k])
    ensures forall k :: 0 <= k < |groups| ==> ' ' !in groups[k]
  {
    forall k | 0 <= k < |groups|
      ensures ' ' !in groups[k]
    {
      assert forall i :: 0 <= i < |groups[k]| ==> groups[k][i] != ' ';
    }
  }

  /** The groups `f"{n:,}"` writes between its commas; the sign joins the first one. */
  function SignedGroups(n: int): (parts: seq<string>)
    ensures |parts| >= 1
    ensures forall k :: 0 <= k < |parts| ==> ' ' !in parts[k]
    ensures forall k :: 1 <= k < |parts| ==> |parts[k]| == 3 && AllDigits(parts[k])
  {
    var groups := DigitGroups(NatStr(if n < 0 then -n else n));
    var first := Sign(n) + groups[0];
    assert forall i :: 0 <= i < |first| ==> first[i] == '-' || IsDigit(first[i]);
    var parts := [first] + groups[1..];
    DigitsHaveNoSpace(groups);
    assert forall k :: 1 <= k < |parts| ==> parts[k] == groups[k];
    parts
  }

  /** `format_number(n)`: `f"{n:,}"` with every comma replaced by a space. */
  function FormatNumber(n: int): (r: string)
  {
    Join([' '], SignedGroups(n))
  }

  /** The groups glued together are `str(n)`. */
  lemma SignedGroupsConcat(n: int)
    ensures Concat(SignedGroups(n)) == IntStr(n)
  {
    SignedGroupsShape(n);
    PrefixedGroupsConcat(Sign(n), NatStr(if n < 0 then -n else n));
  }

  /** Gluing a prefix to the first group of a digit string and concatenating gives the prefixed string. */
  lemma PrefixedGroupsConcat(prefix: string, d: string)
    requires d != [] && AllDigits(d)
    ensures var groups := DigitGroups(d);
      Concat([prefix + groups[0]] + groups[1..]) == prefix + d
  {
    var groups := DigitGroups(d);
    ConcatCons(prefix + groups[0], groups[1..]);
    ConcatCons(groups[0], groups[1..]);
    assert groups == [groups[0]] + groups[1..];
    var tail := Concat(groups[1..]);
    assert (prefix + groups[0]) + tail == prefix + (groups[0] + tail);
  }

  /** The sign is glued to the first digit group; the others are kept. */
  lemma SignedGroupsShape(n: int)
    ensures var groups := DigitGroups(NatStr(if n < 0 then -n else n));
      SignedGroups(n) == [Sign(n) + groups[0]] + groups[1..]
  {
  }

  lemma ConcatCons(first: string, rest: seq<string>)
    ensures Concat([first] + rest) == first + Concat(rest)
  {
    assert ([first] + rest)[1..] == rest;
  }

  /** Removing the spaces from `format_number(n)` gives `str(n)`. */
  lemma FormatNumberDigits(n: int)
    ensures RemoveChar(FormatNumber(n), ' ') == IntStr(n)
  {
    SignedGroupsConcat(n);
    RemoveSeparator(SignedGroups(n), ' ');
  }

  /**
   * Splitting `format_number(n)` at its spaces gives back the groups: the sign
   * and 1 to 3 digits first, then groups of exactly 3 digits.
   */
  lemma FormatNumberGroups(n: int)
    ensures var g := SplitOn(FormatNumber(n), ' ');
      && g == SignedGroups(n)
      && (forall k :: 1 <= k < |g| ==> |g[k]| == 3 && AllDigits(g[k]))
      && |Sign(n)| + 1 <= |g[0]| <= |Sign(n)| + 3 && g[0][..|Sign(n)|] == Sign(n)
  {
    JoinSplitOn(SignedGroups(n), ' ');
  }

  function Pow10(k: nat): (p: nat)
    ensures p >= 1
  {
    if k == 0 then 1 else 10 * Pow10(k - 1)
  }

  /** A number below `10^k` has at most `k` digits. */
  lemma {:induction false} NatStrWidth(n: nat, k: nat)
    requires 1 <= k && n < Pow10(k)
    ensures |NatStr(n)| <= k
    decreases k
  {
    if n >= 10 {
      assert Pow10(1) == 10;
      assert k >= 2;
      assert Pow10(k) == 10 * Pow10(k - 1);
      assert n / 10 < Pow10(k - 1);
      NatStrWidth(n / 10, k - 1);
    }
  }

  /** Numbers below a thousand in magnitude get no separator. */
  lemma FormatNumberSmall(n: int)
    requires -1000 < n < 1000
    ensures FormatNumber(n) == IntStr(n)
  {
    var m: nat := if n < 0 then -n else n;
    var d := NatStr(m);
    assert Pow10(3) == 1000;
    NatStrWidth(m, 3);
    assert d[..|d|] == d && d[|d|..] == [];
    assert DigitGroups(d) == [d];
  }

  // ---------------------------------------------------------------------------
  // safe_filename

  /** The characters of the class `[<>:"/\\|?*]`. */
  predicate IsUnsafeFileChar(c: char)
  {
    c in "<>:\"/\\|?*"
  }

  /** No character of the class. */
  predicate NoUnsafe(s: string)
  {
    forall i :: 0 <= i < |s| ==> !IsUnsafeFileChar(s[i])
  }

  /** `re.sub(r'[<>:"/\\|?*]', '_', s)`. */
  function ReplaceUnsafe(s: string): (r: string)
    ensures |r| == |s| && NoUnsafe(r)
    ensures forall i :: 0 <= i < |s| ==> r[i] == if IsUnsafeFileChar(s[i]) then '_' else s[i]
  {
    if s == [] then [] else [if IsUnsafeFileChar(s[0]) then '_' else s[0]] + ReplaceUnsafe(s[1..])
  }

  const MaxFilenameLength: nat := 200

  /** `s[:200]` when `s` is longer than 200 characters. */
  function CutName(s: string): (r: string)
    ensures |r| <= MaxFilenameLength && r <= s
    ensures |s| <= MaxFilenameLength ==> r == s
  {
    if |s| > MaxFilenameLength then s[..MaxFilenameLength] else s
  }

  /** Stripping dots keeps a contiguous part, so it brings in no character of the class. */
  lemma StripDotsSafe(s: string)
    requires NoUnsafe(s)
    ensures NoUnsafe(StripChar(s, '.'))
  {
    var l := TrimLeft(s, x => x == '.');
    var r := TrimRight(l, x => x == '.');
    assert forall i :: 0 <= i < |r| ==> r[i] == s[|s| - |l| + i];
  }

  /** The reading of the local clock the generated name is stamped with. */
  datatype DateTime = DateTime(year: nat, month: nat, day: nat, hour: nat, minute: nat, second: nat)

  /** The ranges a `datetime` keeps its fields in. */
  predicate ValidDateTime(t: DateTime)
  {
    1 <= t.year <= 9999 && 1 <= t.month <= 12 && 1 <= t.day <= 31 && t.hour < 24 && t.minute < 60 && t.second < 60
  }

  /** Two decimal digits, zero padded. */
  function Pad2(n: nat): (r: string)
    requires n < 100
    ensures |r| == 2 && AllDigits(r)
    ensures DigitsValue(r) == n
  {
    var r := [DigitChar(n / 10), DigitChar(n % 10)];
    assert r[..1] == [r[0]];
    assert DigitsValue(r[..0]) == 0;
    r
  }

  /** `t.strftime('%Y%m%d_%H%M%S')`; the C library writes the year without padding. */
  function Stamp(t: DateTime): (r: string)
    requires ValidDateTime(t)
    ensures 12 <= |r| <= 15
    ensures forall i :: 0 <= i < |r| ==> IsDigit(r[i]) || r[i] == '_'
    ensures IsDigit(r[|r| - 1])
  {
    assert Pow10(4) == 10000;
    NatStrWidth(t.year, 4);
    var date := NatStr(t.year) + Pad2(t.month) + Pad2(t.day);
    var time := Pad2(t.hour) + Pad2(t.minute) + Pad2(t.second);
    assert AllDigits(date) && AllDigits(time);
    date + "_" + time
  }

  /** The name generated when nothing is left of the given one. */
  function GeneratedName(now: DateTime): (r: string)
    requires ValidDateTime(now)
    ensures SafeName(r)
  {
    var r := "file_" + Stamp(now);
    assert forall i :: 5 <= i < |r| ==> r[i] == Stamp(now)[i - 5];
    r
  }

  /** No character of the class, at most 200 characters, not empty, no dot at either end. */
  predicate SafeName(s: string)
  {
    && 1 <= |s| <= MaxFilenameLength
    && NoUnsafe(s)
    && s[0] != '.' && s[|s| - 1] != '.'
  }

  /**
   * `safe_filename(filename)`, with the clock reading `now` used for the
   * generated name when nothing is left of the given one.
   */
  function SafeFilename(filename: string, now: DateTime): (r: string)
    requires ValidDateTime(now)
    ensures SafeName(r)
  {
    var cut := CutName(ReplaceUnsafe(filename));
    var trimmed := StripChar(cut, '.');
    StripDotsSafe(cut);
    if trimmed == [] then GeneratedName(now) else trimmed
  }

  /** A name that is already safe comes back unchanged. */
  lemma SafeFilenameFixedPoint(filename: string, now: DateTime)
    requires ValidDateTime(now)
    requires SafeName(filename)
    ensures SafeFilename(filename, now) == filename
  {
    assert ReplaceUnsafe(filename) == filename;
    assert TrimLeft(filename, x => x == '.') == filename;
    assert TrimRight(filename, x => x == '.') == filename;
  }

  /** Making a name safe twice is making it safe once, whatever the clock says the second time. */
  lemma SafeFilenameIdempotent(filename: string, now: DateTime, later: DateTime)
    requires ValidDateTime(now) && ValidDateTime(later)
    ensures SafeFilename(SafeFilename(filename, now), later) == SafeFilename(filename, now)
  {
    SafeFilenameFixedPoint(SafeFilename(filename, now), later);
  }

  /** A name of dots only leaves nothing, so the stamped name is generated. */
  lemma SafeFilenameOnlyDots(filename: string, now: DateTime)
    requires ValidDateTime(now)
    requires forall i :: 0 <= i < |filename| ==> filename[i] == '.'
    ensures SafeFilename(filename, now) == GeneratedName(now)
  {
    var cut := CutName(ReplaceUnsafe(filename));
    assert forall i :: 0 <= i < |cut| ==> cut[i] == '.';
  }

  // ---------------------------------------------------------------------------
  // get_file_extension

  /** The MIME types `get_file_extension` knows, in the order of its table. */
  const MimeTypes: seq<string> := [
    "text/html", "text/css", "text/javascript", "application/javascript", "application/json",
    "application/xml", "text/xml", "image/jpeg", "image/png", "image/gif", "image/svg+xml",
    "application/pdf", "text/plain"]

  /** The `mime_extensions` table. */
  function MimeExtension(t: string): Option<string>
  {
    match t
    case "text/html" => Some(".html")
    case "text/css" => Some(".css")
    case "text/javascript" => Some(".js")
    case "application/javascript" => Some(".js")
    case "application/json" => Some(".json")
    case "application/xml" => Some(".xml")
    case "text/xml" => Some(".xml")
    case "image/jpeg" => Some(".jpg")
    case "image/png" => Some(".png")
    case "image/gif" => Some(".gif")
    case "image/svg+xml" => Some(".svg")
    case "application/pdf" => Some(".pdf")
    case "text/plain" => Some(".txt")
    case _ => None
  }

  /** `get_file_extension(content_type)`: the table entry of the lower-cased type, or `""`. */
  function GetFileExtension(contentType: string): (r: string)
    ensures r == [] || r[0] == '.'
  {
    match MimeExtension(Lower(contentType))
    case Some(e) => e
    case None => ""
  }

  /** The table holds exactly the listed types. */
  lemma MimeTableKeys(t: string)
    ensures MimeExtension(t).Some? <==> t in MimeTypes
    ensures MimeExtension(t).Some? ==> MimeExtension(t).value != []
  {
  }

  /** An extension is found exactly for a listed type, whatever its case. */
  lemma GetFileExtensionKnown(contentType: string)
    ensures GetFileExtension(contentType) != [] <==> Lower(contentType) in MimeTypes
  {
    var t := Lower(contentType);
    MimeTableKeys(t);
    assert GetFileExtension(contentType) == if MimeExtension(t).Some? then MimeExtension(t).value else "";
  }

  /** The extension does not depend on the case of the type. */
  lemma GetFileExtensionCaseInsensitive(contentType: string)
    ensures GetFileExtension(Lower(contentType)) == GetFileExtension(contentType)
  {
    LowerIdempotent(contentType);
  }
}
