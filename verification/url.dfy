/**
 * `validate_url`: normalises a user-supplied address (strip, then add
 * `https://` when neither web scheme is present) and accepts it only when the
 * host part of its network location is a well-formed domain name.
 *
 * The parts of `urllib.parse.urlsplit` (as in current Python 3 releases) the
 * check depends on are modelled here: tab, CR and LF are dropped before
 * parsing, the scheme is the run of scheme characters before the first `:`,
 * the network location follows a `//` up to the first `/`, `?` or `#`, and
 * `urlsplit` itself raises `ValueError` for a network location with unbalanced
 * or misplaced brackets, with a bracketed host that is not an IPv6 or IPvFuture
 * address, or with characters that NFKC normalisation turns into URL
 * delimiters. The two library calls those checks make, Unicode normalisation
 * and `ipaddress.ip_address`, are the parameter `UrlLib`. (The leading
 * whitespace `urlsplit` strips cannot occur: the address starts with `http`.)
 */
module UrlValidation {
  import opened PyBase
  import opened Text

  const EmptyUrlMessage := "URL не может быть пустым"
  const ValidationPrefix := "Ошибка валидации URL: "
  const NoDomainMessage := "Невалидный URL: отсутствует домен"
  const SchemeMessage := "Поддерживаются только HTTP и HTTPS схемы"
  const DomainFormatMessage := "Невалидный формат домена"

  predicate HasWebScheme(u: string)
  {
    StartsWith(u, "http://") || StartsWith(u, "https://")
  }

  /** The address after stripping and, when needed, prefixing `https://`. */
  function Normalize(s: string): (u: string)
    ensures HasWebScheme(u)
  {
    var t := Strip(s);
    if HasWebScheme(t) then t else "https://" + t
  }

  // ---------------------------------------------------------------------------
  // urlsplit

  predicate IsUnsafe(c: char)
  {
    c == '\t' || c == '\r' || c == '\n'
  }

  /** The address with tab, CR and LF removed, as `urlsplit` first does. */
  function RemoveUnsafe(u: string): (r: string)
    ensures forall i :: 0 <= i < |r| ==> !IsUnsafe(r[i])
    ensures (forall i :: 0 <= i < |u| ==> !IsUnsafe(u[i])) ==> r == u
  {
    if u == [] then []
    else (if IsUnsafe(u[0]) then [] else [u[0]]) + RemoveUnsafe(u[1..])
  }

  predicate IsAsciiLetter(c: char)
  {
    'a' <= c <= 'z' || 'A' <= c <= 'Z'
  }

  predicate IsAsciiAlnum(c: char)
  {
    IsAsciiLetter(c) || '0' <= c <= '9'
  }

  predicate IsSchemeChar(c: char)
  {
    IsAsciiAlnum(c) || c == '+' || c == '-' || c == '.'
  }

  /** The scheme (lowered) and the remainder, or no scheme when the text before `:` is not one. */
  function SplitScheme(u: string): (string, string)
  {
    var i := IndexOf(u, ':');
    if i.Some? && i.value > 0 && IsAsciiLetter(u[0]) && forall k :: 0 <= k < i.value ==> IsSchemeChar(u[k])
    then (Lower(u[..i.value]), u[i.value + 1..])
    else ("", u)
  }

  predicate EndsNetloc(c: char)
  {
    c == '/' || c == '?' || c == '#'
  }

  /** The network location after `//`, up to the first `/`, `?` or `#`; empty without `//`. */
  function NetlocOf(rest: string): (n: string)
    ensures forall k :: 0 <= k < |n| ==> !EndsNetloc(n[k])
  {
    if StartsWith(rest, "//") then
      var tail := rest[2..];
      var i := FirstWhere(tail, EndsNetloc);
      if i.None? then tail else tail[..i.value]
    else []
  }

  /** `urlparse(u)`: the scheme and the network location. */
  function Parse(u: string): (string, string)
  {
    var split := SplitScheme(RemoveUnsafe(u));
    (split.0, NetlocOf(split.1))
  }

  /** `parsed.netloc.split(':')[0]`. */
  function HostOf(netloc: string): string
  {
    Before(netloc, ':')
  }

  // ---------------------------------------------------------------------------
  // The errors `urlsplit` raises on the network location

  /** What `ipaddress.ip_address(h)` makes of a text: a version 4 or 6 address, or a `ValueError` with this message. */
  datatype IpParse = IPv4 | IPv6 | NotAnAddress(message: string)

  /**
   * The library functions the network location checks call:
   * `unicodedata.normalize('NFKC', s)` and `ipaddress.ip_address(h)`.
   */
  datatype UrlLib = UrlLib(nfkc: string -> string, ipAddress: string -> IpParse)

  const InvalidIpv6Message := "Invalid IPv6 URL"
  const FutureMessage := "IPvFuture address is invalid"
  const BracketedIpv4Message := "An IPv4 address cannot be in brackets"

  function NfkcMessage(netloc: string): string
  {
    "netloc '" + netloc + "' contains invalid characters under NFKC normalization"
  }

  predicate IsAsciiText(s: string)
  {
    forall k :: 0 <= k < |s| ==> s[k] as int < 128
  }

  /** Plain text: ASCII, without brackets. No network location made of it makes `urlsplit` raise. */
  predicate IsPlain(s: string)
  {
    forall k :: 0 <= k < |s| ==> s[k] as int < 128 && s[k] != '[' && s[k] != ']'
  }

  /** `s.rpartition(c)[2]`: the text after the last `c`, all of `s` without one. */
  function AfterLast(s: string, c: char): (r: string)
    ensures c !in r && |r| <= |s| && r == s[|s| - |r|..]
    ensures |r| < |s| ==> s[|s| - |r| - 1] == c
    ensures c !in s ==> r == s
  {
    if s == [] || s[|s| - 1] == c then []
    else
      var init := s[..|s| - 1];
      assert s == init + [s[|s| - 1]];
      AfterLast(init, c) + [s[|s| - 1]]
  }

  /** `s.partition(c)[2]`: the text after the first `c`, empty without one. */
  function AfterFirst(s: string, c: char): (r: string)
    ensures c in s ==> s == Before(s, c) + [c] + r
    ensures c !in s ==> r == []
  {
    match IndexOf(s, c)
    case None => []
    case Some(i) =>
      assert s == s[..i] + [c] + s[i + 1..];
      s[i + 1..]
  }

  predicate IsHexDigit(c: char)
  {
    '0' <= c <= '9' || 'a' <= c <= 'f' || 'A' <= c <= 'F'
  }

  /** The length of the run of hexadecimal digits `t` starts with. */
  function HexRun(t: string): (k: nat)
    ensures k <= |t|
    ensures forall j :: 0 <= j < k ==> IsHexDigit(t[j])
    ensures k < |t| ==> !IsHexDigit(t[k])
  {
    if t == [] || !IsHexDigit(t[0]) then 0 else 1 + HexRun(t[1..])
  }

  /** `re.match(r"\Av[a-fA-F0-9]+\..+\Z", h)`: `v`, hex digits, a dot, then at least one character other than a newline. */
  predicate IsFutureAddress(h: string)
  {
    |h| >= 1 && h[0] == 'v' &&
    var t := h[1..];
    var k := HexRun(t);
    1 <= k && k + 1 < |t| && t[k] == '.' && '\n' !in t[k + 1..]
  }

  /** `_check_bracketed_host`: an IPvFuture address after a `v`, otherwise an IPv6 (not IPv4) address. */
  function BracketedHostError(lib: UrlLib, h: string): (e: Option<string>)
    ensures StartsWith(h, "v") ==> (e.None? <==> IsFutureAddress(h))
    ensures !StartsWith(h, "v") ==> (e.None? <==> lib.ipAddress(h) == IPv6)
  {
    if StartsWith(h, "v") then
      (if IsFutureAddress(h) then None else Some(FutureMessage))
    else
      match lib.ipAddress(h)
      case IPv4 => Some(BracketedIpv4Message)
      case IPv6 => None
      case NotAnAddress(message) => Some(message)
  }

  /**
   * `_check_bracketed_netloc`: after the last `@`, a `[` must open the host,
   * and only a `:` port may follow its `]`; the host inside the brackets, or
   * the text before the first `:` when there is no `[` there, must pass
   * `_check_bracketed_host`.
   */
  function BracketedNetlocError(lib: UrlLib, netloc: string): (e: Option<string>)
  {
    var hostAndPort := AfterLast(netloc, '@');
    match IndexOf(hostAndPort, '[')
    case None => BracketedHostError(lib, Before(hostAndPort, ':'))
    case Some(i) =>
      if i > 0 then Some(InvalidIpv6Message)
      else
        var bracketed := hostAndPort[1..];
        var port := AfterFirst(bracketed, ']');
        if port != [] && port[0] != ':' then Some(InvalidIpv6Message)
        else BracketedHostError(lib, Before(bracketed, ']'))
  }

  /** The network location without the delimiters `_checknetloc` ignores. */
  function WithoutDelimiters(netloc: string): string
  {
    RemoveChar(RemoveChar(RemoveChar(RemoveChar(netloc, '@'), ':'), '#'), '?')
  }

  /**
   * `_checknetloc`: a non-ASCII network location whose NFKC normalisation
   * (delimiters aside) differs and contains one of `/?#@:`.
   */
  predicate NfkcUnsafe(lib: UrlLib, netloc: string)
  {
    && netloc != []
    && !IsAsciiText(netloc)
    && var n := WithoutDelimiters(netloc);
       var normal := lib.nfkc(n);
       normal != n && ('/' in normal || '?' in normal || '#' in normal || '@' in normal || ':' in normal)
  }

  /** The message of the `ValueError` `urlsplit` raises for this network location, if it raises. */
  function NetlocError(lib: UrlLib, netloc: string): (e: Option<string>)
    ensures ('[' in netloc) != (']' in netloc) ==> e == Some(InvalidIpv6Message)
    ensures ('[' in netloc) == (']' in netloc) && !NfkcUnsafe(lib, netloc) && ('[' !in netloc || BracketedNetlocError(lib, netloc).None?) ==> e.None?
  {
    if ('[' in netloc) != (']' in netloc) then Some(InvalidIpv6Message)
    else if '[' in netloc && BracketedNetlocError(lib, netloc).Some? then BracketedNetlocError(lib, netloc)
    else if NfkcUnsafe(lib, netloc) then Some(NfkcMessage(netloc))
    else None
  }

  /** `urlsplit` accepts every network location of plain text, whatever the library does. */
  lemma PlainNetlocAccepted(lib: UrlLib, netloc: string)
    requires IsPlain(netloc)
    ensures NetlocError(lib, netloc).None?
  {
    assert '[' !in netloc && ']' !in netloc by {
      forall k | 0 <= k < |netloc| ensures netloc[k] != '[' && netloc[k] != ']' { }
    }
  }

  /** A `[` before the host after the last `@` is refused (`example.com:[x]`). */
  lemma TextBeforeBracketRefused(lib: UrlLib, netloc: string, i: nat)
    requires '@' !in netloc && ']' in netloc
    requires IndexOf(netloc, '[') == Some(i) && i > 0
    ensures NetlocError(lib, netloc) == Some(InvalidIpv6Message)
  {
    assert AfterLast(netloc, '@') == netloc;
    assert BracketedNetlocError(lib, netloc) == Some(InvalidIpv6Message);
    BracketedRefusal(lib, netloc);
  }

  /**
   * Brackets that all lie before the last `@` still make `urlsplit` check
   * the host after it, up to its first `:`, as a bracketed host.
   */
  lemma UserinfoBracketsChecked(lib: UrlLib, a: string, b: string)
    requires '@' !in b && '[' !in b
    ensures BracketedNetlocError(lib, a + "@" + b) == BracketedHostError(lib, Before(b, ':'))
  {
    AfterLastAt(a, b);
  }

  /**
   * So `user:pa[ss]@example.com` is refused: a host after the `@` that is
   * no IP address makes `ip_address` raise.
   */
  lemma UserinfoBracketsRefused(lib: UrlLib, a: string, b: string)
    requires '[' in a && ']' in a
    requires '@' !in b && '[' !in b
    requires !StartsWith(Before(b, ':'), "v") && lib.ipAddress(Before(b, ':')) != IPv6
    ensures NetlocError(lib, a + "@" + b) == BracketedHostError(lib, Before(b, ':'))
    ensures NetlocError(lib, a + "@" + b).Some?
  {
    UserinfoBracketsChecked(lib, a, b);
    var netloc := a + "@" + b;
    assert '[' in netloc && ']' in netloc by {
      var i :| 0 <= i < |a| && a[i] == '[';
      var j :| 0 <= j < |a| && a[j] == ']';
      assert netloc[i] == '[' && netloc[j] == ']';
    }
    BracketedRefusal(lib, netloc);
  }

  /** `s.rpartition('@')[2]` of `a@b` is `b` when `b` has no `@`. */
  lemma AfterLastAt(a: string, b: string)
    requires '@' !in b
    ensures AfterLast(a + "@" + b, '@') == b
  {
    var s := a + "@" + b;
    var r := AfterLast(s, '@');
    assert s[|s| - |b| - 1] == '@';
    assert s[|s| - |b|..] == b;
  }

  /** Without brackets, only NFKC normalisation can make `urlsplit` raise. */
  lemma NfkcRefusal(lib: UrlLib, netloc: string)
    requires '[' !in netloc && ']' !in netloc && NfkcUnsafe(lib, netloc)
    ensures NetlocError(lib, netloc) == Some(NfkcMessage(netloc))
  {
  }

  /** A bracketed IPv4 host is refused. */
  lemma BracketedIpv4Refused(lib: UrlLib, netloc: string, h: string)
    requires netloc == "[" + h + "]"
    requires '[' !in h && ']' !in h && '@' !in h && !StartsWith(h, "v")
    requires lib.ipAddress(h) == IPv4
    ensures NetlocError(lib, netloc) == Some(BracketedIpv4Message)
  {
    BracketedHostIpv4(lib, netloc, h);
    BracketedRefusal(lib, netloc);
  }

  /** With both brackets present, a bracket error is the one `urlsplit` raises. */
  lemma BracketedRefusal(lib: UrlLib, netloc: string)
    requires '[' in netloc && ']' in netloc && BracketedNetlocError(lib, netloc).Some?
    ensures NetlocError(lib, netloc) == BracketedNetlocError(lib, netloc)
  {
  }

  lemma BracketedHostIpv4(lib: UrlLib, netloc: string, h: string)
    requires netloc == "[" + h + "]"
    requires '[' !in h && ']' !in h && '@' !in h && !StartsWith(h, "v")
    requires lib.ipAddress(h) == IPv4
    ensures '[' in netloc && ']' in netloc
    ensures BracketedNetlocError(lib, netloc) == Some(BracketedIpv4Message)
  {
    assert netloc[0] == '[' && netloc[|netloc| - 1] == ']';
    assert '@' !in netloc by {
      forall k | 0 <= k < |netloc| ensures netloc[k] != '@' {
        if 0 < k < |netloc| - 1 {
          assert netloc[k] == h[k - 1];
        }
      }
    }
    assert AfterLast(netloc, '@') == netloc;
    assert IndexOf(netloc, '[') == Some(0);
    var bracketed := netloc[1..];
    assert bracketed == h + "]";
    IndexOfAt(bracketed, ']', |h|);
    assert Before(bracketed, ']') == h;
    assert AfterFirst(bracketed, ']') == [];
  }

  // ---------------------------------------------------------------------------
  // The domain pattern

  /** One label of the pattern: `[a-zA-Z0-9]([a-zA-Z0-9\-]{0,61}[a-zA-Z0-9])?`. */
  predicate IsLabel(l: string)
  {
    1 <= |l| <= 63
    && (forall k :: 0 <= k < |l| ==> IsAsciiAlnum(l[k]) || l[k] == '-')
    && IsAsciiAlnum(l[0]) && IsAsciiAlnum(l[|l| - 1])
  }

  /** The regular language of the domain pattern: a label, then any number of `.label`. */
  ghost predicate MatchesDomainPattern(h: string)
    decreases |h|, 1
  {
    exists i :: PatternSplit(h, i)
  }

  /** The pattern matches with its first label ending at `i`. */
  ghost predicate PatternSplit(h: string, i: int)
    decreases |h|, 0
  {
    0 <= i <= |h| && IsLabel(h[..i]) && (i == |h| || (h[i] == '.' && MatchesDomainPattern(h[i + 1..])))
  }

  /** Every dot-separated label is well formed. */
  predicate ValidHost(h: string)
  {
    var labels := SplitOn(h, '.');
    forall k :: 0 <= k < |labels| ==> IsLabel(labels[k])
  }

  /** A host without dots is valid exactly when it is one label, and so is the pattern. */
  lemma NoDotHost(h: string)
    requires '.' !in h
    ensures ValidHost(h) <==> IsLabel(h)
    ensures MatchesDomainPattern(h) <==> IsLabel(h)
  {
    assert SplitOn(h, '.') == [h];
    assert SplitOn(h, '.')[0] == h;
    assert h[..|h|] == h;
    if MatchesDomainPattern(h) {
      NoDotPattern(h);
    }
    if IsLabel(h) {
      assert PatternSplit(h, |h|);
    }
  }

  lemma NoDotPattern(h: string)
    requires '.' !in h && MatchesDomainPattern(h)
    ensures IsLabel(h)
  {
    var j :| PatternSplit(h, j);
    forall m | 0 <= m < |h| ensures h[m] != '.' {
      assert h[m] in h;
    }
    assert h[..|h|] == h;
  }

  /** A host with a dot at `k`, the first one, splits into `h[..k]` and the labels after it. */
  lemma DottedHost(h: string, k: nat)
    requires IndexOf(h, '.') == Some(k)
    ensures ValidHost(h) <==> IsLabel(h[..k]) && ValidHost(h[k + 1..])
  {
    var rest := SplitOn(h[k + 1..], '.');
    var labels := SplitOn(h, '.');
    assert labels == [h[..k]] + rest;
    if ValidHost(h) {
      assert IsLabel(labels[0]);
      forall m | 0 <= m < |rest| ensures IsLabel(rest[m]) {
        assert rest[m] == labels[m + 1];
      }
    }
    if IsLabel(h[..k]) && ValidHost(h[k + 1..]) {
      forall m | 0 <= m < |labels| ensures IsLabel(labels[m]) {
        if m > 0 {
          assert labels[m] == rest[m - 1];
        }
      }
    }
  }

  /** The label-by-label check implies the pattern. */
  lemma {:induction false} ValidHostToPattern(h: string)
    requires ValidHost(h)
    ensures MatchesDomainPattern(h)
    decreases |h|
  {
    var i := IndexOf(h, '.');
    if i.None? {
      NoDotHost(h);
    } else {
      var k := i.value;
      DottedHost(h, k);
      ValidHostToPattern(h[k + 1..]);
      assert PatternSplit(h, k);
    }
  }

  /** The pattern implies the label-by-label check. */
  lemma {:induction false} PatternToValidHost(h: string)
    requires MatchesDomainPattern(h)
    ensures ValidHost(h)
    decreases |h|
  {
    var i := IndexOf(h, '.');
    if i.None? {
      NoDotHost(h);
    } else {
      var k := i.value;
      var j :| PatternSplit(h, j);
      forall m | 0 <= m < j ensures h[m] != '.' {
        assert h[..j][m] == h[m];
      }
      forall m | 0 <= m < k ensures h[m] != '.' {
        assert h[..k][m] == h[m];
      }
      assert j == k;
      PatternToValidHost(h[k + 1..]);
      DottedHost(h, k);
    }
  }

  /** Checking the labels one by one decides the pattern, in both directions. */
  lemma ValidHostMatchesPattern(h: string)
    ensures ValidHost(h) <==> MatchesDomainPattern(h)
  {
    if ValidHost(h) {
      ValidHostToPattern(h);
    }
    if MatchesDomainPattern(h) {
      PatternToValidHost(h);
    }
  }

  // ---------------------------------------------------------------------------
  // validate_url

  /**
   * `validate_url(url)`; `None` stands for an argument that is not a string.
   * Every failure after the emptiness test is re-raised with the
   * `Ошибка валидации URL: ` prefix.
   */
  function ValidateUrl(lib: UrlLib, url: Option<string>): (r: Result<string>)
    ensures url.None? || url == Some("") ==> r == Err(ValueError(EmptyUrlMessage))
    ensures r.Ok? ==> url.Some? && r.value == Normalize(url.value) && HasWebScheme(r.value)
    ensures r.Ok? ==> NetlocError(lib, Parse(r.value).1).None? && ValidHost(HostOf(Parse(r.value).1))
    ensures r.Err? && url.Some? && url.value != "" ==>
              r.error.ValueError? && StartsWith(r.error.message, ValidationPrefix)
  {
    if url.None? || url.value == "" then Err(ValueError(EmptyUrlMessage))
    else CheckAddress(lib, Normalize(url.value))
  }

  /** The checks on the normalised address, in the order they are made. */
  function CheckAddress(lib: UrlLib, u: string): (r: Result<string>)
    ensures r.Ok? ==> r.value == u && NetlocError(lib, Parse(u).1).None? && ValidHost(HostOf(Parse(u).1))
    ensures r.Err? ==> r.error.ValueError? && StartsWith(r.error.message, ValidationPrefix)
    ensures forall e :: NetlocError(lib, Parse(u).1) == Some(e) ==> r == Err(ValueError(ValidationPrefix + e))
  {
    var (scheme, netloc) := Parse(u);
    if NetlocError(lib, netloc).Some? then Err(ValueError(ValidationPrefix + NetlocError(lib, netloc).value))
    else if netloc == "" then Err(ValueError(ValidationPrefix + NoDomainMessage))
    else if scheme != "http" && scheme != "https" then Err(ValueError(ValidationPrefix + SchemeMessage))
    else if !ValidHost(HostOf(netloc)) then Err(ValueError(ValidationPrefix + DomainFormatMessage))
    else Ok(u)
  }

  /** An address starting with `p` + `://`, for a web scheme `p`, has scheme `p`. */
  lemma {:induction false} SchemeOfPrefixed(v: string, p: string)
    requires p == "http" || p == "https"
    requires |v| >= |p| + 3 && v[..|p| + 3] == p + "://"
    ensures SplitScheme(v) == (p, v[|p| + 1..])
  {
    var n := |p|;
    forall k | 0 <= k < n
      ensures v[k] == p[k] && IsAsciiLetter(v[k]) && 'a' <= v[k] <= 'z'
    {
      assert v[k] == v[..n + 3][k];
    }
    assert v[n] == v[..n + 3][n];
    assert v[..n] == p;
    assert ':' !in v[..n];
    assert IndexOf(v, ':') == Some(n);
    assert Lower(v[..n]) == p;
  }

  /** Every address starting with a web scheme parses with that scheme. */
  lemma WebSchemeParses(u: string)
    requires HasWebScheme(u)
    ensures Parse(u).0 in {"http", "https"}
  {
    var p := if StartsWith(u, "https://") then "https" else "http";
    assert u[..|p| + 3] == p + "://";
    forall k | 0 <= k < |p| + 3 ensures !IsUnsafe(u[k]) {
      assert u[k] == (p + "://")[k];
    }
    RemoveUnsafePrefix(u, |p| + 3);
    SchemeOfPrefixed(RemoveUnsafe(u), p);
  }

  /** After normalisation the scheme test always passes. */
  lemma SchemeAlwaysWeb(s: string)
    ensures Parse(Normalize(s)).0 in {"http", "https"}
  {
    WebSchemeParses(Normalize(s));
  }

  /** A prefix free of tab, CR and LF survives their removal. */
  lemma {:induction false} RemoveUnsafePrefix(u: string, n: nat)
    requires n <= |u|
    requires forall k :: 0 <= k < n ==> !IsUnsafe(u[k])
    ensures |RemoveUnsafe(u)| >= n && RemoveUnsafe(u)[..n] == u[..n]
  {
    if n > 0 {
      RemoveUnsafePrefix(u[1..], n - 1);
      assert RemoveUnsafe(u) == [u[0]] + RemoveUnsafe(u[1..]);
    }
  }

  /**
   * On an address with a web scheme, the checks accept exactly when `urlsplit`
   * does not raise and the host is well formed.
   */
  lemma CheckAddressAccepts(lib: UrlLib, u: string)
    requires HasWebScheme(u)
    ensures CheckAddress(lib, u).Ok? <==> NetlocError(lib, Parse(u).1).None? && ValidHost(HostOf(Parse(u).1))
  {
    WebSchemeParses(u);
    var netloc := Parse(u).1;
    if netloc == "" {
      assert HostOf(netloc) == "";
      assert SplitOn("", '.') == [""];
      assert !IsLabel(SplitOn("", '.')[0]);
      assert CheckAddress(lib, u).Err?;
    }
  }

  /**
   * For a non-empty string the verdict depends on the network location alone:
   * it is accepted, as its normalised form, exactly when `urlsplit` does not
   * raise on it and the host is well formed.
   */
  lemma ValidateUrlAccepts(lib: UrlLib, s: string)
    requires s != ""
    ensures ValidateUrl(lib, Some(s)).Ok? <==>
              NetlocError(lib, Parse(Normalize(s)).1).None? && ValidHost(HostOf(Parse(Normalize(s)).1))
  {
    CheckAddressAccepts(lib, Normalize(s));
  }

  /** A stripped string is its own strip. */
  lemma StripStable(s: string)
    requires s == [] || (!IsSpace(s[0]) && !IsSpace(s[|s| - 1]))
    ensures Strip(s) == s
  {
  }

  /** Normalising a normalised address changes nothing. */
  lemma NormalizeIdempotent(s: string)
    ensures Normalize(Normalize(s)) == Normalize(s)
  {
    var t := Strip(s);
    var u := Normalize(s);
    if !HasWebScheme(t) {
      assert u[0] == 'h' && u[|u| - 1] == (if t == [] then '/' else t[|t| - 1]);
    }
    StripStable(u);
  }

  /** `validate_url` accepts its own output and returns it unchanged. */
  lemma ValidateUrlIdempotent(lib: UrlLib, url: Option<string>)
    requires ValidateUrl(lib, url).Ok?
    ensures ValidateUrl(lib, Some(ValidateUrl(lib, url).value)) == ValidateUrl(lib, url)
  {
    var v := ValidateUrl(lib, url).value;
    assert v == Normalize(url.value) && v != [];
    NormalizeIdempotent(url.value);
    assert ValidateUrl(lib, Some(v)) == CheckAddress(lib, Normalize(v));
  }

  lemma RemoveUnsafeHead(u: string)
    requires u != []
    ensures RemoveUnsafe(u) == (if IsUnsafe(u[0]) then [] else [u[0]]) + RemoveUnsafe(u[1..])
  {
  }

  /** Removing tab, CR and LF works piecewise. */
  lemma {:induction false} RemoveUnsafeAppend(a: string, b: string)
    ensures RemoveUnsafe(a + b) == RemoveUnsafe(a) + RemoveUnsafe(b)
  {
    if a != [] {
      RemoveUnsafeAppend(a[1..], b);
      assert (a + b)[0] == a[0] && (a + b)[1..] == a[1..] + b;
      RemoveUnsafeHead(a + b);
      RemoveUnsafeHead(a);
      AppendAssoc(if IsUnsafe(a[0]) then [] else [a[0]], RemoveUnsafe(a[1..]), RemoveUnsafe(b));
    } else {
      assert a + b == b;
    }
  }

  /** A network location that begins with `w:` has host `w`. */
  lemma HostBeforeColon(tail: string, w: string)
    requires |tail| > |w| && tail[..|w| + 1] == w + ":"
    requires forall k :: 0 <= k < |w| ==> IsAsciiAlnum(w[k]) || w[k] == '-'
    ensures HostOf(NetlocOf("//" + tail)) == w
  {
    NetlocKeepsPrefix(tail, w);
    assert ':' !in w by {
      forall k | 0 <= k < |w| ensures w[k] != ':' { }
    }
    BeforeFirst(NetlocOf("//" + tail), w, ':');
  }

  /** A network location whose first characters cannot end it keeps them. */
  lemma NetlocKeepsPrefix(tail: string, w: string)
    requires |tail| > |w| && tail[..|w| + 1] == w + ":"
    requires forall k :: 0 <= k < |w| ==> IsAsciiAlnum(w[k]) || w[k] == '-'
    ensures var netloc := NetlocOf("//" + tail);
      |netloc| > |w| && netloc[..|w| + 1] == w + ":"
  {
    var rest := "//" + tail;
    assert rest[..2] == "//" && rest[2..] == tail;
    forall k | 0 <= k <= |w| ensures !EndsNetloc(tail[k]) {
      assert tail[k] == (w + ":")[k];
    }
    var i := FirstWhere(tail, EndsNetloc);
    if i.Some? {
      assert i.value > |w|;
      assert tail[..i.value][..|w| + 1] == tail[..|w| + 1];
    }
  }

  /** The part before the first `c` of a string that starts with `w` and then `c`, where `w` holds no `c`, is `w`. */
  lemma BeforeFirst(s: string, w: string, c: char)
    requires |s| > |w| && s[..|w| + 1] == w + [c] && c !in w
    ensures Before(s, c) == w
  {
    var r := Before(s, c);
    assert forall k :: 0 <= k < |w| ==> s[k] == w[k] && s[k] != c;
    assert s[|w|] == (w + [c])[|w|] == c;
    assert |r| <= |w| by {
      assert forall k :: 0 <= k < |r| ==> r[k] == s[k] && r[k] != c;
    }
    assert r == s[..|w|];
  }

  /** The `https://` prefix holds no tab, CR or LF. */
  lemma PrefixIsSafe()
    ensures RemoveUnsafe("https://") == "https://"
  {
    var p := "https://";
    assert p == ['h'] + p[1..];
    RemoveUnsafeHead(p);
    RemoveUnsafeHead(p[1..]);
    RemoveUnsafeHead(p[2..]);
    RemoveUnsafeHead(p[3..]);
    RemoveUnsafeHead(p[4..]);
    RemoveUnsafeHead(p[5..]);
    RemoveUnsafeHead(p[6..]);
    RemoveUnsafeHead(p[7..]);
  }

  /** Nothing in `w:` is removed, for a label `w`. */
  lemma LabelColonSafe(w: string)
    requires IsLabel(w)
    ensures RemoveUnsafe(w + ":") == w + ":"
  {
    var t := w + ":";
    forall k | 0 <= k < |t| ensures !IsUnsafe(t[k]) {
      if k < |w| {
        assert t[k] == w[k];
      }
    }
  }

  /** Nothing in `https://w:` is removed, for a label `w`. */
  lemma HeadIsSafe(w: string)
    requires IsLabel(w)
    ensures RemoveUnsafe("https://" + w + ":") == "https://" + w + ":"
  {
    var t := w + ":";
    LabelColonSafe(w);
    PrefixIsSafe();
    RemoveUnsafeAppend("https://", t);
    AppendAssoc("https://", w, ":");
  }

  lemma SchemeOfForeign(v: string, w: string, r: string)
    requires v == "https://" + w + ":" + r
    ensures SplitScheme(v).1 == "//" + (w + ":" + r)
  {
    assert v[..8] == "https" + "://";
    SchemeOfPrefixed(v, "https");
    assert v[6..] == "//" + (w + ":" + r);
  }

  /** The network location of `https://w:r`, `w` a label, has host `w`. */
  lemma ForeignHost(w: string, r: string)
    requires IsLabel(w)
    ensures HostOf(Parse("https://" + w + ":" + r).1) == w
    ensures IsPlain(r) ==> IsPlain(Parse("https://" + w + ":" + r).1)
  {
    var tail := w + ":" + RemoveUnsafe(r);
    ForeignNetloc(w, r);
    assert tail[..|w| + 1] == w + ":";
    HostBeforeColon(tail, w);
    if IsPlain(r) {
      PlainRemoveUnsafe(r);
      PlainJoin(w, RemoveUnsafe(r));
      PlainNetloc("//" + tail);
    }
  }

  /** `https://w:r` is split after its scheme with tab, CR and LF removed from `r`. */
  lemma ForeignNetloc(w: string, r: string)
    requires IsLabel(w)
    ensures Parse("https://" + w + ":" + r).1 == NetlocOf("//" + (w + ":" + RemoveUnsafe(r)))
  {
    var head := "https://" + w + ":";
    assert "https://" + w + ":" + r == head + r;
    HeadIsSafe(w);
    RemoveUnsafeAppend(head, r);
    SchemeOfForeign(head + RemoveUnsafe(r), w, RemoveUnsafe(r));
  }

  /** The network location of plain text is plain. */
  lemma PlainNetloc(rest: string)
    requires IsPlain(rest)
    ensures IsPlain(NetlocOf(rest))
  {
    var n := NetlocOf(rest);
    forall k | 0 <= k < |n| ensures n[k] as int < 128 && n[k] != '[' && n[k] != ']' {
      assert n[k] in rest;
    }
  }

  /** Removing tab, CR and LF keeps plain text plain. */
  lemma {:induction false} PlainRemoveUnsafe(u: string)
    requires IsPlain(u)
    ensures IsPlain(RemoveUnsafe(u))
  {
    if u != [] {
      PlainRemoveUnsafe(u[1..]);
      RemoveUnsafeHead(u);
    }
  }

  /** `//w:t` is plain text for a label `w` and text `t` made of plain characters. */
  lemma PlainJoin(w: string, t: string)
    requires IsLabel(w)
    requires IsPlain(t)
    ensures IsPlain("//" + (w + ":" + t))
  {
    var s := "//" + (w + ":" + t);
    forall k | 0 <= k < |s| ensures s[k] as int < 128 && s[k] != '[' && s[k] != ']' {
      if 2 <= k < 2 + |w| {
        assert s[k] == w[k - 2];
      } else if k > 2 + |w| {
        assert s[k] == t[k - 3 - |w|];
      }
    }
  }

  /** A single label is a valid host. */
  lemma LabelIsHost(w: string)
    requires IsLabel(w)
    ensures ValidHost(w)
  {
    assert '.' !in w;
    assert SplitOn(w, '.') == [w];
  }

  /** A stripped address without a web scheme only gains the `https://` prefix. */
  lemma NormalizeForeign(s: string)
    requires s == [] || (!IsSpace(s[0]) && !IsSpace(s[|s| - 1]))
    requires !HasWebScheme(s)
    ensures Normalize(s) == "https://" + s
  {
    StripStable(s);
  }

  /**
   * Any other scheme is taken for a host name: `w:` + `r` (already stripped,
   * `w` a single domain label) becomes `https://w:r`, whose host is `w`. It is
   * accepted unless `urlsplit` raises on its network location, which plain
   * text never makes it do.
   */
  lemma ForeignSchemeBecomesHost(lib: UrlLib, w: string, r: string)
    requires IsLabel(w)
    requires !HasWebScheme(w + ":" + r)
    requires r == [] || !IsSpace(r[|r| - 1])
    ensures Normalize(w + ":" + r) == "https://" + w + ":" + r
    ensures HostOf(Parse("https://" + w + ":" + r).1) == w
    ensures ValidateUrl(lib, Some(w + ":" + r)) ==
              match NetlocError(lib, Parse("https://" + w + ":" + r).1)
              case None => Ok("https://" + w + ":" + r)
              case Some(e) => Err(ValueError(ValidationPrefix + e))
    ensures IsPlain(r) ==> ValidateUrl(lib, Some(w + ":" + r)) == Ok("https://" + w + ":" + r)
  {
    var s := w + ":" + r;
    assert s[0] == w[0] && s[|s| - 1] == (if r == [] then ':' else r[|r| - 1]);
    NormalizeForeign(s);
    var u := "https://" + s;
    assert u == "https://" + w + ":" + r;
    ForeignHost(w, r);
    LabelIsHost(w);
    CheckAddressAccepts(lib, u);
    if IsPlain(r) {
      PlainNetlocAccepted(lib, Parse(u).1);
    }
  }

  /** Another scheme is not recognised: `ftp://x` becomes `https://ftp://x`, whose host is `ftp`. */
  lemma ForeignSchemeIsPrefixed(lib: UrlLib, s: string)
    requires s == "ftp://x"
    ensures ValidateUrl(lib, Some(s)) == Ok("https://" + s)
  {
    var w, r := s[..3], s[4..];
    assert w == "ftp" && r == "//x";
    assert s == w + ":" + r;
    assert IsLabel(w);
    assert !HasWebScheme(s) by {
      assert s[0] != "http://"[0];
    }
    assert IsPlain(r);
    ForeignSchemeBecomesHost(lib, w, r);
  }

  /** `https://` + `s` has network location `s` when `s` holds no tab, CR, LF, `/`, `?` or `#`. */
  lemma WholeNetloc(s: string)
    requires forall k :: 0 <= k < |s| ==> !IsUnsafe(s[k]) && !EndsNetloc(s[k])
    ensures Parse("https://" + s).1 == s
  {
    var u := "https://" + s;
    SafePrefixed(s);
    assert u[..8] == "https" + "://";
    SchemeOfPrefixed(u, "https");
    SliceAppend("https://", s, 6);
    assert "https://"[6..] == "//";
    NetlocAfterSlashes(s);
  }

  /** `https://` + `s` holds no tab, CR or LF when `s` holds none. */
  lemma SafePrefixed(s: string)
    requires forall k :: 0 <= k < |s| ==> !IsUnsafe(s[k])
    ensures RemoveUnsafe("https://" + s) == "https://" + s
  {
    PrefixIsSafe();
    RemoveUnsafeAppend("https://", s);
  }

  lemma SliceAppend(a: string, b: string, n: nat)
    requires n <= |a|
    ensures (a + b)[n..] == a[n..] + b
  {
  }

  /** After `//`, text with no `/`, `?` or `#` is the whole network location. */
  lemma NetlocAfterSlashes(s: string)
    requires forall k :: 0 <= k < |s| ==> !EndsNetloc(s[k])
    ensures NetlocOf("//" + s) == s
  {
    assert ("//" + s)[..2] == "//";
    assert ("//" + s)[2..] == s;
    assert FirstWhere(s, EndsNetloc).None?;
  }

  /**
   * A stripped address without a web scheme, free of tab, CR, LF, `/`, `?`
   * and `#`, is refused with the message `urlsplit` raises on it as a network
   * location.
   */
  lemma ForeignNetlocRefused(lib: UrlLib, s: string, e: string)
    requires s != [] && !IsSpace(s[0]) && !IsSpace(s[|s| - 1])
    requires !HasWebScheme(s)
    requires forall k :: 0 <= k < |s| ==> !IsUnsafe(s[k]) && !EndsNetloc(s[k])
    requires NetlocError(lib, s) == Some(e)
    ensures ValidateUrl(lib, Some(s)) == Err(ValueError(ValidationPrefix + e))
  {
    NormalizeForeign(s);
    WholeNetloc(s);
    assert ValidateUrl(lib, Some(s)) == CheckAddress(lib, "https://" + s);
  }

  /**
   * A foreign address `a@b` whose brackets all lie in `a` is refused with
   * `ip_address`'s own message when the host `b` is no IP address.
   */
  lemma UserinfoAddressRefused(lib: UrlLib, a: string, b: string, e: string)
    requires '[' in a && ']' in a
    requires a != [] && !IsSpace(a[0]) && b != [] && !IsSpace(b[|b| - 1])
    requires forall k :: 0 <= k < |a| ==> !IsUnsafe(a[k]) && !EndsNetloc(a[k]) && a[k] != '/'
    requires forall k :: 0 <= k < |b| ==> !IsUnsafe(b[k]) && !EndsNetloc(b[k]) && b[k] != '/'
    requires '@' !in b && '[' !in b && ':' !in b && !StartsWith(b, "v")
    requires lib.ipAddress(b) == NotAnAddress(e)
    ensures ValidateUrl(lib, Some(a + "@" + b)) == Err(ValueError(ValidationPrefix + e))
  {
    assert Before(b, ':') == b;
    UserinfoBracketsRefused(lib, a, b);
    var s := a + "@" + b;
    forall k | 0 <= k < |s| ensures !IsUnsafe(s[k]) && !EndsNetloc(s[k]) && s[k] != '/' {
      if k < |a| {
        assert s[k] == a[k];
      } else if k > |a| {
        assert s[k] == b[k - |a| - 1];
      }
    }
    assert !HasWebScheme(s) by {
      if |s| >= 7 {
        assert "http://"[5] == '/' && "https://"[6] == '/';
        assert s[..7][5] == s[5] && s[5] != '/' && s[6] != '/';
      }
    }
    assert s[0] == a[0] && s[|s| - 1] == b[|b| - 1];
    ForeignNetlocRefused(lib, s, e);
  }

  /** `user:pa[ss]@example.com`, for instance, is refused where the host is no IP address. */
  lemma UserinfoExampleRefused(lib: UrlLib, e: string)
    requires lib.ipAddress("example.com") == NotAnAddress(e)
    ensures ValidateUrl(lib, Some("user:pa[ss]" + "@" + "example.com")) == Err(ValueError(ValidationPrefix + e))
  {
    var a, b := "user:pa[ss]", "example.com";
    assert a[7] == '[' && a[10] == ']';
    assert b[0] == 'e';
    UserinfoAddressRefused(lib, a, b, e);
  }

  /** `h:t`, for a host `h` of scheme characters and a text `t` free of tab, CR, LF, `/`, `?`, `#` and trailing whitespace, is a foreign address whose whole text is the network location. */
  lemma HostColonForeign(h: string, t: string)
    requires h != [] && forall k :: 0 <= k < |h| ==> IsSchemeChar(h[k])
    requires forall k :: 0 <= k < |t| ==> !IsUnsafe(t[k]) && !EndsNetloc(t[k]) && t[k] != '/'
    requires t != [] && !IsSpace(t[|t| - 1])
    ensures var s := h + ":" + t;
      s != [] && !IsSpace(s[0]) && !IsSpace(s[|s| - 1]) && !HasWebScheme(s) &&
      forall k :: 0 <= k < |s| ==> !IsUnsafe(s[k]) && !EndsNetloc(s[k])
  {
    var s := h + ":" + t;
    assert s[0] == h[0];
    forall k | 0 <= k < |s| ensures !IsUnsafe(s[k]) && !EndsNetloc(s[k]) && s[k] != '/' {
      if k < |h| {
        assert s[k] == h[k];
      } else if k > |h| {
        assert s[k] == t[k - |h| - 1];
      }
    }
    assert !HasWebScheme(s) by {
      if |s| >= 7 {
        assert "http://"[5] == '/' && "https://"[5] == ':' && "https://"[6] == '/';
        assert s[..7][5] == s[5] && s[5] != '/';
        assert s[6] != '/';
      }
    }
  }

  /**
   * Unbalanced brackets make `urlsplit` raise: a host, `:`, a port and a
   * lone `[` or `]` is refused, as `example.com:[`, `example.com:80]` and
   * `mailto:[` are.
   */
  lemma UnbalancedBracketsRefused(lib: UrlLib, h: string, port: string, b: char)
    requires h != [] && forall k :: 0 <= k < |h| ==> IsSchemeChar(h[k])
    requires forall k :: 0 <= k < |port| ==> IsDigit(port[k])
    requires b == '[' || b == ']'
    ensures ValidateUrl(lib, Some(h + ":" + port + [b])) == Err(ValueError(ValidationPrefix + InvalidIpv6Message))
  {
    var t := port + [b];
    var s := h + ":" + t;
    assert s == h + ":" + port + [b];
    forall k | 0 <= k < |t| ensures !IsUnsafe(t[k]) && !EndsNetloc(t[k]) && t[k] != '/' && (k < |port| ==> t[k] != '[' && t[k] != ']') {
      if k < |port| {
        assert t[k] == port[k];
      }
    }
    HostColonForeign(h, t);
    assert s[|s| - 1] == b;
    forall k | 0 <= k < |s| - 1 ensures s[k] != '[' && s[k] != ']' {
      if k < |h| {
        assert s[k] == h[k];
      } else if k > |h| {
        assert s[k] == t[k - |h| - 1];
      }
    }
    assert (if b == '[' then ']' else '[') !in s;
    ForeignNetlocRefused(lib, s, InvalidIpv6Message);
  }

  /** Scheme characters are none of the delimiters `@`, `:`, `#` and `?`. */
  lemma SchemeTextFree(h: string)
    requires forall k :: 0 <= k < |h| ==> IsSchemeChar(h[k])
    ensures '@' !in h && ':' !in h && '#' !in h && '?' !in h
  {
    forall k | 0 <= k < |h| ensures h[k] != '@' && h[k] != ':' && h[k] != '#' && h[k] != '?' { }
  }

  /** Removing `@`, `:`, `#` and `?` from `h:x` leaves `hx`, for a host `h` of scheme characters. */
  lemma DelimitersAfterHost(h: string, x: char)
    requires forall k :: 0 <= k < |h| ==> IsSchemeChar(h[k])
    requires x != '@' && x != ':' && x != '#' && x != '?'
    ensures WithoutDelimiters(h + ":" + [x]) == h + [x]
  {
    SchemeTextFree(h);
    var s := h + [':'] + [x];
    assert h + ":" + [x] == s;
    assert '@' !in s;
    RemoveCharAbsent(s, '@');
    RemoveCharAppend(h + [':'], [x], ':');
    RemoveCharAppend(h, [':'], ':');
    RemoveCharAbsent(h, ':');
    assert RemoveChar([':'], ':') == [];
    assert RemoveChar([x], ':') == [x];
    assert h + [] + [x] == h + [x];
    assert '#' !in h + [x] && '?' !in h + [x];
    RemoveCharAbsent(h + [x], '#');
    RemoveCharAbsent(h + [x], '?');
  }

  /**
   * NFKC normalisation that turns a character into a delimiter makes
   * `urlsplit` raise: a host, `:` and a non-ASCII character `x` that NFKC
   * maps to one of `/?#@:` is refused, as `example.com:＃` (a full-width
   * number sign) is.
   */
  lemma NfkcDelimiterRefused(lib: UrlLib, h: string, x: char, d: char)
    requires h != [] && forall k :: 0 <= k < |h| ==> IsSchemeChar(h[k])
    requires x as int >= 128 && !IsSpace(x)
    requires d == '/' || d == '?' || d == '#' || d == '@' || d == ':'
    requires lib.nfkc(h + [x]) == h + [d]
    ensures ValidateUrl(lib, Some(h + ":" + [x])) == Err(ValueError(ValidationPrefix + NfkcMessage(h + ":" + [x])))
  {
    var s := h + ":" + [x];
    HostColonForeign(h, [x]);
    forall k | 0 <= k < |s| ensures s[k] != '[' && s[k] != ']' && s[k] != '@' && s[k] != '#' && s[k] != '?' {
      if k < |h| {
        assert s[k] == h[k];
      }
    }
    assert !IsAsciiText(s) by {
      assert s[|s| - 1] == x;
    }
    DelimitersAfterHost(h, x);
    assert (h + [d])[|h|] == d != x;
    assert d in lib.nfkc(WithoutDelimiters(s));
    assert NfkcUnsafe(lib, s);
    NfkcRefusal(lib, s);
    ForeignNetlocRefused(lib, s, NfkcMessage(s));
  }
}
