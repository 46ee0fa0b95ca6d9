/**
 The git-remote grammar of yagup/schema.py as a PEG-style recursive-descent
 recognizer. Every parser takes the input and a position and answers with the
 position after what it consumed (with the value it captured), or None when
 it does not match there. As in pyparsing: tokens are greedy and never give
 characters back, Optional(...) falls back to the empty match at its start,
 ZeroOrMore(...) repeats while its body matches, and `|` (MatchFirst) commits
 to the first alternative that matches a prefix of the input.

 Tokens are strictly adjacent: pyparsing's skipping of blanks is not modelled.
 */
module Schema {
  import opened Wrappers

  // ---------------------------------------------------------------------------
  // Characters

  /** pyparsing's `alphanums` and `nums` are ASCII only. */
  predicate IsAlpha(c: char) { 'a' <= c <= 'z' || 'A' <= c <= 'Z' }
  predicate IsDigit(c: char) { '0' <= c <= '9' }
  predicate IsAlnum(c: char) { IsAlpha(c) || IsDigit(c) }

  /** Body characters of USER: alphanums + "_-". */
  predicate IsUserChar(c: char) { IsAlnum(c) || c == '_' || c == '-' }

  /** Characters of PATH: alphanums + "+,/._-~". */
  predicate IsPathChar(c: char) { IsAlnum(c) || c in "+,/._-~" }

  /** Keyword.DEFAULT_KEYWORD_CHARS: alphanums + "_$". */
  predicate IsKeywordChar(c: char) { IsAlnum(c) || c == '_' || c == '$' }

  /** The separators of a hostname: '-' inside a label, '.' between labels. */
  predicate IsHostSep(c: char) { c == '-' || c == '.' }

  /** Python's str.upper on one character, as far as it yields one ASCII
      character: the ASCII lower-case letters, LATIN SMALL LETTER LONG S (to
      'S') and LATIN SMALL LETTER DOTLESS I (to 'I'). Any other character is
      kept as it is. No other character upper-cases to a single ASCII letter,
      digit, '_' or '$', so comparing one character with a keyword letter or a
      keyword character gives Python's answer. A character whose upper case
      is several letters ('\u00DF' to "SS") is the exception discussed at
      CaselessAt. */
  function Upper(c: char): char
  {
    if 'a' <= c <= 'z' then (c as int - 32) as char
    else if c == '\U{17F}' then 'S'
    else if c == '\U{131}' then 'I'
    else c
  }

  /** Lower-casing of ASCII letters (a hostname is ASCII). */
  function Lower(c: char): char
  {
    if 'A' <= c <= 'Z' then (c as int + 32) as char else c
  }

  function LowerString(s: string): (r: string)
    ensures |r| == |s|
    ensures forall k | 0 <= k < |s| :: r[k] == Lower(s[k])
  {
    seq(|s|, k requires 0 <= k < |s| => Lower(s[k]))
  }

  predicate IsLowerCase(s: string)
  {
    forall k | 0 <= k < |s| :: !('A' <= s[k] <= 'Z')
  }

  // ---------------------------------------------------------------------------
  // The values the tokens stand for

  /** A separator at k of s is followed, before b, by an alphanumeric. */
  predicate SepFollowed(s: string, k: nat, b: nat)
    requires k < |s|
  {
    IsHostSep(s[k]) ==> k + 1 < b && k + 1 < |s| && IsAlnum(s[k + 1])
  }

  /** The text of HOSTNAME: alphanumeric runs joined by single '-' or '.'. */
  predicate IsHostname(h: string)
  {
    && |h| > 0
    && IsAlnum(h[0])
    && (forall k | 0 <= k < |h| :: IsAlnum(h[k]) || IsHostSep(h[k]))
    && (forall k | 0 <= k < |h| :: SepFollowed(h, k, |h|))
  }

  /** A hostname neither starts nor ends with a separator, and never holds two in a row. */
  lemma HostnameShape(h: string)
    requires IsHostname(h)
    ensures !IsHostSep(h[0]) && !IsHostSep(h[|h| - 1])
    ensures forall k | 0 <= k < |h| - 1 :: !(IsHostSep(h[k]) && IsHostSep(h[k + 1]))
  {
    assert SepFollowed(h, |h| - 1, |h|);
    forall k | 0 <= k < |h| - 1 ensures !(IsHostSep(h[k]) && IsHostSep(h[k + 1])) {
      assert SepFollowed(h, k, |h|);
    }
  }

  /** The text of USER. */
  predicate IsUser(u: string)
  {
    |u| > 0 && IsAlnum(u[0]) && forall k | 0 <= k < |u| :: IsUserChar(u[k])
  }

  /** The text of PATH. */
  predicate IsPath(p: string)
  {
    |p| > 0 && forall k | 0 <= k < |p| :: IsPathChar(p[k])
  }

  /** The text of PORT. */
  predicate IsDigits(d: string)
  {
    |d| > 0 && forall k | 0 <= k < |d| :: IsDigit(d[k])
  }

  /** The value of the decimal digits d[..n], most significant first. */
  function DigitsValue(d: string, n: nat): nat
    requires n <= |d| && forall k | 0 <= k < |d| :: IsDigit(d[k])
  {
    if n == 0 then 0
    else
      assert IsDigit(d[n - 1]);
      10 * DigitsValue(d, n - 1) + (d[n - 1] as int - '0' as int)
  }

  /** Python's int() of a run of decimal digits (leading zeros allowed). */
  function DecimalValue(d: string): nat
    requires forall k | 0 <= k < |d| :: IsDigit(d[k])
  {
    DigitsValue(d, |d|)
  }

  /** The named results of a match: "scheme", "user", "host", "port", "path". */
  datatype Tokens = Tokens(
    scheme: Option<string>,
    user: Option<string>,
    host: Option<string>,
    port: Option<nat>,
    path: Option<string>)

  // ---------------------------------------------------------------------------
  // Primitive matchers

  /** The end of the longest run of characters satisfying p from i. */
  function Span(s: string, i: nat, p: char -> bool): (j: nat)
    requires i <= |s|
    ensures i <= j <= |s|
    ensures forall k | i <= k < j :: p(s[k])
    ensures j == |s| || !p(s[j])
    decreases |s| - i
  {
    if i < |s| && p(s[i]) then Span(s, i + 1, p) else i
  }

  /** Word(init, body): one character of init, then the longest run of body. */
  function Word(s: string, i: nat, init: char -> bool, body: char -> bool): (r: Option<nat>)
    requires i <= |s|
    ensures r.Some? <==> i < |s| && init(s[i])
    ensures r.Some? ==> i < r.value <= |s|
    ensures r.Some? ==> forall k | i < k < r.value :: body(s[k])
    ensures r.Some? ==> r.value == |s| || !body(s[r.value])
  {
    if i < |s| && init(s[i]) then Some(Span(s, i + 1, body)) else None
  }

  predicate StartsWith(s: string, i: nat, lit: string)
  {
    i + |lit| <= |s| && s[i..i + |lit|] == lit
  }

  /** Literal(lit). */
  function Lit(s: string, i: nat, lit: string): Option<nat>
    requires i <= |s|
  {
    if StartsWith(s, i, lit) then Some(i + |lit|) else None
  }

  /** Keyword(kw): the exact text, with no keyword character right before or after it. */
  function Keyword(s: string, i: nat, kw: string): (r: Option<nat>)
    requires i <= |s|
    ensures r.Some? ==> r.value == i + |kw| <= |s| && s[i..r.value] == kw
    ensures r.Some? ==> r.value == |s| || !IsKeywordChar(s[r.value])
    ensures r.Some? ==> i == 0 || !IsKeywordChar(s[i - 1])
    ensures r.None? ==> !StartsWith(s, i, kw) || (i + |kw| < |s| && IsKeywordChar(s[i + |kw|]))
                        || (0 < i && IsKeywordChar(s[i - 1]))
  {
    if && StartsWith(s, i, kw)
       && (i + |kw| == |s| || !IsKeywordChar(s[i + |kw|]))
       && (i == 0 || !IsKeywordChar(s[i - 1]))
    then Some(i + |kw|)
    else None
  }

  /** The characters at i.. equal kw once both are upper-cased, character by
      character. pyparsing upper-cases the slice of |kw| characters as a
      whole, so a character with a multi-letter upper case lengthens that
      slice: it can then equal kw only when fewer than |kw| characters are
      left ("\u00DFh" matches "ssh"). This comparison rejects that case; no
      scheme keyword is ever matched there, since "://" must follow it. */
  predicate CaselessAt(s: string, i: nat, kw: string)
  {
    i + |kw| <= |s| && forall k | 0 <= k < |kw| :: Upper(s[i + k]) == Upper(kw[k])
  }

  /** CaselessKeyword(kw): kw in any letter case; the neighbours are also
      upper-cased before they are looked up among the keyword characters. */
  function CaselessKeyword(s: string, i: nat, kw: string): (r: Option<nat>)
    requires i <= |s|
    ensures r.Some? ==> r.value == i + |kw| <= |s| && CaselessAt(s, i, kw)
    ensures r.Some? ==> r.value == |s| || !IsKeywordChar(Upper(s[r.value]))
    ensures r.Some? ==> i == 0 || !IsKeywordChar(Upper(s[i - 1]))
    ensures r.None? ==> !CaselessAt(s, i, kw) || (i + |kw| < |s| && IsKeywordChar(Upper(s[i + |kw|])))
                        || (0 < i && IsKeywordChar(Upper(s[i - 1])))
  {
    if && CaselessAt(s, i, kw)
       && (i + |kw| == |s| || !IsKeywordChar(Upper(s[i + |kw|])))
       && (i == 0 || !IsKeywordChar(Upper(s[i - 1])))
    then Some(i + |kw|)
    else None
  }

  // ---------------------------------------------------------------------------
  // Token rules

  /** scheme(kw): a caseless keyword whose token, the keyword's own text, is lower-cased. */
  function SchemeKeyword(s: string, i: nat, kw: string): (r: Option<(string, nat)>)
    requires i <= |s|
    ensures r.Some? <==> CaselessKeyword(s, i, kw).Some?
    ensures r.Some? ==> r.value.1 == i + |kw| && CaselessAt(s, i, kw)
    ensures r.Some? ==> |r.value.0| == |kw| && IsLowerCase(r.value.0)
  {
    match CaselessKeyword(s, i, kw)
    case Some(j) => Some((LowerString(kw), j))
    case None => None
  }

  /** PART = Word(alphanums). */
  function Part(s: string, i: nat): (r: Option<nat>)
    requires i <= |s|
    ensures r.Some? <==> i < |s| && IsAlnum(s[i])
    ensures r.Some? ==> i < r.value <= |s| && forall k | i <= k < r.value :: IsAlnum(s[k])
    ensures r.Some? ==> r.value == |s| || !IsAlnum(s[r.value])
  {
    Word(s, i, IsAlnum, IsAlnum)
  }

  /** Indices a..b of s hold a hostname. */
  predicate HostRegion(s: string, a: nat, b: nat)
  {
    && a < b <= |s|
    && IsAlnum(s[a])
    && (forall k | a <= k < b :: IsAlnum(s[k]) || IsHostSep(s[k]))
    && (forall k | a <= k < b :: SepFollowed(s, k, b))
  }

  predicate DashNext(s: string, b: nat)
  {
    b + 1 < |s| && s[b] == '-' && IsAlnum(s[b + 1])
  }

  predicate DotNext(s: string, b: nat)
  {
    b + 1 < |s| && s[b] == '.' && IsAlnum(s[b + 1])
  }

  /** HOSTNAME, had it stopped at b, would still have consumed more. */
  predicate CanExtend(s: string, b: nat)
  {
    b < |s| && (IsAlnum(s[b]) || DashNext(s, b) || DotNext(s, b))
  }

  lemma LitChar(s: string, i: nat, c: char)
    ensures StartsWith(s, i, [c]) <==> i < |s| && s[i] == c
  {
    if i < |s| {
      assert s[i..i + 1][0] == s[i];
    }
  }

  lemma AlnumRunRegion(s: string, a: nat, b: nat)
    requires a < b <= |s| && forall k | a <= k < b :: IsAlnum(s[k])
    ensures HostRegion(s, a, b)
  {
  }

  lemma JoinRegions(s: string, a: nat, i: nat, b: nat)
    requires HostRegion(s, a, i) && HostRegion(s, i + 1, b) && IsHostSep(s[i])
    ensures HostRegion(s, a, b)
  {
    forall k | a <= k < b ensures SepFollowed(s, k, b) {
      if k < i {
        assert SepFollowed(s, k, i);
      }
    }
  }

  /** Indices a..b of s hold only alphanumerics and '-': no '.' is part of a label. */
  predicate LabelChars(s: string, a: nat, b: nat)
    requires a <= b <= |s|
  {
    forall k | a <= k < b :: IsAlnum(s[k]) || s[k] == '-'
  }

  /** ZeroOrMore("-" + PART): it consumes only alphanumerics and '-', and stops where no
      '-' followed by an alphanumeric comes next. */
  function LabelTail(s: string, i: nat): (j: nat)
    requires i <= |s|
    ensures i <= j <= |s| && LabelChars(s, i, j)
    ensures j == i <==> !DashNext(s, i)
    decreases |s| - i
  {
    LitChar(s, i, '-');
    match Lit(s, i, "-")
    case None => i
    case Some(k) =>
      match Part(s, k)
      case None => i
      case Some(e) => LabelTail(s, e)
  }

  lemma LabelTailStep(s: string, i: nat)
    requires i <= |s|
    ensures DashNext(s, i) ==> LabelTail(s, i) == LabelTail(s, Span(s, i + 2, IsAlnum))
    ensures !DashNext(s, i) ==> LabelTail(s, i) == i
  {
    LitChar(s, i, '-');
    if DashNext(s, i) {
      assert Part(s, i + 1) == Some(Span(s, i + 2, IsAlnum));
    }
  }

  lemma {:induction false} LabelTailShape(s: string, a: nat, i: nat)
    requires HostRegion(s, a, i) && (i == |s| || !IsAlnum(s[i]))
    ensures HostRegion(s, a, LabelTail(s, i))
    ensures LabelTail(s, i) == |s| || !IsAlnum(s[LabelTail(s, i)])
    ensures !DashNext(s, LabelTail(s, i))
    decreases |s| - i
  {
    LabelTailStep(s, i);
    if DashNext(s, i) {
      var e := Span(s, i + 2, IsAlnum);
      AlnumRunRegion(s, i + 1, e);
      JoinRegions(s, a, i, e);
      LabelTailShape(s, a, e);
    }
  }

  /** LABEL = PART + ZeroOrMore("-" + PART). */
  function Label(s: string, i: nat): (r: Option<nat>)
    requires i <= |s|
    ensures r.Some? <==> i < |s| && IsAlnum(s[i])
    ensures r.Some? ==> HostRegion(s, i, r.value) && !DashNext(s, r.value)
    ensures r.Some? ==> LabelChars(s, i, r.value)
    ensures r.Some? ==> r.value == |s| || !IsAlnum(s[r.value])
  {
    match Part(s, i)
    case None => None
    case Some(e) =>
      LabelTailShape(s, i, e);
      Some(LabelTail(s, e))
  }

  /** ZeroOrMore("." + LABEL): it consumes only alphanumerics, '-' and '.', and stops
      where no '.' followed by an alphanumeric comes next. */
  function HostTail(s: string, i: nat): (j: nat)
    requires i <= |s|
    ensures i <= j <= |s|
    ensures forall k | i <= k < j :: IsAlnum(s[k]) || IsHostSep(s[k])
    ensures j == i <==> !DotNext(s, i)
    decreases |s| - i
  {
    LitChar(s, i, '.');
    match Lit(s, i, ".")
    case None => i
    case Some(k) =>
      match Label(s, k)
      case None => i
      case Some(e) => HostTail(s, e)
  }

  lemma HostTailStep(s: string, i: nat)
    requires i <= |s|
    ensures DotNext(s, i) ==> HostTail(s, i) == HostTail(s, Label(s, i + 1).value)
    ensures !DotNext(s, i) ==> HostTail(s, i) == i
  {
    LitChar(s, i, '.');
  }

  lemma {:induction false} HostTailShape(s: string, a: nat, i: nat)
    requires HostRegion(s, a, i) && (i == |s| || !IsAlnum(s[i])) && !DashNext(s, i)
    ensures HostRegion(s, a, HostTail(s, i)) && !CanExtend(s, HostTail(s, i))
    decreases |s| - i
  {
    HostTailStep(s, i);
    if DotNext(s, i) {
      var e := Label(s, i + 1).value;
      JoinRegions(s, a, i, e);
      HostTailShape(s, a, e);
    }
  }

  /** HOSTNAME = LABEL + ZeroOrMore("." + LABEL): the longest hostname at i. */
  function Hostname(s: string, i: nat): (r: Option<nat>)
    requires i <= |s|
    ensures r.Some? <==> i < |s| && IsAlnum(s[i])
    ensures r.Some? ==> HostRegion(s, i, r.value) && !CanExtend(s, r.value)
  {
    match Label(s, i)
    case None => None
    case Some(j) =>
      HostTailShape(s, i, j);
      Some(HostTail(s, j))
  }

  lemma HostRegionIsHostname(s: string, a: nat, b: nat)
    requires HostRegion(s, a, b)
    ensures IsHostname(s[a..b])
    ensures IsHostname(LowerString(s[a..b])) && IsLowerCase(LowerString(s[a..b]))
  {
    var h := s[a..b];
    assert forall k | 0 <= k < |h| :: h[k] == s[a + k];
    var l := LowerString(h);
    assert forall k | 0 <= k < |h| :: IsAlnum(l[k]) == IsAlnum(h[k]) && IsHostSep(l[k]) == IsHostSep(h[k]);
    forall k | 0 <= k < |h| ensures SepFollowed(h, k, |h|) && SepFollowed(l, k, |l|) {
      assert SepFollowed(s, a + k, b);
    }
  }

  /** HOST = Combine(HOSTNAME), lower-cased. */
  function Host(s: string, i: nat): (r: Option<(string, nat)>)
    requires i <= |s|
    ensures r.Some? <==> i < |s| && IsAlnum(s[i])
    ensures r.Some? ==> HostRegion(s, i, r.value.1) && !CanExtend(s, r.value.1)
    ensures r.Some? ==> r.value.0 == LowerString(s[i..r.value.1])
    ensures r.Some? ==> IsHostname(r.value.0) && IsLowerCase(r.value.0)
  {
    match Hostname(s, i)
    case None => None
    case Some(e) =>
      HostRegionIsHostname(s, i, e);
      Some((LowerString(s[i..e]), e))
  }

  /** PORT = Word(nums), read as a decimal number. */
  function Port(s: string, i: nat): (r: Option<(nat, nat)>)
    requires i <= |s|
    ensures r.Some? <==> i < |s| && IsDigit(s[i])
    ensures r.Some? ==> i < r.value.1 <= |s| && IsDigits(s[i..r.value.1])
    ensures r.Some? ==> r.value.1 == |s| || !IsDigit(s[r.value.1])
    ensures r.Some? ==> r.value.0 == DecimalValue(s[i..r.value.1])
  {
    match Word(s, i, IsDigit, IsDigit)
    case None => None
    case Some(e) =>
      assert forall k | 0 <= k < e - i :: s[i..e][k] == s[i + k];
      Some((DecimalValue(s[i..e]), e))
  }

  /** USER = Word(alphanums, alphanums + "_-"). */
  function User(s: string, i: nat): (r: Option<(string, nat)>)
    requires i <= |s|
    ensures r.Some? <==> i < |s| && IsAlnum(s[i])
    ensures r.Some? ==> i < r.value.1 <= |s| && r.value.0 == s[i..r.value.1] && IsUser(r.value.0)
    ensures r.Some? ==> r.value.1 == |s| || !IsUserChar(s[r.value.1])
  {
    match Word(s, i, IsAlnum, IsUserChar)
    case None => None
    case Some(e) =>
      assert forall k | 0 <= k < e - i :: s[i..e][k] == s[i + k];
      Some((s[i..e], e))
  }

  /** PATH = Word(alphanums + "+,/._-~"). */
  function Path(s: string, i: nat): (r: Option<(string, nat)>)
    requires i <= |s|
    ensures r.Some? <==> i < |s| && IsPathChar(s[i])
    ensures r.Some? ==> i < r.value.1 <= |s| && r.value.0 == s[i..r.value.1] && IsPath(r.value.0)
    ensures r.Some? ==> r.value.1 == |s| || !IsPathChar(s[r.value.1])
  {
    match Word(s, i, IsPathChar, IsPathChar)
    case None => None
    case Some(e) =>
      assert forall k | 0 <= k < e - i :: s[i..e][k] == s[i + k];
      Some((s[i..e], e))
  }

  /** Optional(USER + "@"): the user and the position after '@', or nothing at i. */
  function OptionalUser(s: string, i: nat): (r: (Option<string>, nat))
    requires i <= |s|
    ensures r.0.Some? <==> i < |s| && IsAlnum(s[i]) && var e := Span(s, i + 1, IsUserChar);
                                                      e < |s| && s[e] == '@'
    ensures r.0.None? ==> r.1 == i
    ensures r.0.Some? ==> && IsUser(r.0.value) && r.1 == i + |r.0.value| + 1 <= |s|
                          && s[i..r.1] == r.0.value + "@"
  {
    LitChar(s, if i < |s| then Span(s, i + 1, IsUserChar) else i, '@');
    match User(s, i)
    case None => (None, i)
    case Some((u, j)) =>
      match Lit(s, j, "@")
      case None => (None, i)
      case Some(k) => (Some(u), k)
  }

  /** Optional(":" + PORT): the port and the position after its digits, or nothing at i. */
  function OptionalPort(s: string, i: nat): (r: (Option<nat>, nat))
    requires i <= |s|
    ensures r.0.Some? <==> i + 1 < |s| && s[i] == ':' && IsDigit(s[i + 1])
    ensures r.0.None? ==> r.1 == i
    ensures r.0.Some? ==> && i + 1 < r.1 <= |s| && IsDigits(s[i + 1..r.1])
                          && r.0.value == DecimalValue(s[i + 1..r.1])
                          && (r.1 == |s| || !IsDigit(s[r.1]))
  {
    match Lit(s, i, ":")
    case None => (None, i)
    case Some(j) =>
      match Port(s, j)
      case None => (None, i)
      case Some((p, k)) => (Some(p), k)
  }

  // ---------------------------------------------------------------------------
  // Productions

  /** What a form with a host captures: a lower-case hostname, a path and
      possibly a user. */
  predicate RemoteTokens(t: Tokens)
  {
    && t.host.Some? && IsHostname(t.host.value) && IsLowerCase(t.host.value)
    && t.path.Some? && IsPath(t.path.value)
    && (t.user.Some? ==> IsUser(t.user.value))
  }

  /** The input opens with a word of n letters (in any case) and "://". */
  predicate SchemePrefix(s: string, n: nat)
  {
    && n + 3 <= |s| && s[n..n + 3] == "://"
    && forall k | 0 <= k < n :: IsAlpha(Upper(s[k]))
  }

  /** The part the HTTP, SSH and GIT forms share after the scheme keyword:
      "://" + Optional(USER + "@") + HOST + Optional(":" + PORT) + "/" + PATH. */
  function SchemeTail(s: string, i: nat, scheme: string): (r: Option<(Tokens, nat)>)
    requires i <= |s|
    ensures r.Some? ==> StartsWith(s, i, "://") && i + 3 < r.value.1 <= |s|
    ensures r.Some? ==> r.value.0.scheme == Some(scheme) && RemoteTokens(r.value.0)
  {
    match Lit(s, i, "://")
    case None => None
    case Some(j) =>
      var (user, k) := OptionalUser(s, j);
      match Host(s, k)
      case None => None
      case Some((host, m)) =>
        var (port, n) := OptionalPort(s, m);
        match Lit(s, n, "/")
        case None => None
        case Some(p) =>
          match Path(s, p)
          case None => None
          case Some((path, e)) => Some((Tokens(Some(scheme), user, Some(host), port, Some(path)), e))
  }

  lemma SchemeKeywordShape(s: string, kw: string)
    requires kw in ["http", "https", "ssh", "git"]
    ensures SchemeKeyword(s, 0, kw).Some? ==>
              && SchemeKeyword(s, 0, kw).value == (kw, |kw|) && CaselessAt(s, 0, kw)
              && Upper(s[0]) == Upper(kw[0])
              && (StartsWith(s, |kw|, "://") ==> SchemePrefix(s, |kw|))
  {
    assert forall k | 0 <= k < |kw| :: 'a' <= kw[k] <= 'z';
    assert LowerString(kw) == kw;
    if CaselessAt(s, 0, kw) {
      forall k | 0 <= k < |kw| ensures IsAlpha(Upper(s[k])) {
        assert Upper(s[0 + k]) == Upper(kw[k]);
      }
    }
  }

  /** scheme("http") | scheme("https"): "http" is tried first, and it fails on
      "https" because the 's' after it is a keyword character. */
  function HttpScheme(s: string): (r: Option<(string, nat)>)
    ensures r.Some? ==> 0 < |s| && Upper(s[0]) == 'H' && CaselessAt(s, 0, r.value.0)
    ensures r.Some? ==> r.value == ("http", 4) || r.value == ("https", 5)
    ensures r.Some? && StartsWith(s, r.value.1, "://") ==> SchemePrefix(s, r.value.1)
  {
    SchemeKeywordShape(s, "http");
    SchemeKeywordShape(s, "https");
    match SchemeKeyword(s, 0, "http")
    case Some(m) => Some(m)
    case None => SchemeKeyword(s, 0, "https")
  }

  /** HTTP_URL: (scheme("http") | scheme("https")) + the shared tail. */
  function HttpUrl(s: string): (r: Option<(Tokens, nat)>)
    ensures r.Some? ==> r.value.1 <= |s| && RemoteTokens(r.value.0) && 0 < |s| && Upper(s[0]) == 'H'
    ensures r.Some? ==> || (r.value.0.scheme == Some("http") && CaselessAt(s, 0, "http") && SchemePrefix(s, 4))
                        || (r.value.0.scheme == Some("https") && CaselessAt(s, 0, "https") && SchemePrefix(s, 5))
  {
    match HttpScheme(s)
    case None => None
    case Some((scheme, i)) => SchemeTail(s, i, scheme)
  }

  /** SSH_URL: "ssh" + the shared tail. */
  function SshUrl(s: string): (r: Option<(Tokens, nat)>)
    ensures r.Some? ==> r.value.1 <= |s| && RemoteTokens(r.value.0) && 0 < |s| && Upper(s[0]) == 'S'
    ensures r.Some? ==> r.value.0.scheme == Some("ssh") && CaselessAt(s, 0, "ssh") && SchemePrefix(s, 3)
  {
    SchemeKeywordShape(s, "ssh");
    match SchemeKeyword(s, 0, "ssh")
    case None => None
    case Some((scheme, i)) => SchemeTail(s, i, scheme)
  }

  /** set_default_scheme: a match without a scheme gets "ssh". */
  function SetDefaultScheme(t: Tokens): (r: Tokens)
    ensures t.scheme.Some? ==> r == t
    ensures t.scheme.None? ==> r.scheme == Some("ssh")
    ensures r.(scheme := t.scheme) == t
  {
    if t.scheme.None? then t.(scheme := Some("ssh")) else t
  }

  /** SCP_LIKE_SSH_URL: Optional(USER + "@") + HOST + NotAny("://") + ":" + PATH,
      with the scheme defaulted to "ssh". */
  function ScpLikeSshUrl(s: string): (r: Option<(Tokens, nat)>)
    ensures r.Some? ==> r.value.1 <= |s| && RemoteTokens(r.value.0) && 0 < |s| && IsAlnum(s[0])
    ensures r.Some? ==> r.value.0.scheme == Some("ssh") && r.value.0.port.None?
  {
    var (user, j) := OptionalUser(s, 0);
    match Host(s, j)
    case None => None
    case Some((host, k)) =>
      if StartsWith(s, k, "://") then None
      else
        match Lit(s, k, ":")
        case None => None
        case Some(m) =>
          match Path(s, m)
          case None => None
          case Some((path, e)) =>
            Some((SetDefaultScheme(Tokens(None, user, Some(host), None, Some(path))), e))
  }

  /** GIT_URL: "git" + the shared tail. */
  function GitUrl(s: string): (r: Option<(Tokens, nat)>)
    ensures r.Some? ==> r.value.1 <= |s| && RemoteTokens(r.value.0) && 0 < |s| && Upper(s[0]) == 'G'
    ensures r.Some? ==> r.value.0.scheme == Some("git") && CaselessAt(s, 0, "git") && SchemePrefix(s, 3)
  {
    SchemeKeywordShape(s, "git");
    match SchemeKeyword(s, 0, "git")
    case None => None
    case Some((scheme, i)) => SchemeTail(s, i, scheme)
  }

  /** LOCAL_URL: ((Keyword("file") + "://") | "/") + PATH. */
  function LocalUrl(s: string): (r: Option<(Tokens, nat)>)
    ensures r.Some? ==> r.value.1 <= |s|
    ensures r.Some? ==> var t := r.value.0;
              && t.user.None? && t.host.None? && t.port.None?
              && t.path.Some? && IsPath(t.path.value)
    ensures r.Some? ==> var (t, e) := r.value;
              || (t.scheme == Some("file") && StartsWith(s, 0, "file://") && 7 < e && t.path.value == s[7..e])
              || (t.scheme.None? && 0 < |s| && s[0] == '/' && 1 < e && t.path.value == s[1..e])
  {
    var lead: Option<(Option<string>, nat)> :=
      match Keyword(s, 0, "file")
      case Some(i) =>
        (match Lit(s, i, "://")
         case Some(j) => Some((Some("file"), j))
         case None => None)
      case None => None;
    var lead' :=
      if lead.Some? then lead
      else match Lit(s, 0, "/")
           case Some(j) => Some((None, j))
           case None => None;
    match lead'
    case None => None
    case Some((scheme, i)) =>
      match Path(s, i)
      case None => None
      case Some((path, e)) => Some((Tokens(scheme, None, None, None, Some(path)), e))
  }

  // ---------------------------------------------------------------------------
  // The anchored choice

  /** The k-th alternative of URL, in the order they are tried. */
  function Production(k: nat, s: string): (r: Option<(Tokens, nat)>)
    requires k < 5
    ensures r.Some? ==> r.value.1 <= |s| && r.value.0.path.Some? && IsPath(r.value.0.path.value)
  {
    if k == 0 then HttpUrl(s)
    else if k == 1 then SshUrl(s)
    else if k == 2 then GitUrl(s)
    else if k == 3 then ScpLikeSshUrl(s)
    else LocalUrl(s)
  }

  /** MatchFirst over the alternatives k..4: the first one that matches a prefix. */
  function MatchFirst(s: string, k: nat): (r: Option<(Tokens, nat)>)
    requires k <= 5
    ensures r.Some? ==> r.value.1 <= |s| && r.value.0.path.Some? && IsPath(r.value.0.path.value)
    decreases 5 - k
  {
    if k == 5 then None
    else match Production(k, s)
         case Some(m) => Some(m)
         case None => MatchFirst(s, k + 1)
  }

  /** LineEnd after the committed alternative: it must have consumed everything. */
  function Anchored(m: Option<(Tokens, nat)>, n: nat): Option<Tokens>
  {
    match m
    case Some((t, e)) => if e == n then Some(t) else None
    case None => None
  }

  /** URL = LineStart + (HTTP_URL | SSH_URL | GIT_URL | SCP_LIKE_SSH_URL | LOCAL_URL) + LineEnd. */
  function Url(s: string): (r: Option<Tokens>)
    ensures r.Some? ==> |s| > 0 && r.value.path.Some? && IsPath(r.value.path.value)
  {
    Anchored(MatchFirst(s, 0), |s|)
  }
}
