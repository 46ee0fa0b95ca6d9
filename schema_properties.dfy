/**
 What the grammar of yagup/schema.py accepts and what it captures: each token
 reads exactly the text it should, the five URL forms never both match one
 input, so committing to the first prefix match is the same as taking the
 first form that matches the whole line, and every string of each form's
 shape is accepted with the fields it spells.
 */
module SchemaProperties {
  import opened Wrappers
  import opened Schema

  // ---------------------------------------------------------------------------
  // Pieces of a remote location, as they are written

  /** Optional(USER + "@"), written out. */
  function UserPart(user: Option<string>): string
  {
    match user
    case Some(u) => u + "@"
    case None => ""
  }

  /** Optional(":" + PORT), written out with the given digits. */
  function PortPart(digits: Option<string>): string
  {
    match digits
    case Some(d) => ":" + d
    case None => ""
  }

  predicate ValidDigits(digits: Option<string>)
  {
    digits.Some? ==> IsDigits(digits.value)
  }

  function PortValue(digits: Option<string>): Option<nat>
    requires ValidDigits(digits)
  {
    match digits
    case Some(d) => Some(DecimalValue(d))
    case None => None
  }

  predicate ValidUser(user: Option<string>)
  {
    user.Some? ==> IsUser(user.value)
  }

  /** The scheme keywords of the HTTP, SSH and GIT forms. */
  predicate IsExplicitScheme(scheme: string)
  {
    scheme == "http" || scheme == "https" || scheme == "ssh" || scheme == "git"
  }

  /** w is the scheme keyword written in some letter case. */
  predicate Spells(w: string, scheme: string)
  {
    |w| == |scheme| && forall k | 0 <= k < |w| :: Upper(w[k]) == Upper(scheme[k])
  }

  /** The alternative of URL that a scheme keyword belongs to. */
  function SchemeIndex(scheme: string): nat
    requires IsExplicitScheme(scheme)
  {
    if scheme == "http" || scheme == "https" then 0
    else if scheme == "ssh" then 1
    else 2
  }

  // ---------------------------------------------------------------------------
  // Sequence helpers (positions are passed as named values: slices at sums of
  // positions are much harder for the solver than slices at plain variables)

  lemma Behead(s: string, i: nat, j: nat, a: string, b: string)
    requires i <= |s| && s[i..] == a + b && j == i + |a|
    ensures j <= |s| && s[i..j] == a && s[j..] == b
  {
    assert s[i..][..|a|] == a;
    assert s[i..][|a|..] == b;
  }

  // ---------------------------------------------------------------------------
  // Each token reads exactly its text

  lemma SpanExact(s: string, i: nat, n: nat, p: char -> bool)
    requires i + n <= |s|
    requires forall k | i <= k < i + n :: p(s[k])
    requires i + n == |s| || !p(s[i + n])
    ensures Span(s, i, p) == i + n
  {
  }

  lemma WordExact(s: string, i: nat, j: nat, init: char -> bool, body: char -> bool)
    requires i < j <= |s| && init(s[i])
    requires forall k | i < k < j :: body(s[k])
    requires j == |s| || !body(s[j])
    ensures Word(s, i, init, body) == Some(j)
  {
    SpanExact(s, i + 1, j - i - 1, body);
  }

  /** A hostname that cannot be extended is the only one starting at a. */
  lemma MaximalHostUnique(s: string, a: nat, b1: nat, b2: nat)
    requires HostRegion(s, a, b1) && !CanExtend(s, b1)
    requires HostRegion(s, a, b2) && !CanExtend(s, b2)
    ensures b1 == b2
  {
    assert b1 < b2 ==> SepFollowed(s, b1, b2);
    assert b2 < b1 ==> SepFollowed(s, b2, b1);
  }

  lemma HostReads(s: string, k: nat, m: nat, h: string, rest: string)
    requires k <= |s| && s[k..] == h + rest && m == k + |h| && IsHostname(h)
    requires rest == [] || (!IsAlnum(rest[0]) && !IsHostSep(rest[0]))
    ensures m <= |s| && Host(s, k) == Some((LowerString(h), m)) && s[m..] == rest
  {
    Behead(s, k, m, h, rest);
    assert HostRegion(s, k, m) && !CanExtend(s, m) by {
      forall x | k <= x < m ensures s[x] == h[x - k] {
        assert s[k..m][x - k] == h[x - k];
      }
      forall x | k <= x < m ensures SepFollowed(s, x, m) {
        assert SepFollowed(h, x - k, |h|);
      }
      if m < |s| {
        assert s[m] == rest[0] by { assert s[m..][0] == rest[0]; }
      }
    }
    MaximalHostUnique(s, k, m, Host(s, k).value.1);
  }

  lemma OptionalUserReads(s: string, i: nat, k: nat, u: string, rest: string)
    requires i <= |s| && s[i..] == u + "@" + rest && k == i + |u| + 1 && IsUser(u)
    ensures OptionalUser(s, i) == (Some(u), k)
  {
    var j := i + |u|;
    assert s[i..] == u + ("@" + rest);
    Behead(s, i, j, u, "@" + rest);
    forall x | i <= x < j ensures s[x] == u[x - i] {
      assert s[i..j][x - i] == u[x - i];
    }
    assert s[j] == '@' by { assert s[j..][0] == ("@" + rest)[0]; }
    WordExact(s, i, j, IsAlnum, IsUserChar);
    LitChar(s, j, '@');
  }

  lemma OptionalUserAbsent(s: string, i: nat, m: nat)
    requires i <= m <= |s| && (m == |s| || (!IsUserChar(s[m]) && s[m] != '@'))
    requires forall x | i <= x < m :: s[x] != '@'
    ensures OptionalUser(s, i) == (None, i)
  {
    match User(s, i)
    case None =>
    case Some((u, j)) =>
      assert j <= m;
      LitChar(s, j, '@');
  }

  lemma PortAt(s: string, a: nat, n: nat, d: string)
    requires n == a + |d| <= |s| && IsDigits(d)
    requires forall x | a <= x < n :: s[x] == d[x - a]
    requires n == |s| || !IsDigit(s[n])
    ensures Port(s, a) == Some((DecimalValue(d), n))
  {
    WordExact(s, a, n, IsDigit, IsDigit);
    assert s[a..n] == d;
  }

  lemma OptionalPortReads(s: string, m: nat, n: nat, d: string, rest: string)
    requires m <= |s| && s[m..] == ":" + d + rest && n == m + 1 + |d| && IsDigits(d)
    requires rest == [] || !IsDigit(rest[0])
    ensures OptionalPort(s, m) == (Some(DecimalValue(d)), n)
  {
    var a := m + 1;
    assert s[m..] == ":" + (d + rest);
    Behead(s, m, a, ":", d + rest);
    Behead(s, a, n, d, rest);
    LitChar(s, m, ':');
    forall x | a <= x < n ensures s[x] == d[x - a] {
      assert s[a..n][x - a] == d[x - a];
    }
    if n < |s| {
      assert s[n] == rest[0] by { assert s[n..][0] == rest[0]; }
    }
    PortAt(s, a, n, d);
  }

  lemma OptionalPortAbsent(s: string, m: nat)
    requires m < |s| && s[m] != ':'
    ensures OptionalPort(s, m) == (None, m)
  {
    LitChar(s, m, ':');
  }

  lemma PathReads(s: string, i: nat)
    requires i < |s| && forall x | i <= x < |s| :: IsPathChar(s[x])
    ensures Path(s, i) == Some((s[i..], |s|))
  {
    WordExact(s, i, |s|, IsPathChar, IsPathChar);
    assert s[i..|s|] == s[i..];
  }

  // ---------------------------------------------------------------------------
  // The shared tail "://" + Optional(USER + "@") + HOST + Optional(":" + PORT) + "/" + PATH

  /** Before a hostname that is followed by ':', '/' or nothing, no user is read. */
  lemma UserAbsentReads(s: string, j: nat, host: string, rest: string)
    requires j <= |s| && s[j..] == host + rest && IsHostname(host)
    requires rest == [] || rest[0] == ':' || rest[0] == '/'
    ensures OptionalUser(s, j) == (None, j)
  {
    var m := j + |host|;
    Behead(s, j, m, host, rest);
    if m < |s| {
      assert s[m] == rest[0] by { assert s[m..][0] == rest[0]; }
    }
    forall x | j <= x < m ensures s[x] != '@' {
      assert s[x] == host[x - j] by { assert s[j..m][x - j] == host[x - j]; }
    }
    OptionalUserAbsent(s, j, m);
  }

  lemma UserPartReads(s: string, j: nat, k: nat, user: Option<string>, host: string, rest: string)
    requires j <= |s| && s[j..] == UserPart(user) + host + rest && k == j + |UserPart(user)|
    requires ValidUser(user) && IsHostname(host)
    requires rest == [] || rest[0] == ':' || rest[0] == '/'
    ensures OptionalUser(s, j) == (user, k) && s[k..] == host + rest
  {
    assert s[j..] == UserPart(user) + (host + rest);
    Behead(s, j, k, UserPart(user), host + rest);
    match user
    case Some(u) =>
      assert s[j..] == u + "@" + (host + rest);
      OptionalUserReads(s, j, k, u, host + rest);
    case None =>
      UserAbsentReads(s, j, host, rest);
  }

  lemma UserHostReads(s: string, j: nat, k: nat, m: nat, user: Option<string>, host: string, rest: string)
    requires j <= |s| && s[j..] == UserPart(user) + host + rest
    requires k == j + |UserPart(user)| && m == k + |host|
    requires ValidUser(user) && IsHostname(host)
    requires rest == [] || rest[0] == ':' || rest[0] == '/'
    ensures OptionalUser(s, j) == (user, k)
    ensures m <= |s| && Host(s, k) == Some((LowerString(host), m)) && s[m..] == rest
  {
    UserPartReads(s, j, k, user, host, rest);
    HostReads(s, k, m, host, rest);
  }

  lemma PortPartReads(s: string, m: nat, n: nat, digits: Option<string>, path: string)
    requires m <= |s| && s[m..] == PortPart(digits) + "/" + path && n == m + |PortPart(digits)|
    requires ValidDigits(digits)
    ensures OptionalPort(s, m) == (PortValue(digits), n) && s[n..] == "/" + path
  {
    Behead(s, m, n, PortPart(digits), "/" + path);
    match digits
    case Some(d) =>
      assert s[m..] == ":" + d + ("/" + path);
      OptionalPortReads(s, m, n, d, "/" + path);
    case None =>
      assert s[m..][0] == '/';
      OptionalPortAbsent(s, m);
  }

  lemma PathPartReads(s: string, n: nat, p: nat, sep: char, path: string)
    requires n <= |s| && s[n..] == [sep] + path && p == n + 1 && IsPath(path)
    ensures Lit(s, n, [sep]) == Some(p) && Path(s, p) == Some((path, |s|))
  {
    Behead(s, n, p, [sep], path);
    LitChar(s, n, sep);
    forall x | p <= x < |s| ensures IsPathChar(s[x]) {
      assert s[x] == path[x - p] by { assert s[p..][x - p] == path[x - p]; }
    }
    PathReads(s, p);
  }

  lemma LiteralReads(s: string, i: nat, j: nat, lit: string, rest: string)
    requires i <= |s| && s[i..] == lit + rest && j == i + |lit|
    ensures Lit(s, i, lit) == Some(j) && s[j..] == rest
  {
    Behead(s, i, j, lit, rest);
  }

  lemma SchemeTailSteps(s: string, i: nat, j: nat, scheme: string, user: Option<string>, k: nat,
                        host: string, m: nat, port: Option<nat>, n: nat, p: nat, path: string, e: nat)
    requires i <= |s| && k <= |s| && m <= |s| && n <= |s|
    requires Lit(s, i, "://") == Some(j)
    requires OptionalUser(s, j) == (user, k)
    requires Host(s, k) == Some((host, m))
    requires OptionalPort(s, m) == (port, n)
    requires Lit(s, n, "/") == Some(p)
    requires Path(s, p) == Some((path, e))
    ensures SchemeTail(s, i, scheme) == Some((Tokens(Some(scheme), user, Some(host), port, Some(path)), e))
  {
  }

  lemma PortOnwardReads(s: string, m: nat, n: nat, p: nat, digits: Option<string>, path: string)
    requires m <= |s| && s[m..] == PortPart(digits) + "/" + path
    requires n == m + |PortPart(digits)| && p == n + 1 && ValidDigits(digits) && IsPath(path)
    ensures OptionalPort(s, m) == (PortValue(digits), n)
    ensures Lit(s, n, "/") == Some(p) && Path(s, p) == Some((path, |s|))
  {
    PortPartReads(s, m, n, digits, path);
    PathPartReads(s, n, p, '/', path);
  }

  lemma HostOnwardReads(s: string, k: nat, m: nat, n: nat, p: nat, host: string, digits: Option<string>, path: string)
    requires k <= |s| && s[k..] == host + (PortPart(digits) + "/" + path)
    requires m == k + |host| && n == m + |PortPart(digits)| && p == n + 1
    requires IsHostname(host) && ValidDigits(digits) && IsPath(path)
    ensures Host(s, k) == Some((LowerString(host), m))
    ensures OptionalPort(s, m) == (PortValue(digits), n)
    ensures Lit(s, n, "/") == Some(p) && Path(s, p) == Some((path, |s|))
  {
    var rest := PortPart(digits) + "/" + path;
    assert rest[0] == ':' || rest[0] == '/';
    HostReads(s, k, m, host, rest);
    PortOnwardReads(s, m, n, p, digits, path);
  }

  lemma UserOnwardReads(s: string, j: nat, k: nat, m: nat, n: nat, p: nat,
                        user: Option<string>, host: string, digits: Option<string>, path: string)
    requires j <= |s| && s[j..] == UserPart(user) + host + (PortPart(digits) + "/" + path)
    requires k == j + |UserPart(user)| && m == k + |host| && n == m + |PortPart(digits)| && p == n + 1
    requires ValidUser(user) && IsHostname(host) && ValidDigits(digits) && IsPath(path)
    ensures OptionalUser(s, j) == (user, k)
    ensures Host(s, k) == Some((LowerString(host), m))
    ensures OptionalPort(s, m) == (PortValue(digits), n)
    ensures Lit(s, n, "/") == Some(p) && Path(s, p) == Some((path, |s|))
  {
    var rest := PortPart(digits) + "/" + path;
    assert rest[0] == ':' || rest[0] == '/';
    UserPartReads(s, j, k, user, host, rest);
    HostOnwardReads(s, k, m, n, p, host, digits, path);
  }

  lemma TailRegroup(u: string, h: string, q: string, path: string)
    ensures "://" + u + h + q + "/" + path == "://" + (u + h + (q + "/" + path))
  {
  }

  /** The shared tail of the HTTP, SSH and GIT forms reads back every part it is built from. */
  lemma SchemeTailReads(s: string, i: nat, scheme: string, user: Option<string>, host: string,
                        digits: Option<string>, path: string)
    requires i <= |s| && s[i..] == "://" + UserPart(user) + host + PortPart(digits) + "/" + path
    requires ValidUser(user) && IsHostname(host) && ValidDigits(digits) && IsPath(path)
    ensures SchemeTail(s, i, scheme) ==
              Some((Tokens(Some(scheme), user, Some(LowerString(host)), PortValue(digits), Some(path)), |s|))
  {
    var j := i + 3;
    var k := j + |UserPart(user)|;
    var m := k + |host|;
    var n := m + |PortPart(digits)|;
    var p := n + 1;
    var tail := UserPart(user) + host + (PortPart(digits) + "/" + path);
    TailRegroup(UserPart(user), host, PortPart(digits), path);
    LiteralReads(s, i, j, "://", tail);
    UserOnwardReads(s, j, k, m, n, p, user, host, digits, path);
    SchemeTailSteps(s, i, j, scheme, user, k, LowerString(host), m, PortValue(digits), n, p, path, |s|);
  }

  // ---------------------------------------------------------------------------
  // Scheme keywords and the word before "://"

  /** A scheme keyword spelled in any letter case and followed by ':' is read, as the keyword's own text. */
  lemma SpelledKeyword(s: string, w: string, kw: string)
    requires IsExplicitScheme(kw) && Spells(w, kw)
    requires |w| < |s| && (forall k | 0 <= k < |w| :: s[k] == w[k]) && s[|w|] == ':'
    ensures SchemeKeyword(s, 0, kw) == Some((kw, |w|))
  {
    forall k | 0 <= k < |kw| ensures Upper(s[0 + k]) == Upper(kw[k]) {
      assert s[k] == w[k];
    }
    SchemeKeywordShape(s, kw);
  }

  /** "http" is tried first; it is refused in front of the 's' of "https". */
  lemma HttpSchemeReads(s: string, w: string, kw: string)
    requires kw == "http" || kw == "https"
    requires Spells(w, kw) && |w| < |s| && (forall k | 0 <= k < |w| :: s[k] == w[k]) && s[|w|] == ':'
    ensures HttpScheme(s) == Some((kw, |w|))
  {
    SpelledKeyword(s, w, kw);
    if kw == "https" {
      assert Upper(s[4]) == 'S' by {
        assert s[4] == w[4];
        assert Upper(w[4]) == Upper(kw[4]);
      }
    }
  }

  /** The alternative a spelled scheme belongs to is the shared tail after the word. */
  lemma ExplicitProduction(s: string, w: string, kw: string)
    requires IsExplicitScheme(kw) && Spells(w, kw)
    requires |w| < |s| && (forall k | 0 <= k < |w| :: s[k] == w[k]) && s[|w|] == ':'
    ensures Production(SchemeIndex(kw), s) == SchemeTail(s, |w|, kw)
  {
    if kw == "http" || kw == "https" {
      HttpSchemeReads(s, w, kw);
    } else {
      SpelledKeyword(s, w, kw);
    }
  }

  /** A word of letters followed by "://" has only one possible length. */
  lemma SchemePrefixUnique(s: string, n1: nat, n2: nat)
    ensures SchemePrefix(s, n1) && SchemePrefix(s, n2) ==> n1 == n2
  {
    assert n1 + 3 <= |s| ==> s[n1..n1 + 3][0] == s[n1];
    assert n2 + 3 <= |s| ==> s[n2..n2 + 3][0] == s[n2];
  }

  lemma ColonAfterWord(s: string, n: nat)
    requires SchemePrefix(s, n)
    ensures s[n] == ':'
  {
    assert s[n..n + 3][0] == s[n];
  }

  /** SCP_LIKE_SSH_URL never matches a word of letters followed by "://": either the
      hostname stops inside the word, where no ':' follows, or it ends at "://". */
  lemma ScpRejectsSchemePrefix(s: string, n: nat)
    ensures SchemePrefix(s, n) ==> ScpLikeSshUrl(s) == None
  {
    if SchemePrefix(s, n) {
      WordBeforeColon(s, n);
      ScpRejectsColonWord(s, n);
    }
  }

  lemma WordBeforeColon(s: string, n: nat)
    requires SchemePrefix(s, n)
    ensures n < |s| && s[n] == ':' && StartsWith(s, n, "://")
    ensures forall x | 0 <= x < n :: s[x] != '@' && s[x] != ':'
  {
    ColonAfterWord(s, n);
    forall x | 0 <= x < n ensures s[x] != '@' && s[x] != ':' {
      assert IsAlpha(Upper(s[x]));
    }
  }

  /** Before the first ':' there is no '@', and that ':' opens "://": the hostname
      stops at or before it, and no ':' path separator can follow. */
  lemma ScpRejectsColonWord(s: string, n: nat)
    requires n < |s| && s[n] == ':' && StartsWith(s, n, "://")
    requires forall x | 0 <= x < n :: s[x] != '@' && s[x] != ':'
    ensures ScpLikeSshUrl(s) == None
  {
    OptionalUserAbsent(s, 0, n);
    match Host(s, 0)
    case None =>
    case Some((h, k)) =>
      assert k <= n by {
        assert !IsAlnum(s[n]) && !IsHostSep(s[n]);
      }
      if k == n {
        ScpStopsAtScheme(s, None, 0, h, k);
      } else {
        LitChar(s, k, ':');
      }
  }

  lemma FileWord(s: string)
    ensures StartsWith(s, 0, "file://") ==> SchemePrefix(s, 4) && s[..4] == "file"
  {
    if StartsWith(s, 0, "file://") {
      forall k | 0 <= k < 7 ensures s[k] == "file://"[k] {
        assert s[0..7][k] == s[k];
      }
      assert s[4..7] == "://";
      assert s[..4] == "file";
    }
  }

  /** When Keyword("file") and "://" both match, the word before "://" is "file". */
  lemma FileKeywordWord(s: string, n: nat)
    ensures SchemePrefix(s, n) && Keyword(s, 0, "file").Some? && Lit(s, 4, "://").Some? ==> s[..n] == "file"
  {
    if SchemePrefix(s, n) && Keyword(s, 0, "file").Some? && Lit(s, 4, "://").Some? {
      forall k | 0 <= k < 4 ensures s[k] == "file"[k] {
        assert s[0..4][k] == s[k];
      }
      assert SchemePrefix(s, 4);
      SchemePrefixUnique(s, 4, n);
      assert s[..4] == "file";
    }
  }

  /** LOCAL_URL never matches a word of letters followed by "://" unless that word is "file". */
  lemma LocalRejectsSchemePrefix(s: string, n: nat)
    ensures SchemePrefix(s, n) && s[..n] != "file" ==> LocalUrl(s) == None
  {
    FileKeywordWord(s, n);
    LitChar(s, 0, '/');
    assert n == 0 && 3 <= |s| ==> s[0..3][0] == s[0];
  }

  lemma FileWordFirst(s: string, n: nat)
    ensures n <= |s| && s[..n] == "file" ==> 0 < |s| && s[0] == 'f'
  {
    if n <= |s| && s[..n] == "file" {
      assert s[..n][0] == s[0];
    }
  }

  // ---------------------------------------------------------------------------
  // The ordered choice

  /** No input matches two alternatives of URL, not even on different prefixes. */
  lemma ProductionsDisjoint(s: string, j: nat, k: nat)
    requires j < k < 5
    ensures Production(j, s).None? || Production(k, s).None?
  {
    if k < 3 {
      SchemeFormsDisjoint(s, j, k);
    } else if k == 3 {
      ScpAfterSchemeForms(s, j);
    } else {
      LocalAfterOtherForms(s, j);
    }
  }

  /** The HTTP, SSH and GIT forms open with different letters: H, S and G. */
  lemma SchemeFormsDisjoint(s: string, j: nat, k: nat)
    requires j < k < 3
    ensures Production(j, s).None? || Production(k, s).None?
  {
    if j == 0 && k == 1 {
      assert Production(j, s) == HttpUrl(s) && Production(k, s) == SshUrl(s);
    } else if j == 0 {
      assert Production(j, s) == HttpUrl(s) && Production(k, s) == GitUrl(s);
    } else {
      assert Production(j, s) == SshUrl(s) && Production(k, s) == GitUrl(s);
    }
  }

  /** An input that an HTTP, SSH or GIT form matches is not scp-like. */
  lemma ScpAfterSchemeForms(s: string, j: nat)
    requires j < 3
    ensures Production(j, s).None? || ScpLikeSshUrl(s).None?
  {
    ScpRejectsSchemePrefix(s, 3);
    ScpRejectsSchemePrefix(s, 4);
    ScpRejectsSchemePrefix(s, 5);
  }

  /** An input that any other form matches is not a local location. */
  lemma LocalAfterOtherForms(s: string, j: nat)
    requires j < 4
    ensures Production(j, s).None? || LocalUrl(s).None?
  {
    ScpRejectsSchemePrefix(s, 4);
    LocalRejectsSchemePrefix(s, 3);
    LocalRejectsSchemePrefix(s, 4);
    LocalRejectsSchemePrefix(s, 5);
    FileWordFirst(s, 3);
    FileWordFirst(s, 4);
    FileWordFirst(s, 5);
    FileWord(s);
  }

  lemma {:induction false} MatchFirstFrom(s: string, j: nat, k: nat)
    requires j <= k < 5 && Production(k, s).Some?
    ensures MatchFirst(s, j) == Production(k, s)
    decreases k - j
  {
    if j < k {
      ProductionsDisjoint(s, j, k);
      MatchFirstFrom(s, j + 1, k);
    }
  }

  lemma {:induction false} MatchFirstFound(s: string, j: nat)
    requires j <= 5
    ensures MatchFirst(s, j).Some? ==> exists k | j <= k < 5 :: MatchFirst(s, j) == Production(k, s)
    decreases 5 - j
  {
    if j < 5 {
      if Production(j, s).Some? {
        assert MatchFirst(s, j) == Production(j, s);
      } else {
        MatchFirstFound(s, j + 1);
      }
    }
  }

  /** URL accepts exactly the inputs that one of its five alternatives matches from the
      first to the last character: committing to the first prefix match loses nothing,
      because no two alternatives ever match the same input. */
  lemma UrlIsTheFullMatch(s: string, t: Tokens)
    ensures Url(s) == Some(t) <==> exists k | 0 <= k < 5 :: Production(k, s) == Some((t, |s|))
  {
    if Url(s) == Some(t) {
      MatchFirstFound(s, 0);
    }
    if exists k | 0 <= k < 5 :: Production(k, s) == Some((t, |s|)) {
      var k :| 0 <= k < 5 && Production(k, s) == Some((t, |s|));
      MatchFirstFrom(s, 0, k);
    }
  }

  /** When no alternative matches, URL rejects the input. */
  lemma {:induction false} MatchFirstNone(s: string, j: nat)
    requires j <= 5 && forall k | j <= k < 5 :: Production(k, s).None?
    ensures MatchFirst(s, j) == None
    decreases 5 - j
  {
    if j < 5 {
      MatchFirstNone(s, j + 1);
    }
  }

  /** When every other alternative fails, URL is decided by alternative i alone. */
  lemma MatchFirstOnly(s: string, i: nat)
    requires i < 5 && forall k | 0 <= k < 5 && k != i :: Production(k, s).None?
    ensures MatchFirst(s, 0) == Production(i, s)
  {
    if Production(i, s).Some? {
      MatchFirstFrom(s, 0, i);
    } else {
      MatchFirstNone(s, 0);
    }
  }

  // ---------------------------------------------------------------------------
  // The forms URL accepts and rejects

  /** The input opens with the word w and "://". */
  predicate OpensWith(s: string, w: string)
  {
    |w| + 3 <= |s| && (forall k | 0 <= k < |w| :: s[k] == w[k]) && s[|w|..|w| + 3] == "://"
  }

  lemma OpensWithPrefix(s: string, w: string)
    requires OpensWith(s, w) && forall k | 0 <= k < |w| :: IsAlpha(Upper(w[k]))
    ensures SchemePrefix(s, |w|) && s[..|w|] == w && s[|w|] == ':'
  {
    ColonAfterWord(s, |w|);
  }

  lemma SpelledLetters(w: string, kw: string)
    requires IsExplicitScheme(kw) && Spells(w, kw)
    ensures |w| > 0 && forall k | 0 <= k < |w| :: IsAlpha(Upper(w[k]))
  {
    assert forall k | 0 <= k < |kw| :: 'a' <= kw[k] <= 'z';
  }

  /** A spelled scheme keyword followed by "://" leaves only its own alternative. */
  lemma ExplicitOthersFail(s: string, w: string, kw: string)
    requires IsExplicitScheme(kw) && Spells(w, kw) && OpensWith(s, w)
    ensures forall k | 0 <= k < 5 && k != SchemeIndex(kw) :: Production(k, s).None?
  {
    SpelledLetters(w, kw);
    OpensWithPrefix(s, w);
    ScpRejectsSchemePrefix(s, |w|);
    FileWordFirst(s, |w|);
    LocalRejectsSchemePrefix(s, |w|);
    assert Upper(s[0]) == Upper(kw[0]) by { assert s[0] == w[0]; }
  }

  /** An input that opens with a spelled scheme keyword and "://" is judged by the
      shared tail after the keyword alone. */
  lemma ExplicitFormUrl(s: string, w: string, kw: string)
    requires IsExplicitScheme(kw) && Spells(w, kw) && OpensWith(s, w)
    ensures Url(s) == Anchored(SchemeTail(s, |w|, kw), |s|)
  {
    SpelledLetters(w, kw);
    OpensWithPrefix(s, w);
    ExplicitOthersFail(s, w, kw);
    ExplicitProduction(s, w, kw);
    MatchFirstOnly(s, SchemeIndex(kw));
  }

  lemma FormRegroup(w: string, tail: string, u: string, h: string, q: string, path: string)
    requires tail == "://" + u + h + q + "/" + path
    ensures w + "://" + u + h + q + "/" + path == w + tail
  {
  }

  lemma OpensWithWord(s: string, w: string, tail: string)
    requires s == w + tail && |tail| >= 3 && tail[..3] == "://"
    ensures OpensWith(s, w) && s[|w|..] == tail
  {
    assert s[|w|..|w| + 3] == tail[..3];
  }

  /** Every input of the HTTP, SSH or GIT form, the scheme written in any letter case,
      is accepted with the scheme's own lower-case text, the user, the lower-cased host,
      the port's decimal value and the path it is written with. */
  lemma ExplicitFormAccepted(w: string, kw: string, user: Option<string>, host: string,
                             digits: Option<string>, path: string)
    requires IsExplicitScheme(kw) && Spells(w, kw)
    requires ValidUser(user) && IsHostname(host) && ValidDigits(digits) && IsPath(path)
    ensures Url(w + "://" + UserPart(user) + host + PortPart(digits) + "/" + path)
              == Some(Tokens(Some(kw), user, Some(LowerString(host)), PortValue(digits), Some(path)))
  {
    var tail := "://" + UserPart(user) + host + PortPart(digits) + "/" + path;
    var s := w + tail;
    FormRegroup(w, tail, UserPart(user), host, PortPart(digits), path);
    OpensWithWord(s, w, tail);
    ExplicitFormUrl(s, w, kw);
    SchemeTailReads(s, |w|, kw, user, host, digits, path);
  }

  lemma SchemeTailStops(s: string, i: nat, j: nat, scheme: string, user: Option<string>, k: nat,
                        host: string, m: nat, port: Option<nat>, n: nat)
    requires i <= |s| && k <= |s| && m <= |s| && n <= |s|
    requires Lit(s, i, "://") == Some(j)
    requires OptionalUser(s, j) == (user, k)
    requires Host(s, k) == Some((host, m))
    requires OptionalPort(s, m) == (port, n)
    requires Lit(s, n, "/") == None
    ensures SchemeTail(s, i, scheme) == None
  {
  }

  lemma PortlessRegroup(w: string, u: string, h: string, rest: string)
    ensures w + "://" + u + h + ":" + rest == w + ("://" + (u + h + (":" + rest)))
  {
  }

  lemma TailStopsAtColon(s: string, i: nat, scheme: string, user: Option<string>, host: string, rest: string)
    requires i <= |s| && s[i..] == "://" + (UserPart(user) + host + (":" + rest))
    requires ValidUser(user) && IsHostname(host) && (rest == [] || !IsDigit(rest[0]))
    ensures SchemeTail(s, i, scheme) == None
  {
    var j := i + 3;
    var k := j + |UserPart(user)|;
    var m := k + |host|;
    LiteralReads(s, i, j, "://", UserPart(user) + host + (":" + rest));
    UserHostReads(s, j, k, m, user, host, ":" + rest);
    assert s[m] == ':' && (m + 1 < |s| ==> s[m + 1] == rest[0]) by {
      assert s[m..][0] == ':';
      assert m + 1 < |s| ==> s[m..][1] == (":" + rest)[1];
    }
    LitChar(s, m, '/');
    SchemeTailStops(s, i, j, scheme, user, k, LowerString(host), m, None, m);
  }

  /** After the host of an HTTP, SSH or GIT form, a ':' must open a port: a ':' followed
      by anything but a digit leaves no '/' for the path, and the input is rejected. */
  lemma ExplicitFormRejectsNonNumericPort(w: string, kw: string, user: Option<string>, host: string, rest: string)
    requires IsExplicitScheme(kw) && Spells(w, kw) && ValidUser(user) && IsHostname(host)
    requires rest == [] || !IsDigit(rest[0])
    ensures Url(w + "://" + UserPart(user) + host + ":" + rest) == None
  {
    var tail := "://" + (UserPart(user) + host + (":" + rest));
    var s := w + tail;
    PortlessRegroup(w, UserPart(user), host, rest);
    OpensWithWord(s, w, tail);
    ExplicitFormUrl(s, w, kw);
    TailStopsAtColon(s, |w|, kw, user, host, rest);
  }

  lemma PathlessRegroup(w: string, u: string, h: string, q: string)
    ensures w + "://" + u + h + q == w + ("://" + (u + h + q))
  {
  }

  lemma PortToEnd(s: string, m: nat, n: nat, digits: Option<string>)
    requires m <= |s| && s[m..] == PortPart(digits) && n == m + |PortPart(digits)| && ValidDigits(digits)
    ensures n == |s| && OptionalPort(s, m) == (PortValue(digits), n)
  {
    match digits
    case Some(d) =>
      assert s[m..] == ":" + d + [];
      OptionalPortReads(s, m, n, d, []);
    case None =>
  }

  lemma TailStopsAtEnd(s: string, i: nat, scheme: string, user: Option<string>, host: string, digits: Option<string>)
    requires i <= |s| && s[i..] == "://" + (UserPart(user) + host + PortPart(digits))
    requires ValidUser(user) && IsHostname(host) && ValidDigits(digits)
    ensures SchemeTail(s, i, scheme) == None
  {
    var j := i + 3;
    var k := j + |UserPart(user)|;
    var m := k + |host|;
    var n := m + |PortPart(digits)|;
    LiteralReads(s, i, j, "://", UserPart(user) + host + PortPart(digits));
    UserHostReads(s, j, k, m, user, host, PortPart(digits));
    PortToEnd(s, m, n, digits);
    SchemeTailStops(s, i, j, scheme, user, k, LowerString(host), m, PortValue(digits), n);
  }

  /** An HTTP, SSH or GIT form that ends after its host or port has no path, and is rejected. */
  lemma ExplicitFormRejectsMissingPath(w: string, kw: string, user: Option<string>, host: string,
                                      digits: Option<string>)
    requires IsExplicitScheme(kw) && Spells(w, kw) && ValidUser(user) && IsHostname(host) && ValidDigits(digits)
    ensures Url(w + "://" + UserPart(user) + host + PortPart(digits)) == None
  {
    var tail := "://" + (UserPart(user) + host + PortPart(digits));
    var s := w + tail;
    PathlessRegroup(w, UserPart(user), host, PortPart(digits));
    OpensWithWord(s, w, tail);
    ExplicitFormUrl(s, w, kw);
    TailStopsAtEnd(s, |w|, kw, user, host, digits);
  }

  /** An HTTP, SSH or GIT form with nothing after "://" but characters that cannot open a
      user or a host is rejected. */
  lemma ExplicitFormRejectsMissingHost(w: string, kw: string, rest: string)
    requires IsExplicitScheme(kw) && Spells(w, kw)
    requires rest == [] || !IsAlnum(rest[0])
    ensures Url(w + "://" + rest) == None
  {
    var tail := "://" + rest;
    var s := w + tail;
    WordRegroup(w, rest);
    OpensWithWord(s, w, tail);
    ExplicitFormUrl(s, w, kw);
    var j := |w| + 3;
    LiteralReads(s, |w|, j, "://", rest);
    if j < |s| {
      assert s[j] == rest[0] by { assert s[j..][0] == rest[0]; }
    }
  }

  lemma WordRegroup(w: string, rest: string)
    ensures w + "://" + rest == w + ("://" + rest)
  {
  }

  lemma CaselessSpells(s: string, w: string, kw: string)
    requires OpensWith(s, w)
    ensures CaselessAt(s, 0, kw) && |kw| == |w| ==> Spells(w, kw)
  {
    if CaselessAt(s, 0, kw) && |kw| == |w| {
      forall k | 0 <= k < |w| ensures Upper(w[k]) == Upper(kw[k]) {
        assert s[0 + k] == w[k];
      }
    }
  }

  /** A word of letters before "://" that spells none of http, https, ssh and git in any
      letter case, and is not exactly "file", is an unknown scheme: URL rejects the input
      whatever follows. */
  lemma UnknownSchemeRejected(w: string, rest: string)
    requires forall k | 0 <= k < |w| :: IsAlpha(Upper(w[k]))
    requires w != "file"
    requires !Spells(w, "http") && !Spells(w, "https") && !Spells(w, "ssh") && !Spells(w, "git")
    ensures Url(w + "://" + rest) == None
  {
    var tail := "://" + rest;
    var s := w + tail;
    WordRegroup(w, rest);
    OpensWithWord(s, w, tail);
    OpensWithPrefix(s, w);
    var n := |w|;
    ScpRejectsSchemePrefix(s, n);
    LocalRejectsSchemePrefix(s, n);
    CaselessSpells(s, w, "http");
    CaselessSpells(s, w, "https");
    CaselessSpells(s, w, "ssh");
    CaselessSpells(s, w, "git");
    SchemePrefixUnique(s, n, 3);
    SchemePrefixUnique(s, n, 4);
    SchemePrefixUnique(s, n, 5);
    MatchFirstNone(s, 0);
  }

  lemma ScpSteps(s: string, user: Option<string>, k: nat, host: string, m: nat, p: nat, path: string, e: nat)
    requires k <= |s| && m <= |s|
    requires OptionalUser(s, 0) == (user, k)
    requires Host(s, k) == Some((host, m))
    requires !StartsWith(s, m, "://")
    requires Lit(s, m, ":") == Some(p)
    requires Path(s, p) == Some((path, e))
    ensures ScpLikeSshUrl(s) == Some((Tokens(Some("ssh"), user, Some(host), None, Some(path)), e))
  {
  }

  lemma ScpRegroup(u: string, h: string, path: string)
    ensures u + h + ":" + path == u + h + (":" + path)
  {
  }

  /** NotAny("://") after the host holds when the path does not open with "//". */
  lemma ColonNotScheme(s: string, m: nat, path: string)
    requires m <= |s| && s[m..] == ":" + path
    requires !(2 <= |path| && path[0] == '/' && path[1] == '/')
    ensures !StartsWith(s, m, "://")
  {
    if m + 3 <= |s| {
      assert s[m..m + 3][1] == s[m..][1] == path[0];
      assert s[m..m + 3][2] == s[m..][2] == path[1];
    }
  }

  /** After the user and the host have been read, ':' and a path not opening with "//"
      complete the scp-like form. */
  lemma ScpReadsFrom(s: string, user: Option<string>, k: nat, host: string, m: nat, path: string)
    requires k <= m < |s| && OptionalUser(s, 0) == (user, k) && Host(s, k) == Some((host, m))
    requires s[m] == ':' && s[m + 1..] == path && IsPath(path)
    requires !(2 <= |path| && path[0] == '/' && path[1] == '/')
    ensures ScpLikeSshUrl(s) == Some((Tokens(Some("ssh"), user, Some(host), None, Some(path)), |s|))
  {
    ScpPathPart(s, m, path);
    ScpSteps(s, user, k, host, m, m + 1, path, |s|);
  }

  /** ':' and a path not opening with "//": NotAny("://") holds, then ":" + PATH reads
      to the end. */
  lemma ScpPathPart(s: string, m: nat, path: string)
    requires m < |s| && s[m] == ':' && s[m + 1..] == path && IsPath(path)
    requires !(2 <= |path| && path[0] == '/' && path[1] == '/')
    ensures !StartsWith(s, m, "://") && Lit(s, m, ":") == Some(m + 1) && Path(s, m + 1) == Some((path, |s|))
  {
    assert s[m..] == ":" + path by {
      assert s[m..] == [s[m]] + s[m + 1..];
    }
    ColonNotScheme(s, m, path);
    PathPartReads(s, m, m + 1, ':', path);
  }

  lemma ScpReads(s: string, user: Option<string>, host: string, path: string)
    requires s == UserPart(user) + host + (":" + path)
    requires ValidUser(user) && IsHostname(host) && IsPath(path)
    requires !(2 <= |path| && path[0] == '/' && path[1] == '/')
    ensures ScpLikeSshUrl(s) == Some((Tokens(Some("ssh"), user, Some(LowerString(host)), None, Some(path)), |s|))
  {
    var k := |UserPart(user)|;
    var m := k + |host|;
    ScpDecompose(s, user, host, ":" + path, k, m);
    ColonSplit(s, m, path);
    ScpReadsFrom(s, user, k, LowerString(host), m, path);
  }

  /** In user@host followed by ':' the user and the hostname are read where they stand. */
  lemma ScpDecompose(s: string, user: Option<string>, host: string, rest: string, k: nat, m: nat)
    requires s == UserPart(user) + host + rest && 0 < |rest| && rest[0] == ':'
    requires ValidUser(user) && IsHostname(host)
    requires k == |UserPart(user)| && m == k + |host|
    ensures m <= |s| && OptionalUser(s, 0) == (user, k) && Host(s, k) == Some((LowerString(host), m))
    ensures s[m..] == rest
  {
    assert s[0..] == s;
    UserHostReads(s, 0, k, m, user, host, rest);
  }

  lemma ColonSplit(s: string, m: nat, path: string)
    requires m <= |s| && s[m..] == ":" + path
    ensures m < |s| && s[m] == ':' && s[m + 1..] == path
  {
    assert s[m..][0] == s[m] && s[m..][1..] == s[m + 1..];
  }

  /** The scp-like form user@host:path (the user optional) is accepted as ssh, with no
      port, unless the path opens with "//", which would make "://" follow the host. */
  lemma ScpFormAccepted(user: Option<string>, host: string, path: string)
    requires ValidUser(user) && IsHostname(host) && IsPath(path)
    requires !(2 <= |path| && path[0] == '/' && path[1] == '/')
    ensures Url(UserPart(user) + host + ":" + path)
              == Some(Tokens(Some("ssh"), user, Some(LowerString(host)), None, Some(path)))
  {
    ScpRegroup(UserPart(user), host, path);
    ScpReads(UserPart(user) + host + (":" + path), user, host, path);
    UrlOfProduction(UserPart(user) + host + ":" + path, 3,
                    Tokens(Some("ssh"), user, Some(LowerString(host)), None, Some(path)));
  }

  /** An alternative that matches the whole input decides URL. */
  lemma UrlOfProduction(s: string, k: nat, t: Tokens)
    requires k < 5 && Production(k, s) == Some((t, |s|))
    ensures Url(s) == Some(t)
  {
    MatchFirstFrom(s, 0, k);
  }

  /** A path after a single '/' is a local location: no scheme, user, host or port. */
  lemma LocalSlashAccepted(path: string)
    requires IsPath(path)
    ensures Url("/" + path) == Some(Tokens(None, None, None, None, Some(path)))
  {
    var s := "/" + path;
    assert s[0..] == s;
    assert !StartsWith(s, 0, "file") by { assert s[0] == '/'; }
    PathPartReads(s, 0, 1, '/', path);
    MatchFirstFrom(s, 0, 4);
  }

  /** A path after the case-sensitive "file://" is a local location with the scheme "file". */
  lemma LocalFileAccepted(path: string)
    requires IsPath(path)
    ensures Url("file://" + path) == Some(Tokens(Some("file"), None, None, None, Some(path)))
  {
    var s := "file://" + path;
    assert s[0..4] == "file" && s[4..7] == "://" && s[7..] == path;
    assert s[4] == ':';
    PathReads(s, 7);
    MatchFirstFrom(s, 0, 4);
  }

  /** SCP_LIKE_SSH_URL refuses a host immediately followed by "://", whatever comes after:
      NotAny("://") stops it before the ':' can be read as the path separator. */
  lemma ScpRejectsColonSlashSlash(user: Option<string>, host: string, rest: string)
    requires ValidUser(user) && IsHostname(host)
    ensures ScpLikeSshUrl(UserPart(user) + host + "://" + rest) == None
  {
    var s := UserPart(user) + host + ("://" + rest);
    assert UserPart(user) + host + "://" + rest == s;
    var k := |UserPart(user)|;
    var m := k + |host|;
    ScpDecompose(s, user, host, "://" + rest, k, m);
    SchemeAfterHost(s, m, rest);
    ScpStopsAtScheme(s, user, k, LowerString(host), m);
  }

  lemma SchemeAfterHost(s: string, m: nat, rest: string)
    requires m <= |s| && s[m..] == "://" + rest
    ensures StartsWith(s, m, "://")
  {
    assert s[m..m + 3] == s[m..][..3] == "://";
  }

  lemma ScpStopsAtScheme(s: string, user: Option<string>, k: nat, host: string, m: nat)
    requires k <= |s| && m <= |s|
    requires OptionalUser(s, 0) == (user, k)
    requires Host(s, k) == Some((host, m))
    requires StartsWith(s, m, "://")
    ensures ScpLikeSshUrl(s) == None
  {
  }

  // ---------------------------------------------------------------------------
  // The alphabet of accepted inputs

  /** The characters an accepted input can hold: the path characters, ':' and '@',
      and whatever upper-cases to an ASCII letter in a scheme keyword. */
  predicate IsUrlChar(c: char)
  {
    IsPathChar(c) || c == ':' || c == '@' || IsAlpha(Upper(c))
  }

  predicate UrlChars(s: string, a: nat, b: nat)
  {
    a <= b <= |s| && forall x | a <= x < b :: IsUrlChar(s[x])
  }

  lemma LitChars(s: string, i: nat, lit: string)
    requires i <= |s| && forall k | 0 <= k < |lit| :: IsUrlChar(lit[k])
    ensures Lit(s, i, lit).Some? ==> UrlChars(s, i, Lit(s, i, lit).value)
  {
    if Lit(s, i, lit).Some? {
      forall x | i <= x < i + |lit| ensures IsUrlChar(s[x]) {
        assert s[x] == s[i..i + |lit|][x - i];
      }
    }
  }

  lemma OptionalUserChars(s: string, i: nat)
    requires i <= |s|
    ensures UrlChars(s, i, OptionalUser(s, i).1)
  {
    var (u, k) := OptionalUser(s, i);
    if u.Some? {
      forall x | i <= x < k ensures IsUrlChar(s[x]) {
        assert s[x] == s[i..k][x - i] == (u.value + "@")[x - i];
      }
    }
  }

  lemma HostChars(s: string, k: nat)
    requires k <= |s|
    ensures Host(s, k).Some? ==> UrlChars(s, k, Host(s, k).value.1)
  {
  }

  lemma OptionalPortChars(s: string, m: nat)
    requires m <= |s|
    ensures UrlChars(s, m, OptionalPort(s, m).1)
  {
    var (port, n) := OptionalPort(s, m);
    if port.Some? {
      forall x | m < x < n ensures IsUrlChar(s[x]) {
        assert s[x] == s[m + 1..n][x - m - 1];
      }
    }
  }

  lemma PathChars(s: string, p: nat)
    requires p <= |s|
    ensures Path(s, p).Some? ==> UrlChars(s, p, Path(s, p).value.1)
  {
    if Path(s, p).Some? {
      var e := Path(s, p).value.1;
      forall x | p <= x < e ensures IsUrlChar(s[x]) {
        assert s[x] == s[p..e][x - p];
      }
    }
  }

  /** Everything the shared tail consumes is made of URL characters. */
  lemma SchemeTailChars(s: string, i: nat, scheme: string)
    requires i <= |s|
    ensures SchemeTail(s, i, scheme).Some? ==> UrlChars(s, i, SchemeTail(s, i, scheme).value.1)
  {
    if SchemeTail(s, i, scheme).Some? {
      var j := Lit(s, i, "://").value;
      LitChars(s, i, "://");
      var k := OptionalUser(s, j).1;
      OptionalUserChars(s, j);
      var m := Host(s, k).value.1;
      HostChars(s, k);
      var n := OptionalPort(s, m).1;
      OptionalPortChars(s, m);
      var p := Lit(s, n, "/").value;
      LitChars(s, n, "/");
      PathChars(s, p);
    }
  }

  /** The word before a scheme keyword's tail is made of letters. */
  lemma KeywordChars(s: string, n: nat)
    requires SchemePrefix(s, n)
    ensures UrlChars(s, 0, n)
  {
  }

  lemma JoinChars(s: string, a: nat, b: nat, c: nat)
    requires UrlChars(s, a, b) && UrlChars(s, b, c)
    ensures UrlChars(s, a, c)
  {
  }

  lemma HttpChars(s: string)
    ensures HttpUrl(s).Some? ==> UrlChars(s, 0, HttpUrl(s).value.1)
  {
    if HttpUrl(s).Some? {
      var (scheme, i) := HttpScheme(s).value;
      assert HttpUrl(s) == SchemeTail(s, i, scheme);
      SchemeTailChars(s, i, scheme);
      KeywordChars(s, i);
      JoinChars(s, 0, i, HttpUrl(s).value.1);
    }
  }

  lemma SshChars(s: string)
    ensures SshUrl(s).Some? ==> UrlChars(s, 0, SshUrl(s).value.1)
  {
    SchemeKeywordShape(s, "ssh");
    if SshUrl(s).Some? {
      SchemeTailChars(s, 3, "ssh");
      KeywordChars(s, 3);
      JoinChars(s, 0, 3, SshUrl(s).value.1);
    }
  }

  lemma GitChars(s: string)
    ensures GitUrl(s).Some? ==> UrlChars(s, 0, GitUrl(s).value.1)
  {
    SchemeKeywordShape(s, "git");
    if GitUrl(s).Some? {
      SchemeTailChars(s, 3, "git");
      KeywordChars(s, 3);
      JoinChars(s, 0, 3, GitUrl(s).value.1);
    }
  }

  lemma ScpChars(s: string)
    ensures ScpLikeSshUrl(s).Some? ==> UrlChars(s, 0, ScpLikeSshUrl(s).value.1)
  {
    if ScpLikeSshUrl(s).Some? {
      var j := OptionalUser(s, 0).1;
      OptionalUserChars(s, 0);
      var k := Host(s, j).value.1;
      HostChars(s, j);
      var m := Lit(s, k, ":").value;
      LitChars(s, k, ":");
      var e := Path(s, m).value.1;
      PathChars(s, m);
      assert ScpLikeSshUrl(s).value.1 == e;
      JoinChars(s, 0, j, k);
      JoinChars(s, 0, k, m);
      JoinChars(s, 0, m, e);
    }
  }

  lemma LocalChars(s: string)
    ensures LocalUrl(s).Some? ==> UrlChars(s, 0, LocalUrl(s).value.1)
  {
    if LocalUrl(s).Some? {
      var (t, e) := LocalUrl(s).value;
      var i := if t.scheme.Some? then 7 else 1;
      forall x | i <= x < e ensures IsUrlChar(s[x]) {
        assert s[x] == s[i..e][x - i];
      }
      if t.scheme.Some? {
        forall x | 0 <= x < 7 ensures IsUrlChar(s[x]) {
          assert s[x] == s[0..7][x];
        }
      }
    }
  }

  lemma ProductionChars(s: string, k: nat)
    requires k < 5
    ensures Production(k, s).Some? ==> UrlChars(s, 0, Production(k, s).value.1)
  {
    if k == 0 {
      HttpChars(s);
    } else if k == 1 {
      SshChars(s);
    } else if k == 2 {
      GitChars(s);
    } else if k == 3 {
      ScpChars(s);
    } else {
      LocalChars(s);
    }
  }

  /** With tokens strictly adjacent, URL accepts only inputs made of URL characters:
      no token, keyword or literal of the grammar holds a blank. */
  lemma AcceptedAlphabet(s: string)
    ensures Url(s).Some? ==> forall x | 0 <= x < |s| :: IsUrlChar(s[x])
  {
    if Url(s).Some? {
      UrlIsTheFullMatch(s, Url(s).value);
      var k :| 0 <= k < 5 && Production(k, s) == Some((Url(s).value, |s|));
      ProductionChars(s, k);
    }
  }
}
