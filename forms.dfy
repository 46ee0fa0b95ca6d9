// The forms URL accepts, written out from the tokens of a match, and the
// converse of the acceptance lemmas of SchemaProperties: whatever an
// alternative of yagup/schema.py accepts is its form built from the very
// tokens it returns. Together they characterise URL exactly.

module Forms {
  import opened Wrappers
  import opened Schema
  import opened SchemaProperties

  // ---------------------------------------------------------------------------
  // The forms, written out

  /** x is "://", the user and '@' when there is a user, a hostname h, ':' and the
      digits d when there is a port, '/', and the path; the host token is h
      lower-cased and the port token is the value of d. */
  predicate TailText(x: string, t: Tokens, h: string, d: Option<string>)
    requires t.host.Some? && t.path.Some?
  {
    && IsHostname(h) && LowerString(h) == t.host.value
    && ValidDigits(d) && PortValue(d) == t.port
    && x == "://" + UserPart(t.user) + h + PortPart(d) + "/" + t.path.value
  }

  /** The text after the scheme keyword of an HTTP, SSH or GIT location with tokens t. */
  ghost predicate TailForm(x: string, t: Tokens)
  {
    && t.host.Some? && t.path.Some? && ValidUser(t.user) && IsPath(t.path.value)
    && exists h, d :: TailText(x, t, h, d)
  }

  /** An HTTP, SSH or GIT location: its scheme keyword spelled in any letter case,
      then the tail. */
  ghost predicate ExplicitForm(s: string, t: Tokens)
  {
    && t.scheme.Some? && IsExplicitScheme(t.scheme.value)
    && |t.scheme.value| <= |s| && Spells(s[..|t.scheme.value|], t.scheme.value)
    && TailForm(s[|t.scheme.value|..], t)
  }

  /** s is the user and '@' when there is a user, a hostname h, ':' and the path. */
  predicate ScpText(s: string, t: Tokens, h: string)
    requires t.host.Some? && t.path.Some?
  {
    && IsHostname(h) && LowerString(h) == t.host.value
    && s == UserPart(t.user) + h + ":" + t.path.value
  }

  /** An scp-like location: scheme ssh, no port, and a path that does not open with "//". */
  ghost predicate ScpForm(s: string, t: Tokens)
  {
    && t.scheme == Some("ssh") && t.port.None? && t.host.Some? && t.path.Some?
    && ValidUser(t.user) && IsPath(t.path.value)
    && !(2 <= |t.path.value| && t.path.value[0] == '/' && t.path.value[1] == '/')
    && exists h :: ScpText(s, t, h)
  }

  /** A local location: "file://" + path with scheme file, or "/" + path with no scheme. */
  predicate LocalForm(s: string, t: Tokens)
  {
    && t.user.None? && t.host.None? && t.port.None? && t.path.Some? && IsPath(t.path.value)
    && (|| (t.scheme == Some("file") && s == "file://" + t.path.value)
        || (t.scheme.None? && s == "/" + t.path.value))
  }

  /** The five shapes of a git remote. */
  ghost predicate UrlForm(s: string, t: Tokens)
  {
    ExplicitForm(s, t) || ScpForm(s, t) || LocalForm(s, t)
  }

  // ---------------------------------------------------------------------------
  // What each token consumed

  lemma Split(s: string, a: nat, b: nat, c: nat)
    requires a <= b <= c <= |s|
    ensures s[a..c] == s[a..b] + s[b..c]
  {
  }

  /** A literal that matched ends |lit| characters on. */
  lemma LitAdvances(s: string, i: nat, lit: string)
    requires i <= |s| && Lit(s, i, lit).Some?
    ensures i + |lit| <= |s| && Lit(s, i, lit) == Some(i + |lit|) && s[i..i + |lit|] == lit
  {
  }

  lemma UserText(s: string, j: nat, user: Option<string>, k: nat)
    requires j <= |s| && OptionalUser(s, j) == (user, k)
    ensures j <= k <= |s| && s[j..k] == UserPart(user) && ValidUser(user)
  {
  }

  lemma HostText(s: string, k: nat, host: string, m: nat)
    requires k <= |s| && Host(s, k) == Some((host, m))
    ensures k < m <= |s| && IsHostname(s[k..m]) && LowerString(s[k..m]) == host
  {
    HostRegionIsHostname(s, k, m);
  }

  /** The text Optional(":" + PORT) consumed, as the digits it read. */
  lemma PortText(s: string, m: nat, port: Option<nat>, n: nat) returns (d: Option<string>)
    requires m <= |s| && OptionalPort(s, m) == (port, n)
    ensures m <= n <= |s| && ValidDigits(d) && PortValue(d) == port && s[m..n] == PortPart(d)
  {
    if port.Some? {
      d := Some(s[m + 1..n]);
      assert s[m..n] == [s[m]] + s[m + 1..n];
    } else {
      d := None;
    }
  }

  lemma JoinTail(s: string, i: nat, j: nat, k: nat, m: nat, n: nat, p: nat, e: nat,
                 u: string, h: string, q: string, path: string)
    requires i <= j <= k <= m <= n <= p <= e <= |s|
    requires s[i..j] == "://" && s[j..k] == u && s[k..m] == h && s[m..n] == q
    requires s[n..p] == "/" && s[p..e] == path
    ensures s[i..e] == "://" + u + h + q + "/" + path
  {
    Split(s, i, j, e);
    Split(s, j, k, e);
    Split(s, k, m, e);
    Split(s, m, n, e);
    Split(s, n, p, e);
    assert s[i..e] == "://" + (u + (h + (q + ("/" + path))));
  }

  lemma JoinScp(s: string, k: nat, m: nat, e: nat, u: string, h: string, path: string)
    requires k <= m < e <= |s|
    requires s[..k] == u && s[k..m] == h && s[m..m + 1] == ":" && s[m + 1..e] == path
    ensures s[..e] == u + h + ":" + path
  {
    Split(s, 0, k, e);
    Split(s, k, m, e);
    Split(s, m, m + 1, e);
    assert s[..e] == s[0..e] && s[..k] == s[0..k];
    assert s[..e] == u + (h + (":" + path));
  }

  // ---------------------------------------------------------------------------
  // The shared tail

  /** The shared tail fails without "://" ... */
  lemma TailStopsAtOpen(s: string, i: nat, scheme: string)
    requires i <= |s| && Lit(s, i, "://") == None
    ensures SchemeTail(s, i, scheme) == None
  {
  }

  /** ... without a host after the optional user ... */
  lemma TailStopsAtHost(s: string, i: nat, j: nat, scheme: string, user: Option<string>, k: nat)
    requires i <= |s| && j <= |s| && k <= |s|
    requires Lit(s, i, "://") == Some(j) && OptionalUser(s, j) == (user, k) && Host(s, k) == None
    ensures SchemeTail(s, i, scheme) == None
  {
  }

  /** ... and without a path after the '/'. */
  lemma TailStopsAtPath(s: string, i: nat, j: nat, scheme: string, user: Option<string>, k: nat,
                        host: string, m: nat, port: Option<nat>, n: nat, p: nat)
    requires i <= |s| && j <= |s| && k <= |s| && m <= |s| && n <= |s| && p <= |s|
    requires Lit(s, i, "://") == Some(j) && OptionalUser(s, j) == (user, k)
    requires Host(s, k) == Some((host, m)) && OptionalPort(s, m) == (port, n)
    requires Lit(s, n, "/") == Some(p) && Path(s, p) == None
    ensures SchemeTail(s, i, scheme) == None
  {
  }

  /** A match of the shared tail reads "://" first ... */
  lemma TailOpens(s: string, i: nat, scheme: string, t: Tokens, e: nat) returns (j: nat)
    requires i <= |s| && SchemeTail(s, i, scheme) == Some((t, e))
    ensures j <= |s| && Lit(s, i, "://") == Some(j)
  {
    if Lit(s, i, "://").None? {
      TailStopsAtOpen(s, i, scheme);
      assert false;
    }
    LitAdvances(s, i, "://");
    j := Lit(s, i, "://").value;
  }

  /** ... then the optional user and a host ... */
  lemma TailUserHost(s: string, i: nat, j: nat, scheme: string, t: Tokens, e: nat) returns (user: Option<string>, k: nat)
    requires i <= |s| && j <= |s| && SchemeTail(s, i, scheme) == Some((t, e)) && Lit(s, i, "://") == Some(j)
    ensures k <= |s| && OptionalUser(s, j) == (user, k) && Host(s, k).Some?
  {
    user, k := OptionalUser(s, j).0, OptionalUser(s, j).1;
    if Host(s, k).None? {
      TailStopsAtHost(s, i, j, scheme, user, k);
      assert false;
    }
  }

  /** ... then the optional port and '/' ... */
  lemma TailPortSlash(s: string, i: nat, j: nat, scheme: string, t: Tokens, e: nat, user: Option<string>, k: nat)
      returns (host: string, m: nat, port: Option<nat>, n: nat, p: nat)
    requires i <= |s| && j <= |s| && SchemeTail(s, i, scheme) == Some((t, e)) && Lit(s, i, "://") == Some(j)
    requires k <= |s| && OptionalUser(s, j) == (user, k) && Host(s, k).Some?
    ensures m <= |s| && Host(s, k) == Some((host, m)) && n <= |s| && OptionalPort(s, m) == (port, n)
    ensures p <= |s| && Lit(s, n, "/") == Some(p)
  {
    host, m := Host(s, k).value.0, Host(s, k).value.1;
    port, n := OptionalPort(s, m).0, OptionalPort(s, m).1;
    if Lit(s, n, "/").None? {
      SchemeTailStops(s, i, j, scheme, user, k, host, m, port, n);
      assert false;
    }
    LitAdvances(s, n, "/");
    p := Lit(s, n, "/").value;
  }

  /** ... and last the path, which closes the match with the tokens read. */
  lemma TailPath(s: string, i: nat, j: nat, scheme: string, t: Tokens, e: nat, user: Option<string>, k: nat,
                 host: string, m: nat, port: Option<nat>, n: nat, p: nat) returns (path: string)
    requires i <= |s| && j <= |s| && SchemeTail(s, i, scheme) == Some((t, e)) && Lit(s, i, "://") == Some(j)
    requires k <= |s| && OptionalUser(s, j) == (user, k)
    requires m <= |s| && Host(s, k) == Some((host, m)) && n <= |s| && OptionalPort(s, m) == (port, n)
    requires p <= |s| && Lit(s, n, "/") == Some(p)
    ensures Path(s, p) == Some((path, e)) && t == Tokens(Some(scheme), user, Some(host), port, Some(path))
  {
    if Path(s, p).None? {
      TailStopsAtPath(s, i, j, scheme, user, k, host, m, port, n, p);
      assert false;
    }
    path := Path(s, p).value.0;
    SchemeTailSteps(s, i, j, scheme, user, k, host, m, port, n, p, path, Path(s, p).value.1);
  }

  /** The tokens the shared tail reads and the positions it passes through, on a match. */
  lemma SchemeTailParts(s: string, i: nat, scheme: string, t: Tokens, e: nat)
      returns (j: nat, user: Option<string>, k: nat, host: string, m: nat, port: Option<nat>, n: nat, p: nat, path: string)
    requires i <= |s| && SchemeTail(s, i, scheme) == Some((t, e))
    ensures t == Tokens(Some(scheme), user, Some(host), port, Some(path))
    ensures j <= |s| && Lit(s, i, "://") == Some(j) && k <= |s| && OptionalUser(s, j) == (user, k)
    ensures m <= |s| && Host(s, k) == Some((host, m)) && n <= |s| && OptionalPort(s, m) == (port, n)
    ensures p <= |s| && Lit(s, n, "/") == Some(p) && Path(s, p) == Some((path, e))
  {
    j := TailOpens(s, i, scheme, t, e);
    user, k := TailUserHost(s, i, j, scheme, t, e);
    host, m, port, n, p := TailPortSlash(s, i, j, scheme, t, e, user, k);
    path := TailPath(s, i, j, scheme, t, e, user, k, host, m, port, n, p);
  }

  /** "://" and the optional user, as text. */
  lemma OpenUserText(s: string, i: nat, j: nat, user: Option<string>, k: nat)
    requires i <= |s| && j <= |s| && Lit(s, i, "://") == Some(j) && OptionalUser(s, j) == (user, k)
    ensures i <= j <= k <= |s| && s[i..j] == "://" && s[j..k] == UserPart(user) && ValidUser(user)
  {
    LitAdvances(s, i, "://");
    UserText(s, j, user, k);
  }

  /** '/' and the path, as text. */
  lemma SlashPathText(s: string, n: nat, p: nat, path: string, e: nat)
    requires n <= |s| && p <= |s| && Lit(s, n, "/") == Some(p) && Path(s, p) == Some((path, e))
    ensures n <= p < e <= |s| && s[n..p] == "/" && s[p..e] == path && IsPath(path)
  {
    LitAdvances(s, n, "/");
  }

  /** The pieces of the shared tail joined are the tail's form. */
  lemma TailJoined(s: string, i: nat, j: nat, k: nat, m: nat, n: nat, p: nat, e: nat, t: Tokens, d: Option<string>)
    requires t.host.Some? && t.path.Some? && i <= j <= k <= m <= n <= p <= e <= |s|
    requires s[i..j] == "://" && s[j..k] == UserPart(t.user) && ValidUser(t.user)
    requires IsHostname(s[k..m]) && LowerString(s[k..m]) == t.host.value
    requires ValidDigits(d) && PortValue(d) == t.port && s[m..n] == PortPart(d)
    requires s[n..p] == "/" && s[p..e] == t.path.value && IsPath(t.path.value)
    ensures TailForm(s[i..e], t)
  {
    JoinTail(s, i, j, k, m, n, p, e, UserPart(t.user), s[k..m], PortPart(d), t.path.value);
    assert TailText(s[i..e], t, s[k..m], d);
  }

  /** Soundness of the shared tail: what it consumes is "://" + [user "@"] + a hostname +
      [":" digits] + "/" + path, built from the tokens it returns. */
  lemma SchemeTailSound(s: string, i: nat, scheme: string, t: Tokens, e: nat)
    requires i <= |s|
    ensures SchemeTail(s, i, scheme) == Some((t, e)) ==>
              && t.scheme == Some(scheme) && i <= e <= |s| && TailForm(s[i..e], t)
  {
    if SchemeTail(s, i, scheme) == Some((t, e)) {
      var j, user, k, host, m, port, n, p, path := SchemeTailParts(s, i, scheme, t, e);
      OpenUserText(s, i, j, user, k);
      HostText(s, k, host, m);
      var d := PortText(s, m, port, n);
      SlashPathText(s, n, p, path, e);
      TailJoined(s, i, j, k, m, n, p, e, t, d);
    }
  }

  // ---------------------------------------------------------------------------
  // The explicit forms

  lemma SpelledPrefix(s: string, kw: string, e: nat)
    requires |kw| <= e <= |s| && CaselessAt(s, 0, kw)
    ensures |kw| <= |s[..e]| && Spells(s[..e][..|kw|], kw)
  {
    assert s[..e][..|kw|] == s[..|kw|];
    forall k | 0 <= k < |kw| ensures Upper(s[..|kw|][k]) == Upper(kw[k]) {
      assert s[..|kw|][k] == s[0 + k];
    }
  }

  /** A scheme keyword read in any letter case and the shared tail after it make up
      the explicit form. */
  lemma KeywordThenTail(s: string, kw: string, t: Tokens, e: nat)
    requires IsExplicitScheme(kw) && CaselessAt(s, 0, kw)
    requires SchemeTail(s, |kw|, kw) == Some((t, e))
    ensures e <= |s| && ExplicitForm(s[..e], t)
  {
    SchemeTailSound(s, |kw|, kw, t, e);
    SpelledPrefix(s, kw, e);
    assert s[..e][|kw|..] == s[|kw|..e];
  }

  /** Soundness of HTTP_URL: what it consumes is "http" or "https" in any letter case,
      then the shared tail, built from the tokens it returns. */
  lemma HttpUrlSound(s: string, t: Tokens, e: nat)
    ensures HttpUrl(s) == Some((t, e)) ==> e <= |s| && ExplicitForm(s[..e], t)
  {
    if HttpUrl(s) == Some((t, e)) {
      var (kw, n) := HttpScheme(s).value;
      KeywordThenTail(s, kw, t, e);
    }
  }

  /** Soundness of SSH_URL: "ssh" in any letter case, then the shared tail. */
  lemma SshUrlSound(s: string, t: Tokens, e: nat)
    ensures SshUrl(s) == Some((t, e)) ==> e <= |s| && ExplicitForm(s[..e], t)
  {
    SchemeKeywordShape(s, "ssh");
    if SshUrl(s) == Some((t, e)) {
      KeywordThenTail(s, "ssh", t, e);
    }
  }

  /** Soundness of GIT_URL: "git" in any letter case, then the shared tail. */
  lemma GitUrlSound(s: string, t: Tokens, e: nat)
    ensures GitUrl(s) == Some((t, e)) ==> e <= |s| && ExplicitForm(s[..e], t)
  {
    SchemeKeywordShape(s, "git");
    if GitUrl(s) == Some((t, e)) {
      KeywordThenTail(s, "git", t, e);
    }
  }

  // ---------------------------------------------------------------------------
  // The scp-like form

  /** SCP_LIKE_SSH_URL fails without a host after the optional user ... */
  lemma ScpStopsAtHost(s: string, user: Option<string>, k: nat)
    requires k <= |s| && OptionalUser(s, 0) == (user, k) && Host(s, k) == None
    ensures ScpLikeSshUrl(s) == None
  {
  }

  /** ... without ':' after the host ... */
  lemma ScpStopsAtColon(s: string, user: Option<string>, k: nat, host: string, m: nat)
    requires k <= |s| && m <= |s| && OptionalUser(s, 0) == (user, k) && Host(s, k) == Some((host, m))
    requires !StartsWith(s, m, "://") && Lit(s, m, ":") == None
    ensures ScpLikeSshUrl(s) == None
  {
  }

  /** ... and without a path after the ':'. */
  lemma ScpStopsAtPath(s: string, user: Option<string>, k: nat, host: string, m: nat, p: nat)
    requires k <= |s| && m <= |s| && p <= |s| && OptionalUser(s, 0) == (user, k) && Host(s, k) == Some((host, m))
    requires !StartsWith(s, m, "://") && Lit(s, m, ":") == Some(p) && Path(s, p) == None
    ensures ScpLikeSshUrl(s) == None
  {
  }

  /** A match of SCP_LIKE_SSH_URL reads a host after the optional user ... */
  lemma ScpMatchHost(s: string, t: Tokens, e: nat) returns (user: Option<string>, k: nat)
    requires ScpLikeSshUrl(s) == Some((t, e))
    ensures k <= |s| && OptionalUser(s, 0) == (user, k) && Host(s, k).Some?
  {
    user, k := OptionalUser(s, 0).0, OptionalUser(s, 0).1;
    if Host(s, k).None? {
      ScpStopsAtHost(s, user, k);
      assert false;
    }
  }

  /** ... then, with no "://" after the host, ':' ... */
  lemma ScpMatchColon(s: string, t: Tokens, e: nat, user: Option<string>, k: nat) returns (host: string, m: nat, p: nat)
    requires ScpLikeSshUrl(s) == Some((t, e))
    requires k <= |s| && OptionalUser(s, 0) == (user, k) && Host(s, k).Some?
    ensures m <= |s| && Host(s, k) == Some((host, m)) && !StartsWith(s, m, "://")
    ensures p <= |s| && Lit(s, m, ":") == Some(p)
  {
    host, m := Host(s, k).value.0, Host(s, k).value.1;
    if StartsWith(s, m, "://") {
      ScpStopsAtScheme(s, user, k, host, m);
      assert false;
    }
    if Lit(s, m, ":").None? {
      ScpStopsAtColon(s, user, k, host, m);
      assert false;
    }
    LitAdvances(s, m, ":");
    p := Lit(s, m, ":").value;
  }

  /** ... and last the path, which closes the match with the tokens read. */
  lemma ScpMatchPath(s: string, t: Tokens, e: nat, user: Option<string>, k: nat, host: string, m: nat, p: nat)
      returns (path: string)
    requires ScpLikeSshUrl(s) == Some((t, e))
    requires k <= |s| && OptionalUser(s, 0) == (user, k)
    requires m <= |s| && Host(s, k) == Some((host, m)) && !StartsWith(s, m, "://")
    requires p <= |s| && Lit(s, m, ":") == Some(p)
    ensures Path(s, p) == Some((path, e)) && t == Tokens(Some("ssh"), user, Some(host), None, Some(path))
  {
    if Path(s, p).None? {
      ScpStopsAtPath(s, user, k, host, m, p);
      assert false;
    }
    path := Path(s, p).value.0;
    ScpSteps(s, user, k, host, m, p, path, Path(s, p).value.1);
  }

  /** The tokens SCP_LIKE_SSH_URL reads and the positions it passes through, on a match. */
  lemma ScpParts(s: string, t: Tokens, e: nat)
      returns (user: Option<string>, k: nat, host: string, m: nat, p: nat, path: string)
    requires ScpLikeSshUrl(s) == Some((t, e))
    ensures t == Tokens(Some("ssh"), user, Some(host), None, Some(path))
    ensures k <= |s| && OptionalUser(s, 0) == (user, k)
    ensures m <= |s| && Host(s, k) == Some((host, m)) && !StartsWith(s, m, "://")
    ensures p <= |s| && Lit(s, m, ":") == Some(p) && Path(s, p) == Some((path, e))
  {
    user, k := ScpMatchHost(s, t, e);
    host, m, p := ScpMatchColon(s, t, e, user, k);
    path := ScpMatchPath(s, t, e, user, k, host, m, p);
  }

  /** A path opening with "//" after the ':' would put "://" right after the host. */
  lemma ColonSlashSlash(s: string, m: nat, e: nat, path: string)
    requires m < e <= |s| && s[m] == ':' && s[m + 1..e] == path
    requires 2 <= |path| && path[0] == '/' && path[1] == '/'
    ensures StartsWith(s, m, "://")
  {
    assert s[m + 1] == path[0] && s[m + 2] == path[1];
    assert s[m..m + 3] == "://";
  }

  /** NotAny("://") after the host keeps the path from opening with "//". */
  lemma NoSlashSlash(s: string, m: nat, e: nat, path: string)
    requires m < e <= |s| && s[m] == ':' && s[m + 1..e] == path && !StartsWith(s, m, "://")
    ensures !(2 <= |path| && path[0] == '/' && path[1] == '/')
  {
    if 2 <= |path| && path[0] == '/' && path[1] == '/' {
      ColonSlashSlash(s, m, e, path);
      assert false;
    }
  }

  /** The user and host SCP_LIKE_SSH_URL read, as text. */
  lemma ScpUserHost(s: string, user: Option<string>, k: nat, host: string, m: nat)
    requires k <= |s| && OptionalUser(s, 0) == (user, k)
    requires Host(s, k) == Some((host, m))
    ensures k < m <= |s| && s[..k] == UserPart(user) && ValidUser(user)
    ensures IsHostname(s[k..m]) && LowerString(s[k..m]) == host
  {
    UserText(s, 0, user, k);
    assert s[..k] == s[0..k];
    HostText(s, k, host, m);
  }

  /** The pieces joined are the scp-like form. */
  lemma ScpJoined(s: string, t: Tokens, e: nat, k: nat, m: nat)
    requires t.scheme == Some("ssh") && t.port.None? && t.host.Some? && t.path.Some?
    requires k < m < e <= |s| && s[..k] == UserPart(t.user) && ValidUser(t.user)
    requires IsHostname(s[k..m]) && LowerString(s[k..m]) == t.host.value
    requires s[m] == ':' && s[m + 1..e] == t.path.value && IsPath(t.path.value)
    requires !(2 <= |t.path.value| && t.path.value[0] == '/' && t.path.value[1] == '/')
    ensures ScpForm(s[..e], t)
  {
    assert s[m..m + 1] == [s[m]];
    JoinScp(s, k, m, e, UserPart(t.user), s[k..m], t.path.value);
    assert ScpText(s[..e], t, s[k..m]);
  }

  /** ':' and the path, as text. */
  lemma ColonPathText(s: string, m: nat, p: nat, path: string, e: nat)
    requires m <= |s| && p <= |s| && Lit(s, m, ":") == Some(p) && Path(s, p) == Some((path, e))
    ensures m < e <= |s| && s[m] == ':' && s[m + 1..e] == path && IsPath(path)
  {
    LitAdvances(s, m, ":");
    assert s[m] == s[m..m + 1][0];
  }

  /** Soundness of SCP_LIKE_SSH_URL: what it consumes is [user "@"] + a hostname + ":" +
      path, the path not opening with "//", built from the tokens it returns. */
  lemma ScpLikeSshUrlSound(s: string, t: Tokens, e: nat)
    ensures ScpLikeSshUrl(s) == Some((t, e)) ==> e <= |s| && ScpForm(s[..e], t)
  {
    if ScpLikeSshUrl(s) == Some((t, e)) {
      var user, k, host, m, p, path := ScpParts(s, t, e);
      ScpUserHost(s, user, k, host, m);
      ColonPathText(s, m, p, path, e);
      NoSlashSlash(s, m, e, path);
      ScpJoined(s, t, e, k, m);
    }
  }

  // ---------------------------------------------------------------------------
  // The local forms

  /** Soundness of LOCAL_URL: "file://" + path with scheme file, or "/" + path. */
  lemma LocalUrlSound(s: string, t: Tokens, e: nat)
    ensures LocalUrl(s) == Some((t, e)) ==> e <= |s| && LocalForm(s[..e], t)
  {
    if LocalUrl(s) == Some((t, e)) {
      if t.scheme == Some("file") {
        assert s[..e] == s[..7] + s[7..e];
      } else {
        assert s[..e] == s[..1] + s[1..e];
      }
    }
  }

  // ---------------------------------------------------------------------------
  // URL

  lemma ProductionSound(k: nat, s: string, t: Tokens)
    requires k < 5 && Production(k, s) == Some((t, |s|))
    ensures UrlForm(s, t)
  {
    assert s[..|s|] == s;
    if k == 0 {
      HttpUrlSound(s, t, |s|);
    } else if k == 1 {
      SshUrlSound(s, t, |s|);
    } else if k == 2 {
      GitUrlSound(s, t, |s|);
    } else if k == 3 {
      ScpLikeSshUrlSound(s, t, |s|);
    } else {
      LocalUrlSound(s, t, |s|);
    }
  }

  /** Soundness of URL: every accepted input is one of the five forms, built from the
      tokens URL returns for it. */
  lemma UrlSound(s: string, t: Tokens)
    ensures Url(s) == Some(t) ==> UrlForm(s, t)
  {
    if Url(s) == Some(t) {
      UrlIsTheFullMatch(s, t);
      var k :| 0 <= k < 5 && Production(k, s) == Some((t, |s|));
      ProductionSound(k, s, t);
    }
  }

  lemma ExplicitComplete(s: string, t: Tokens)
    requires ExplicitForm(s, t)
    ensures Url(s) == Some(t)
  {
    var kw := t.scheme.value;
    var w := s[..|kw|];
    var h, d :| TailText(s[|kw|..], t, h, d);
    assert s == w + s[|kw|..];
    FormRegroup(w, s[|kw|..], UserPart(t.user), h, PortPart(d), t.path.value);
    ExplicitFormAccepted(w, kw, t.user, h, d, t.path.value);
  }

  lemma ScpComplete(s: string, t: Tokens)
    requires ScpForm(s, t)
    ensures Url(s) == Some(t)
  {
    var h :| ScpText(s, t, h);
    ScpFormAccepted(t.user, h, t.path.value);
  }

  lemma LocalComplete(s: string, t: Tokens)
    requires LocalForm(s, t)
    ensures Url(s) == Some(t)
  {
    if t.scheme == Some("file") {
      LocalFileAccepted(t.path.value);
    } else {
      LocalSlashAccepted(t.path.value);
    }
  }

  /** Completeness of URL: every input of the five forms is accepted, with exactly
      the tokens it is built from. */
  lemma UrlComplete(s: string, t: Tokens)
    ensures UrlForm(s, t) ==> Url(s) == Some(t)
  {
    if ExplicitForm(s, t) {
      ExplicitComplete(s, t);
    } else if ScpForm(s, t) {
      ScpComplete(s, t);
    } else if LocalForm(s, t) {
      LocalComplete(s, t);
    }
  }

  /** URL accepts an input with tokens t exactly when the input is one of the five
      forms written out from t. */
  lemma UrlAcceptsExactlyTheForms(s: string, t: Tokens)
    ensures Url(s) == Some(t) <==> UrlForm(s, t)
  {
    UrlSound(s, t);
    UrlComplete(s, t);
  }
}
