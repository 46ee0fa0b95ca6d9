/**
 The GitURL record of yagup/__init__.py: the five fields a match fills in,
 the rendering of __str__, and parse, which turns a grammar mismatch into
 InvalidURL carrying the input.
 */
module Yagup {
  import opened Wrappers
  import opened Schema
  import opened SchemaProperties

  /** The frozen record; every field defaults to None. The stored parse result,
      which takes no part in equality, is not part of the model, so two records
      are equal exactly when their five fields are. */
  datatype GitURL = GitURL(
    scheme: Option<string>,
    host: Option<string>,
    path: Option<string>,
    user: Option<string>,
    port: Option<nat>)
  {
    /** GitURL.parse: the record of the match, or InvalidURL(url) when the grammar rejects url. */
    static function Parse(url: string): (r: ParseResult)
      ensures r.InvalidURL? <==> Url(url).None?
      ensures r.InvalidURL? ==> r.input == url
      ensures r.Ok? ==> WellFormed(r.url)
      ensures r.Ok? ==> Url(url) == Some(Tokens(r.url.scheme, r.url.user, r.url.host, r.url.port, r.url.path))
    {
      match Url(url)
      case None => InvalidURL(url)
      case Some(t) =>
        AcceptedTokensShape(url, t);
        Ok(FromTokens(t))
    }

    /** __str__: scheme, "://", the user and '@' when the user is non-empty, the host,
        ':' and the port when the port is non-zero, '/', and the path. An absent
        field is written as Python writes None. */
    function ToString(): (r: string)
      ensures Show(scheme) + "://" <= r
      ensures |Show(path)| < |r| && r[|r| - |Show(path)| - 1..] == "/" + Show(path)
    {
      var authinfo := if user.Some? && user.value != "" then user.value + "@" else "";
      var netloc := if port.Some? && port.value != 0 then Show(host) + ":" + NatToString(port.value) else Show(host);
      Show(scheme) + "://" + authinfo + netloc + "/" + Show(path)
    }
  }

  datatype ParseResult = Ok(url: GitURL) | InvalidURL(input: string)

  /** The module-level alias parse(url). */
  function Parse(url: string): (r: ParseResult)
    ensures r == GitURL.Parse(url)
    ensures r.InvalidURL? <==> Url(url).None?
    ensures r.InvalidURL? ==> r.input == url
    ensures r.Ok? ==> Url(url) == Some(Tokens(r.url.scheme, r.url.user, r.url.host, r.url.port, r.url.path))
  {
    GitURL.Parse(url)
  }

  /** GitURL(**res): each named result fills the field of the same name. */
  function FromTokens(t: Tokens): (g: GitURL)
    ensures Tokens(g.scheme, g.user, g.host, g.port, g.path) == t
  {
    GitURL(t.scheme, t.host, t.path, t.user, t.port)
  }

  /** An f-string field: the text itself, or "None". */
  function Show(s: Option<string>): string
  {
    match s
    case Some(v) => v
    case None => "None"
  }

  function DigitChar(d: nat): char
    requires d < 10
  {
    ('0' as int + d) as char
  }

  /** str(n) for a natural number: its decimal digits, without leading zeros. */
  function NatToString(n: nat): (r: string)
    ensures IsDigits(r) && (r[0] == '0' ==> r == "0")
    ensures DecimalValue(r) == n
    decreases n
  {
    if n < 10 then
      var r := [DigitChar(n)];
      assert DigitsValue(r, 1) == 10 * DigitsValue(r, 0) + (r[0] as int - '0' as int);
      r
    else
      var r := NatToString(n / 10) + [DigitChar(n % 10)];
      DecimalAppend(NatToString(n / 10), DigitChar(n % 10));
      r
  }

  lemma {:induction false} DigitsValueAgree(d: string, e: string, n: nat)
    requires n <= |d| && n <= |e|
    requires (forall k | 0 <= k < |d| :: IsDigit(d[k])) && (forall k | 0 <= k < |e| :: IsDigit(e[k]))
    requires forall k | 0 <= k < n :: d[k] == e[k]
    ensures DigitsValue(d, n) == DigitsValue(e, n)
  {
    if n > 0 {
      DigitsValueAgree(d, e, n - 1);
    }
  }

  /** One more digit multiplies the value by ten and adds the digit. */
  lemma DecimalAppend(d: string, c: char)
    requires (forall k | 0 <= k < |d| :: IsDigit(d[k])) && IsDigit(c)
    ensures DecimalValue(d + [c]) == 10 * DecimalValue(d) + (c as int - '0' as int)
  {
    DigitsValueAgree(d + [c], d, |d|);
  }

  // ---------------------------------------------------------------------------
  // What a parse yields

  /** The records parse can return: a path always; with a host, an explicit scheme,
      a lower-case hostname and possibly a user and a port; without one, no user, no
      port, and the scheme "file" or none. */
  predicate WellFormed(g: GitURL)
  {
    && g.path.Some? && IsPath(g.path.value)
    && (g.user.Some? ==> g.host.Some? && IsUser(g.user.value))
    && (g.port.Some? ==> g.host.Some?)
    && (g.host.Some? ==> && IsHostname(g.host.value) && IsLowerCase(g.host.value)
                         && g.scheme.Some? && IsExplicitScheme(g.scheme.value))
    && (g.host.None? ==> g.scheme == None || g.scheme == Some("file"))
  }

  lemma ProductionShape(s: string, k: nat)
    requires k < 5
    ensures Production(k, s).Some? ==> WellFormed(FromTokens(Production(k, s).value.0))
  {
  }

  /** Every accepted input yields a well-formed record. */
  lemma AcceptedTokensShape(s: string, t: Tokens)
    requires Url(s) == Some(t)
    ensures WellFormed(FromTokens(t))
  {
    UrlIsTheFullMatch(s, t);
    var k :| 0 <= k < 5 && Production(k, s) == Some((t, |s|));
    ProductionShape(s, k);
  }

  // ---------------------------------------------------------------------------
  // Rendering and parsing again

  /** The port as __str__ writes it: only when it is non-zero. */
  function ShownPort(port: Option<nat>): Option<string>
  {
    if port.Some? && port.value != 0 then Some(NatToString(port.value)) else None
  }

  lemma RenderRegroup(kw: string, u: string, h: string, q: string, path: string)
    ensures kw + "://" + u + (h + q) + "/" + path == kw + "://" + u + h + q + "/" + path
  {
  }

  /** With a host, __str__ writes the explicit form: the scheme, "://", the user part,
      the host, the shown port, '/' and the path. */
  lemma RenderedRemote(g: GitURL)
    requires WellFormed(g) && g.host.Some?
    ensures g.ToString() == g.scheme.value + "://" + UserPart(g.user) + g.host.value
                            + PortPart(ShownPort(g.port)) + "/" + g.path.value
  {
    assert g.user.Some? ==> g.user.value != "";
    RenderRegroup(g.scheme.value, UserPart(g.user), g.host.value, PortPart(ShownPort(g.port)), g.path.value);
  }

  lemma LowerStringOfLowerCase(h: string)
    requires IsLowerCase(h)
    ensures LowerString(h) == h
  {
  }

  /** Rendering a well-formed record with a host parses back to a record whose port
      is the shown one: equal, unless the port was 0, which __str__ drops. */
  lemma RenderParsesBack(g: GitURL)
    requires WellFormed(g) && g.host.Some?
    ensures GitURL.Parse(g.ToString()) == Ok(g.(port := if g.port == Some(0) then None else g.port))
  {
    RenderedRemote(g);
    var kw := g.scheme.value;
    assert Spells(kw, kw);
    ExplicitFormAccepted(kw, kw, g.user, g.host.value, ShownPort(g.port), g.path.value);
    LowerStringOfLowerCase(g.host.value);
  }

  /** A record with a host and an absent or non-zero port is rendered to a string that
      parses back to the same record. */
  lemma RenderRoundTrip(g: GitURL)
    requires WellFormed(g) && g.host.Some? && g.port != Some(0)
    ensures GitURL.Parse(g.ToString()) == Ok(g)
  {
    RenderParsesBack(g);
  }

  /** Port 0 is not rendered, so it is lost on the way back. */
  lemma ZeroPortIsDropped(g: GitURL)
    requires WellFormed(g) && g.host.Some? && g.port == Some(0)
    ensures GitURL.Parse(g.ToString()) == Ok(g.(port := None))
    ensures g.ToString() == g.(port := None).ToString()
  {
    RenderParsesBack(g);
  }

  /** Normalising through parse and __str__ is idempotent for remotes without port 0:
      the canonical string of a parsed remote parses to the same record and renders
      to itself. */
  lemma NormalizeIdempotent(url: string, g: GitURL)
    requires GitURL.Parse(url) == Ok(g) && g.host.Some? && g.port != Some(0)
    ensures GitURL.Parse(g.ToString()) == Ok(g)
    ensures GitURL.Parse(g.ToString()).url.ToString() == g.ToString()
  {
    RenderRoundTrip(g);
  }

  /** The canonical string of any parsed remote, port 0 included, is a fixed point:
      parsing it and rendering again gives it back. */
  lemma CanonicalFormIsFixed(url: string, g: GitURL)
    requires GitURL.Parse(url) == Ok(g) && g.host.Some?
    ensures GitURL.Parse(g.ToString()).Ok?
    ensures GitURL.Parse(g.ToString()).url.ToString() == g.ToString()
  {
    RenderParsesBack(g);
    if g.port == Some(0) {
      ZeroPortIsDropped(g);
    }
  }

  lemma PortlessRender(scheme: string, u: string, h: string, path: string)
    ensures scheme + "://" + u + h + PortPart(ShownPort(None)) + "/" + path == scheme + "://" + u + h + "/" + path
  {
    assert scheme + "://" + u + h + "" == scheme + "://" + u + h;
  }

  /** The scp-like form is rendered in the explicit ssh form, with the host lower-cased. */
  lemma ScpRendersExplicit(user: Option<string>, host: string, path: string)
    requires ValidUser(user) && IsHostname(host) && IsPath(path)
    requires !(2 <= |path| && path[0] == '/' && path[1] == '/')
    ensures GitURL.Parse(UserPart(user) + host + ":" + path).Ok?
    ensures GitURL.Parse(UserPart(user) + host + ":" + path).url.ToString()
              == "ssh://" + UserPart(user) + LowerString(host) + "/" + path
  {
    ScpParsed(user, host, path);
    ScpRendering(user, host, path);
  }

  lemma ScpParsed(user: Option<string>, host: string, path: string)
    requires ValidUser(user) && IsHostname(host) && IsPath(path)
    requires !(2 <= |path| && path[0] == '/' && path[1] == '/')
    ensures GitURL.Parse(UserPart(user) + host + ":" + path)
              == Ok(GitURL(Some("ssh"), Some(LowerString(host)), Some(path), user, None))
  {
    ScpFormAccepted(user, host, path);
  }

  lemma ScpRendering(user: Option<string>, host: string, path: string)
    requires ValidUser(user) && IsHostname(host) && IsPath(path)
    ensures GitURL(Some("ssh"), Some(LowerString(host)), Some(path), user, None).ToString()
              == "ssh://" + UserPart(user) + LowerString(host) + "/" + path
  {
    var g := GitURL(Some("ssh"), Some(LowerString(host)), Some(path), user, None);
    HostRegionOfLowered(host);
    RenderedRemote(g);
    PortlessRender("ssh", UserPart(user), LowerString(host), path);
    assert "ssh" + "://" == "ssh://";
  }

  lemma HostRegionOfLowered(host: string)
    requires IsHostname(host)
    ensures IsHostname(LowerString(host)) && IsLowerCase(LowerString(host))
  {
    assert host[0..|host|] == host;
    HostRegionIsHostname(host, 0, |host|);
  }

  /** Without a host, __str__ writes "None" where the host goes, and where the scheme
      goes when there is none. */
  lemma RenderedLocal(g: GitURL)
    requires WellFormed(g) && g.host.None?
    ensures g.ToString() == Show(g.scheme) + "://None/" + g.path.value
  {
    assert g.user.None? && g.port.None?;
  }
}
