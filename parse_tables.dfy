/**
 The tables of yagup/test/test_parse.py as statements about the model: every
 valid input parses to its record, every invalid one is refused with
 InvalidURL carrying the input, and every normalised input renders to its
 canonical string. Inputs built from several fields are written as the
 concatenation of those fields, in the order they appear in the input.
 */
module ParseTables {
  import opened Wrappers
  import opened Schema
  import opened SchemaProperties
  import opened Yagup

  // ---------------------------------------------------------------------------
  // From the general theorems to one input

  lemma AppendEmpty(x: string)
    ensures x + "" == x
  {
  }

  lemma LowerStringIs(h: string, l: string)
    requires |h| == |l| && forall k | 0 <= k < |h| :: Lower(h[k]) == l[k]
    ensures LowerString(h) == l
  {
  }

  lemma SpelledUpperCase()
    ensures Spells("SSH", "ssh")
  {
    assert Upper('s') == 'S';
  }

  /** An explicit form parses to the record of its fields. */
  lemma ExplicitParses(w: string, kw: string, user: Option<string>, host: string, digits: Option<string>, path: string)
    requires IsExplicitScheme(kw) && Spells(w, kw)
    requires ValidUser(user) && IsHostname(host) && ValidDigits(digits) && IsPath(path)
    ensures Parse(w + "://" + UserPart(user) + host + PortPart(digits) + "/" + path)
              == Ok(GitURL(Some(kw), Some(LowerString(host)), Some(path), user, PortValue(digits)))
  {
    ExplicitFormAccepted(w, kw, user, host, digits, path);
  }

  /** An explicit form without user or port is rendered with the scheme and host lower-cased. */
  lemma ExplicitNormalizes(w: string, kw: string, host: string, path: string)
    requires IsExplicitScheme(kw) && Spells(w, kw) && IsHostname(host) && IsPath(path)
    ensures Parse(w + "://" + host + "/" + path).Ok?
    ensures Parse(w + "://" + host + "/" + path).url.ToString() == kw + "://" + LowerString(host) + "/" + path
  {
    ExplicitParses(w, kw, None, host, None, path);
    AppendEmpty(w + "://");
    AppendEmpty(w + "://" + host);
    var g := GitURL(Some(kw), Some(LowerString(host)), Some(path), None, None);
    RenderedRemote(g);
    AppendEmpty(kw + "://");
    AppendEmpty(kw + "://" + LowerString(host));
  }

  /** With tokens strictly adjacent, a string holding a character that no token accepts
      is refused. */
  lemma StrayCharRejected(s: string, x: nat)
    requires x < |s| && !IsUrlChar(s[x])
    ensures Parse(s) == InvalidURL(s)
  {
    AcceptedAlphabet(s);
  }

  // ---------------------------------------------------------------------------
  // The fields of the tables

  lemma HostGithub()
    ensures IsHostname("github.com") && LowerString("github.com") == "github.com"
  {
    assert IsLowerCase("github.com");
    LowerStringOfLowerCase("github.com");
  }

  lemma HostDivio()
    ensures IsHostname("git.divio.com") && LowerString("git.divio.com") == "git.divio.com"
  {
    assert IsLowerCase("git.divio.com");
    LowerStringOfLowerCase("git.divio.com");
  }

  lemma HostDivioUpper()
    ensures IsHostname("GIT.divio.com") && LowerString("GIT.divio.com") == "git.divio.com"
  {
    LowerStringIs("GIT.divio.com", "git.divio.com");
  }

  lemma HostDivioMixed()
    ensures IsHostname("git.DiVIO.com") && LowerString("git.DiVIO.com") == "git.divio.com"
  {
    LowerStringIs("git.DiVIO.com", "git.divio.com");
  }

  lemma PathOcto()
    ensures IsPath("kinkerl/glowing-octo-succotash.git")
  {
  }

  lemma PathDivio()
    ensures IsPath("ci-test-project-do-not-delete.git")
  {
  }

  lemma PathDoodle()
    ensures IsPath("vxsx/animated-octo-doodle.git")
  {
  }

  lemma UserGit()
    ensures ValidUser(Some("git")) && UserPart(Some("git")) == "git@"
  {
  }

  lemma Port8443()
    ensures ValidDigits(Some("8443")) && PortPart(Some("8443")) == ":8443" && PortValue(Some("8443")) == Some(8443)
  {
    assert DigitsValue("8443", 1) == 8;
    assert DigitsValue("8443", 2) == 84;
    assert DigitsValue("8443", 3) == 844;
  }

  lemma Port2222()
    ensures ValidDigits(Some("2222")) && PortPart(Some("2222")) == ":2222" && PortValue(Some("2222")) == Some(2222)
  {
    assert DigitsValue("2222", 1) == 2;
    assert DigitsValue("2222", 2) == 22;
    assert DigitsValue("2222", 3) == 222;
  }

  // ---------------------------------------------------------------------------
  // TESTDATA_GITURL_VALID

  lemma ValidHttps()
    ensures Parse("https" + "://" + "github.com" + "/" + "kinkerl/glowing-octo-succotash.git")
              == Ok(GitURL(Some("https"), Some("github.com"), Some("kinkerl/glowing-octo-succotash.git"), None, None))
  {
    HostGithub();
    PathOcto();
    ExplicitParses("https", "https", None, "github.com", None, "kinkerl/glowing-octo-succotash.git");
    AppendEmpty("https" + "://");
    AppendEmpty("https" + "://" + "github.com");
  }

  lemma ValidHttpsUser()
    ensures Parse("https" + "://" + "git@" + "github.com" + "/" + "kinkerl/glowing-octo-succotash.git")
              == Ok(GitURL(Some("https"), Some("github.com"), Some("kinkerl/glowing-octo-succotash.git"), Some("git"), None))
  {
    HostGithub();
    PathOcto();
    UserGit();
    ExplicitParses("https", "https", Some("git"), "github.com", None, "kinkerl/glowing-octo-succotash.git");
    AppendEmpty("https" + "://" + "git@" + "github.com");
  }

  lemma ValidHttpsUserPort()
    ensures Parse("https" + "://" + "git@" + "github.com" + ":8443" + "/" + "kinkerl/glowing-octo-succotash.git")
              == Ok(GitURL(Some("https"), Some("github.com"), Some("kinkerl/glowing-octo-succotash.git"), Some("git"), Some(8443)))
  {
    HostGithub();
    PathOcto();
    UserGit();
    Port8443();
    ExplicitParses("https", "https", Some("git"), "github.com", Some("8443"), "kinkerl/glowing-octo-succotash.git");
  }

  lemma ValidHttp()
    ensures Parse("http" + "://" + "github.com" + "/" + "kinkerl/glowing-octo-succotash.git")
              == Ok(GitURL(Some("http"), Some("github.com"), Some("kinkerl/glowing-octo-succotash.git"), None, None))
  {
    HostGithub();
    PathOcto();
    ExplicitParses("http", "http", None, "github.com", None, "kinkerl/glowing-octo-succotash.git");
    AppendEmpty("http" + "://");
    AppendEmpty("http" + "://" + "github.com");
  }

  lemma ValidGit()
    ensures Parse("git" + "://" + "github.com" + "/" + "kinkerl/glowing-octo-succotash.git")
              == Ok(GitURL(Some("git"), Some("github.com"), Some("kinkerl/glowing-octo-succotash.git"), None, None))
  {
    HostGithub();
    PathOcto();
    ExplicitParses("git", "git", None, "github.com", None, "kinkerl/glowing-octo-succotash.git");
    AppendEmpty("git" + "://");
    AppendEmpty("git" + "://" + "github.com");
  }

  lemma ValidGitDivio()
    ensures Parse("git" + "://" + "git.divio.com" + "/" + "ci-test-project-do-not-delete.git")
              == Ok(GitURL(Some("git"), Some("git.divio.com"), Some("ci-test-project-do-not-delete.git"), None, None))
  {
    HostDivio();
    PathDivio();
    ExplicitParses("git", "git", None, "git.divio.com", None, "ci-test-project-do-not-delete.git");
    AppendEmpty("git" + "://");
    AppendEmpty("git" + "://" + "git.divio.com");
  }

  lemma ValidSsh()
    ensures Parse("ssh" + "://" + "github.com" + "/" + "kinkerl/glowing-octo-succotash.git")
              == Ok(GitURL(Some("ssh"), Some("github.com"), Some("kinkerl/glowing-octo-succotash.git"), None, None))
  {
    HostGithub();
    PathOcto();
    ExplicitParses("ssh", "ssh", None, "github.com", None, "kinkerl/glowing-octo-succotash.git");
    AppendEmpty("ssh" + "://");
    AppendEmpty("ssh" + "://" + "github.com");
  }

  lemma ValidSshUser()
    ensures Parse("ssh" + "://" + "git@" + "github.com" + "/" + "kinkerl/glowing-octo-succotash.git")
              == Ok(GitURL(Some("ssh"), Some("github.com"), Some("kinkerl/glowing-octo-succotash.git"), Some("git"), None))
  {
    HostGithub();
    PathOcto();
    UserGit();
    ExplicitParses("ssh", "ssh", Some("git"), "github.com", None, "kinkerl/glowing-octo-succotash.git");
    AppendEmpty("ssh" + "://" + "git@" + "github.com");
  }

  lemma ValidSshDivio()
    ensures Parse("ssh" + "://" + "git.divio.com" + "/" + "ci-test-project-do-not-delete.git")
              == Ok(GitURL(Some("ssh"), Some("git.divio.com"), Some("ci-test-project-do-not-delete.git"), None, None))
  {
    HostDivio();
    PathDivio();
    ExplicitParses("ssh", "ssh", None, "git.divio.com", None, "ci-test-project-do-not-delete.git");
    AppendEmpty("ssh" + "://");
    AppendEmpty("ssh" + "://" + "git.divio.com");
  }

  lemma ValidSshDivioPort()
    ensures Parse("ssh" + "://" + "git.divio.com" + ":2222" + "/" + "ci-test-project-do-not-delete.git")
              == Ok(GitURL(Some("ssh"), Some("git.divio.com"), Some("ci-test-project-do-not-delete.git"), None, Some(2222)))
  {
    HostDivio();
    PathDivio();
    Port2222();
    ExplicitParses("ssh", "ssh", None, "git.divio.com", Some("2222"), "ci-test-project-do-not-delete.git");
    AppendEmpty("ssh" + "://");
  }

  lemma ValidUpperCaseSsh()
    ensures Parse("SSH" + "://" + "GIT.divio.com" + ":2222" + "/" + "ci-test-project-do-not-delete.git")
              == Ok(GitURL(Some("ssh"), Some("git.divio.com"), Some("ci-test-project-do-not-delete.git"), None, Some(2222)))
  {
    HostDivioUpper();
    PathDivio();
    Port2222();
    SpelledUpperCase();
    ExplicitParses("SSH", "ssh", None, "GIT.divio.com", Some("2222"), "ci-test-project-do-not-delete.git");
    AppendEmpty("SSH" + "://");
  }

  lemma ValidScpLike()
    ensures Parse("git@" + "github.com" + ":" + "vxsx/animated-octo-doodle.git")
              == Ok(GitURL(Some("ssh"), Some("github.com"), Some("vxsx/animated-octo-doodle.git"), Some("git"), None))
  {
    HostGithub();
    PathDoodle();
    UserGit();
    ScpFormAccepted(Some("git"), "github.com", "vxsx/animated-octo-doodle.git");
  }

  lemma ValidFile()
    ensures Parse("file://" + "/tmp/test.git") == Ok(GitURL(Some("file"), None, Some("/tmp/test.git"), None, None))
  {
    LocalFileAccepted("/tmp/test.git");
  }

  /** __str__ of the file: record writes "None" where the host goes, and the '/' before the
      path doubles the path's own leading '/'. */
  lemma RenderFile()
    ensures Parse("file://" + "/tmp/test.git").Ok?
    ensures Parse("file://" + "/tmp/test.git").url.ToString() == "file://" + "None//tmp/test.git"
  {
    ValidFile();
    RenderedLocal(GitURL(Some("file"), None, Some("/tmp/test.git"), None, None));
    FileRegroup();
  }

  lemma FileRegroup()
    ensures "file" + "://None/" + "/tmp/test.git" == "file://" + "None//tmp/test.git"
  {
  }

  /** The rendered file: record reads back with "None/" in front of its path. */
  lemma RenderedFileReparsed()
    ensures Parse("file://" + "None//tmp/test.git")
              == Ok(GitURL(Some("file"), None, Some("None//tmp/test.git"), None, None))
  {
    LocalFileAccepted("None//tmp/test.git");
  }

  // ---------------------------------------------------------------------------
  // TESTDATA_GITURL_INVALID

  lemma InvalidScheme()
    ensures var s := "nothing" + "://" + "github.com/kinkerl/glowing-octo-succotash.git";
            Parse(s) == InvalidURL(s)
  {
    UnknownSchemeRejected("nothing", "github.com/kinkerl/glowing-octo-succotash.git");
  }

  lemma InvalidSshColon()
    ensures var s := "ssh" + "://" + "github.com" + ":" + "kinkerl/glowing-octo-succotash.git";
            Parse(s) == InvalidURL(s)
  {
    HostGithub();
    assert Spells("ssh", "ssh");
    ExplicitFormRejectsNonNumericPort("ssh", "ssh", None, "github.com", "kinkerl/glowing-octo-succotash.git");
    AppendEmpty("ssh" + "://");
  }

  lemma InvalidGitColon()
    ensures var s := "git" + "://" + "github.com" + ":" + "kinkerl/glowing-octo-succotash.git";
            Parse(s) == InvalidURL(s)
  {
    HostGithub();
    assert Spells("git", "git");
    ExplicitFormRejectsNonNumericPort("git", "git", None, "github.com", "kinkerl/glowing-octo-succotash.git");
    AppendEmpty("git" + "://");
  }

  lemma InvalidSpaceInPath()
    ensures var s := "git@github.com:vxsx/animated-octo-d oodle.git"; Parse(s) == InvalidURL(s)
  {
    StrayCharRejected("git@github.com:vxsx/animated-octo-d oodle.git", 35);
  }

  lemma InvalidLeadingSpace()
    ensures var s := " git@github.com:vxsx/animated-octo-d oodle.git"; Parse(s) == InvalidURL(s)
  {
    StrayCharRejected(" git@github.com:vxsx/animated-octo-d oodle.git", 36);
  }

  lemma InvalidTrailingSpace()
    ensures var s := "git@github.com:vxsx/animated-octo-d oodle.git "; Parse(s) == InvalidURL(s)
  {
    StrayCharRejected("git@github.com:vxsx/animated-octo-d oodle.git ", 35);
  }

  lemma InvalidSpaceInUser()
    ensures var s := "git @github.com:vxsx/animated-octo-d oodle.git"; Parse(s) == InvalidURL(s)
  {
    StrayCharRejected("git @github.com:vxsx/animated-octo-d oodle.git", 36);
  }

  lemma InvalidSpaceInHost()
    ensures var s := "git@github.co m:vxsx/animated-octo-d oodle.git"; Parse(s) == InvalidURL(s)
  {
    StrayCharRejected("git@github.co m:vxsx/animated-octo-d oodle.git", 13);
  }

  lemma InvalidSpaceAfterSlash()
    ensures var s := "git@github.com:vxsx/ animated-octo-d oodle.git"; Parse(s) == InvalidURL(s)
  {
    StrayCharRejected("git@github.com:vxsx/ animated-octo-d oodle.git", 20);
  }

  lemma InvalidEmpty()
    ensures Parse("") == InvalidURL("")
  {
    MatchFirstNone("", 0);
  }

  lemma InvalidBlank()
    ensures Parse(" ") == InvalidURL(" ")
  {
    StrayCharRejected(" ", 0);
  }

  lemma InvalidSchemeOnly()
    ensures Parse("ssh" + "://") == InvalidURL("ssh" + "://")
  {
    assert Spells("ssh", "ssh");
    ExplicitFormRejectsMissingHost("ssh", "ssh", "");
    AppendEmpty("ssh" + "://");
  }

  lemma InvalidNoPath()
    ensures Parse("ssh" + "://" + "a") == InvalidURL("ssh" + "://" + "a")
  {
    assert Spells("ssh", "ssh");
    ExplicitFormRejectsMissingPath("ssh", "ssh", None, "a", None);
    AppendEmpty("ssh" + "://");
    AppendEmpty("ssh" + "://" + "a");
  }

  /** Keyword("file") is case-sensitive: "FILE" before "://" is an unknown scheme. */
  lemma InvalidUpperCaseFile()
    ensures Parse("FILE" + "://" + "/tmp/test.git") == InvalidURL("FILE" + "://" + "/tmp/test.git")
  {
    assert "FILE"[0] == 'F';
    assert !Spells("FILE", "http") by { assert Upper("FILE"[0]) != Upper("http"[0]); }
    UnknownSchemeRejected("FILE", "/tmp/test.git");
  }

  // ---------------------------------------------------------------------------
  // TESTDATA_GITURL_NORMALIZE

  lemma NormalizeHttps()
    ensures Parse("https" + "://" + "github.com" + "/" + "kinkerl/glowing-octo-succotash.git").Ok?
    ensures Parse("https" + "://" + "github.com" + "/" + "kinkerl/glowing-octo-succotash.git").url.ToString()
              == "https" + "://" + "github.com" + "/" + "kinkerl/glowing-octo-succotash.git"
  {
    HostGithub();
    PathOcto();
    ExplicitNormalizes("https", "https", "github.com", "kinkerl/glowing-octo-succotash.git");
  }

  lemma NormalizeGit()
    ensures Parse("git" + "://" + "github.com" + "/" + "kinkerl/glowing-octo-succotash.git").Ok?
    ensures Parse("git" + "://" + "github.com" + "/" + "kinkerl/glowing-octo-succotash.git").url.ToString()
              == "git" + "://" + "github.com" + "/" + "kinkerl/glowing-octo-succotash.git"
  {
    HostGithub();
    PathOcto();
    ExplicitNormalizes("git", "git", "github.com", "kinkerl/glowing-octo-succotash.git");
  }

  lemma NormalizeScpLike()
    ensures Parse("git@" + "github.com" + ":" + "kinkerl/glowing-octo-succotash.git").Ok?
    ensures Parse("git@" + "github.com" + ":" + "kinkerl/glowing-octo-succotash.git").url.ToString()
              == "ssh://" + "git@" + "github.com" + "/" + "kinkerl/glowing-octo-succotash.git"
  {
    HostGithub();
    PathOcto();
    UserGit();
    ScpRendersExplicit(Some("git"), "github.com", "kinkerl/glowing-octo-succotash.git");
  }

  lemma NormalizeGitDivio()
    ensures Parse("git" + "://" + "git.divio.com" + "/" + "ci-test-project-do-not-delete.git").Ok?
    ensures Parse("git" + "://" + "git.divio.com" + "/" + "ci-test-project-do-not-delete.git").url.ToString()
              == "git" + "://" + "git.divio.com" + "/" + "ci-test-project-do-not-delete.git"
  {
    HostDivio();
    PathDivio();
    ExplicitNormalizes("git", "git", "git.divio.com", "ci-test-project-do-not-delete.git");
  }

  lemma NormalizeSsh()
    ensures Parse("ssh" + "://" + "github.com" + "/" + "kinkerl/glowing-octo-succotash.git").Ok?
    ensures Parse("ssh" + "://" + "github.com" + "/" + "kinkerl/glowing-octo-succotash.git").url.ToString()
              == "ssh" + "://" + "github.com" + "/" + "kinkerl/glowing-octo-succotash.git"
  {
    HostGithub();
    PathOcto();
    ExplicitNormalizes("ssh", "ssh", "github.com", "kinkerl/glowing-octo-succotash.git");
  }

  lemma NormalizeSshDivio()
    ensures Parse("ssh" + "://" + "git.divio.com" + "/" + "ci-test-project-do-not-delete.git").Ok?
    ensures Parse("ssh" + "://" + "git.divio.com" + "/" + "ci-test-project-do-not-delete.git").url.ToString()
              == "ssh" + "://" + "git.divio.com" + "/" + "ci-test-project-do-not-delete.git"
  {
    HostDivio();
    PathDivio();
    ExplicitNormalizes("ssh", "ssh", "git.divio.com", "ci-test-project-do-not-delete.git");
  }

  lemma NormalizeMixedCaseHost()
    ensures Parse("ssh" + "://" + "git.DiVIO.com" + "/" + "ci-test-project-do-not-delete.git").Ok?
    ensures Parse("ssh" + "://" + "git.DiVIO.com" + "/" + "ci-test-project-do-not-delete.git").url.ToString()
              == "ssh" + "://" + "git.divio.com" + "/" + "ci-test-project-do-not-delete.git"
  {
    HostDivioMixed();
    PathDivio();
    ExplicitNormalizes("ssh", "ssh", "git.DiVIO.com", "ci-test-project-do-not-delete.git");
  }

  lemma NormalizeMixedCaseSchemeAndHost()
    ensures Parse("SSH" + "://" + "git.DiVIO.com" + "/" + "ci-test-project-do-not-delete.git").Ok?
    ensures Parse("SSH" + "://" + "git.DiVIO.com" + "/" + "ci-test-project-do-not-delete.git").url.ToString()
              == "ssh" + "://" + "git.divio.com" + "/" + "ci-test-project-do-not-delete.git"
  {
    HostDivioMixed();
    PathDivio();
    SpelledUpperCase();
    ExplicitNormalizes("SSH", "ssh", "git.DiVIO.com", "ci-test-project-do-not-delete.git");
  }
}
