# yagup: git remote URLs, recognised and rendered

yagup decides whether a string is a git remote and, when it is, takes out
its scheme, host, user, port and path. It accepts five URL shapes and tries
them in a fixed order:

- `http(s)://[user@]host[:port]/path`
- `ssh://[user@]host[:port]/path`
- `git://[user@]host[:port]/path`
- the scp-like `[user@]host:path`
- the local forms `file://path` and `/path`

The first shape that matches a prefix of the input is committed to, and that
match must reach the end of the input. The result is a frozen `GitURL`
record. `__str__` renders it in its canonical, explicit-scheme form, and
`parse` turns a grammar mismatch into `InvalidURL(url)`.

The project has six modules:

- `Wrappers` (`wrappers.dfy`) holds `Option`.
- `Schema` (`schema.dfy`) is the grammar of `yagup/schema.py`. It is a
  PEG-style recursive-descent recogniser over `string`. Every parser takes a
  position and returns the position after its match (with the captured
  value) or `None`. The parsers follow pyparsing's rules:
  - `Word` and `ZeroOrMore` are greedy and never give characters back.
  - `Optional(X + Y)` falls back to the empty match.
  - `Keyword`/`CaselessKeyword` refuse a keyword character (alphanumeric,
    `_`, `$`) on either side.
  - `|` commits to the first alternative that matches a prefix.
  - `LineStart`/`LineEnd` pin the match to position 0 and to the end.
- `SchemaProperties` (`schema_properties.dfy`) proves what the grammar
  accepts and captures:
  - each token reads exactly the text it should;
  - no two alternatives ever match the same input, so the ordered choice
    accepts exactly the inputs that one alternative matches in full;
  - every string of each form is accepted with the fields it spells;
  - the characteristic malformed inputs are rejected;
  - every accepted input uses only URL characters.
- `Forms` (`forms.dfy`) writes out each accepted form as text built from its
  tokens. It proves the converse of the acceptance lemmas: whatever an
  alternative matches is exactly its form built from the tokens it returns.
  So `URL` accepts a string with tokens t iff the string is one of the forms
  built from t.
- `Yagup` (`giturl.dfy`) is `yagup/__init__.py`: the record, `__str__`, both
  `parse` entry points, and the rendering/re-parsing theorems.
- `ParseTables` (`parse_tables.dfy`) states the rows of the valid, invalid
  and normalise tables of `yagup/test/test_parse.py` as lemmas.

Modelling decisions:

- `GitURL` is a datatype with the five `Option` fields. The stored parse
  result, which takes no part in equality, is not modelled. So Dafny's
  structural equality is exactly the record's attrs equality.
- Characters are Dafny `char`s. `alphanums` and `nums` are ASCII.
  - A caseless keyword is compared character by character, each character
    upper-cased as Python's `str.upper` does it. Besides ASCII, LATIN SMALL
    LETTER LONG S (U+017F) upper-cases to `S` and LATIN SMALL LETTER DOTLESS I
    (U+0131) upper-cases to `I`. `Schema.Upper` models both, so `ſsh://h/p` is
    an ssh URL, as it is in the source.
  - pyparsing upper-cases the slice of the keyword's length as a whole. A
    character whose upper case is several letters (`ß` to `SS`) makes that
    slice longer, so it can match only when fewer characters than the keyword
    has are left: `ßh` is the keyword `ssh` there, but not in the model. A
    scheme keyword must be followed by `://`, so this difference never
    changes what `Schema.Url` and `parse` accept or the tokens they yield.
  - The captured scheme is the keyword's own text, lower-cased.
- The port is an unbounded `nat`, read as the decimal value of its digits.
  Leading zeros are allowed.
- `__str__` is modelled literally (`Yagup.GitURL.ToString`):
  - An absent field is written as Python writes `None`.
  - The port is written only when it is non-zero.
  - The user is written only when it is non-empty.

Behaviour of the source that the model keeps as it is:

- `__str__` writes `str(None)` for an absent host and always puts a `/`
  before the path (yagup/__init__.py:24-25). So `file:///tmp/test.git`
  renders as `file://None//tmp/test.git`, which parses back with path
  `None//tmp/test.git`.
- The bare `/path` form sets no scheme, and its path excludes the slash
  (yagup/schema.py:44). Only the scp-like form gets the default scheme `ssh`
  (yagup/schema.py:18-21, 67).
- `Keyword("file")` is case-sensitive (yagup/schema.py:44), so `FILE:///x`
  is rejected.
- `PORT` accepts any run of digits, `0` included (yagup/schema.py:40).
  Port `0` is then dropped by `__str__` (yagup/__init__.py:24).

## Model

| member | source | states |
|---|---|---|
| Schema.Span | yagup/schema.py:32 | the end of the longest run of characters satisfying the predicate; everything before it satisfies it and the next character does not |
| Schema.Part | yagup/schema.py:32 | `PART` matches iff an alphanumeric follows, and consumes exactly the maximal alphanumeric run |
| Schema.Word | yagup/schema.py:32 | `Word(init, body)` matches iff the first character is an init character, and then ends exactly where the body characters stop |
| Schema.LabelTail | yagup/schema.py:33 | `ZeroOrMore("-" + PART)` consumes only alphanumerics and `-`, and consumes nothing iff no `-` followed by an alphanumeric comes next |
| Schema.Label | yagup/schema.py:33 | `LABEL` matches iff the first character is alphanumeric; it consumes only alphanumerics and `-`, each `-` followed by an alphanumeric, and stops where no `-` + alphanumeric follows |
| Schema.HostTail | yagup/schema.py:34 | `ZeroOrMore("." + LABEL)` consumes only alphanumerics, `-` and `.`, and consumes nothing iff no `.` followed by an alphanumeric comes next |
| Schema.Hostname | yagup/schema.py:34 | `HOSTNAME` matches iff the first character is alphanumeric; it consumes a hostname region that cannot be extended by an alphanumeric, `-`+alnum or `.`+alnum |
| Schema.HostnameShape | yagup/schema.py:32-34 | a hostname never starts or ends with `.` or `-` and never holds two separators in a row |
| Schema.Host | yagup/schema.py:35-39 | `HOST` captures the lower-cased text of the maximal hostname, which is a well-formed lower-case hostname |
| Schema.Port | yagup/schema.py:40 | `PORT` matches iff a digit follows; it reads the maximal digit run and yields its decimal value |
| Schema.User | yagup/schema.py:41 | `USER` matches iff an alphanumeric follows; it captures the maximal run of alphanumerics, `_` and `-` verbatim |
| Schema.Path | yagup/schema.py:42 | `PATH` matches iff a path character follows; it captures the maximal run of alphanumerics and `+,/._-~` verbatim |
| Schema.OptionalUser | yagup/schema.py:49 | `Optional(USER + "@")` yields a user iff an alphanumeric opens a run of user characters that is followed by `@`; then a valid user and the position after its `@`, otherwise nothing at the same position |
| Schema.OptionalPort | yagup/schema.py:51 | `Optional(":" + PORT)` yields a port iff `:` and a digit follow; the port is the decimal value of the maximal digit run |
| Schema.Keyword | yagup/schema.py:44 | `Keyword(kw)` matches at i iff the exact text kw stands at i, no keyword character follows it and no keyword character precedes it; a match ends right after kw |
| Schema.CaselessKeyword | yagup/schema.py:26 | `CaselessKeyword(kw)` matches at i iff kw stands at i in some letter case, compared character by character after upper-casing, and no keyword character stands right before or right after it; a match ends right after kw |
| Schema.SchemeKeyword | yagup/schema.py:24-29 | `scheme(kw)` matches exactly where `CaselessKeyword(kw)` does and captures lower-case text of kw's length |
| Schema.SchemeTail | yagup/schema.py:48-53 | the shared tail after a scheme keyword yields the scheme, a lower-case hostname, a valid path and an optional valid user |
| Schema.HttpScheme | yagup/schema.py:47 | `scheme("http") \| scheme("https")` yields `http` or `https`, spelled in some letter case at the start of the input |
| Schema.HttpUrl | yagup/schema.py:46-54 | `HTTP_URL` yields scheme `http` or `https` with the input opening with that keyword in some case and `://` |
| Schema.SshUrl | yagup/schema.py:56-64 | `SSH_URL` yields scheme `ssh` with the input opening with `ssh` in some case and `://` |
| Schema.GitUrl | yagup/schema.py:68-76 | `GIT_URL` yields scheme `git` with the input opening with `git` in some case and `://` |
| Schema.SetDefaultScheme | yagup/schema.py:18-21 | a present scheme is kept; an absent scheme becomes `ssh`; no other token changes |
| Schema.ScpLikeSshUrl | yagup/schema.py:65-67 | `SCP_LIKE_SSH_URL` yields scheme `ssh`, no port, a lower-case host, a valid path and an optional valid user |
| Schema.LocalUrl | yagup/schema.py:44 | `LOCAL_URL` yields no user, host or port; either scheme `file` after the case-sensitive `file://` with the path after it, or no scheme after `/` with the path after the slash |
| Schema.Production | yagup/schema.py:79 | each of the five alternatives, when it matches, ends within the input and captures a valid path |
| Schema.MatchFirst | yagup/schema.py:79 | the ordered choice, when it matches, ends within the input and captures a valid path |
| Schema.Url | yagup/schema.py:77-81 | an accepted input is non-empty and yields a valid path; `SchemaProperties.UrlIsTheFullMatch` gives its exact meaning |
| SchemaProperties.HttpSchemeReads | yagup/schema.py:24-29 | `http` or `https` spelled in any case and followed by `:` is read as its lower-case keyword; `http` refuses the `s` of `https` |
| SchemaProperties.SpelledKeyword | yagup/schema.py:24-29 | a scheme keyword spelled in any letter case, followed by `:`, is read as the keyword's lower-case text |
| SchemaProperties.SchemeTailReads | yagup/schema.py:48-53 | the shared tail reads back every user, hostname, port digits and path it is built from, with the host lower-cased |
| SchemaProperties.ProductionsDisjoint | yagup/schema.py:77-81 | no input is matched by two of the five alternatives, even on different prefixes |
| SchemaProperties.MatchFirstFrom | yagup/schema.py:79 | the ordered choice commits to the alternative that matches |
| SchemaProperties.UrlIsTheFullMatch | yagup/schema.py:77-81 | `URL` accepts an input with tokens t iff one of the five alternatives matches it from the first to the last character with t |
| SchemaProperties.MatchFirstNone | yagup/schema.py:79 | when no alternative matches, the choice fails |
| SchemaProperties.ScpRejectsSchemePrefix | yagup/schema.py:65-66 | the scp-like form never matches a word of letters followed by `://` |
| SchemaProperties.ScpRejectsColonSlashSlash | yagup/schema.py:66 | the scp-like form refuses a host immediately followed by `://`, whatever comes after |
| SchemaProperties.LocalRejectsSchemePrefix | yagup/schema.py:44 | the local form never matches a word of letters followed by `://` unless that word is exactly `file` |
| SchemaProperties.ExplicitFormUrl | yagup/schema.py:46-79 | an input opening with a spelled scheme keyword and `://` is decided by that scheme's shared tail alone |
| SchemaProperties.ExplicitFormAccepted | yagup/schema.py:46-76 | every http/https/ssh/git URL, with its scheme in any case, is accepted with the lower-case scheme, the user, the lower-cased host, the port's decimal value and the path |
| SchemaProperties.ExplicitFormRejectsNonNumericPort | yagup/schema.py:51 | in the explicit forms a `:` after the host followed by a non-digit or nothing makes the input invalid |
| SchemaProperties.ExplicitFormRejectsMissingPath | yagup/schema.py:52-53 | an explicit form that ends after its host or port is invalid |
| SchemaProperties.ExplicitFormRejectsMissingHost | yagup/schema.py:49-50 | an explicit form with no alphanumeric after `://` is invalid |
| SchemaProperties.UnknownSchemeRejected | yagup/schema.py:77-81 | a letter word before `://` that spells none of http/https/ssh/git and is not exactly `file` makes the input invalid |
| SchemaProperties.ScpFormAccepted | yagup/schema.py:65-67 | every `[user@]host:path` whose path does not open with `//` is accepted as scheme `ssh` with no port and the host lower-cased |
| SchemaProperties.LocalSlashAccepted | yagup/schema.py:44 | `/` + path is accepted with no scheme, user, host or port and the path without the slash |
| SchemaProperties.LocalFileAccepted | yagup/schema.py:44 | `file://` + path is accepted with scheme `file`, no user, host or port, and the path as written |
| SchemaProperties.AcceptedAlphabet | yagup/schema.py:32-81 | with tokens strictly adjacent, an accepted input holds only URL characters: path characters, `:`, `@` and the letters of a scheme keyword |
| Forms.SchemeTailSound | yagup/schema.py:48-53 | whatever the shared tail consumes is `://`, the user and `@` when there is a user, a hostname spelling the host token in some case, `:` and digits of the port's value when there is a port, `/` and the path token |
| Forms.HttpUrlSound | yagup/schema.py:46-54 | whatever `HTTP_URL` consumes is its scheme token spelled in some case, followed by the shared tail built from the tokens it returns |
| Forms.SshUrlSound | yagup/schema.py:56-64 | whatever `SSH_URL` consumes is its scheme token spelled in some case, followed by the shared tail built from the tokens it returns |
| Forms.GitUrlSound | yagup/schema.py:68-76 | whatever `GIT_URL` consumes is its scheme token spelled in some case, followed by the shared tail built from the tokens it returns |
| Forms.ScpLikeSshUrlSound | yagup/schema.py:65-67 | whatever `SCP_LIKE_SSH_URL` consumes is the user and `@` when there is a user, a hostname spelling the host token in some case, `:` and a path not opening with `//`; scheme `ssh`, no port |
| Forms.LocalUrlSound | yagup/schema.py:44 | whatever `LOCAL_URL` consumes is `file://` + path with scheme `file`, or `/` + path with no scheme; no user, host or port |
| Forms.ProductionSound | yagup/schema.py:79 | an alternative that matches the whole input matches one of the forms built from its tokens |
| Forms.UrlSound | yagup/schema.py:77-81 | every input `URL` accepts with tokens t is one of the forms built from t |
| Forms.UrlComplete | yagup/schema.py:77-81 | every form built from tokens t is accepted by `URL` with exactly t |
| Forms.UrlAcceptsExactlyTheForms | yagup/schema.py:77-81 | `URL` accepts s with tokens t iff s is one of the forms built from t |
| Yagup.GitURL.Parse | yagup/__init__.py:27-33 | `GitURL.parse` fails iff the grammar rejects the input; the failure carries exactly the input; a success is a well-formed record whose five fields are exactly the tokens the grammar matched |
| Yagup.Parse | yagup/__init__.py:36-40 | the module-level `parse` returns exactly what `GitURL.parse` returns |
| Yagup.FromTokens | yagup/__init__.py:33 | `GitURL(**res)` puts each named result in the field of the same name, so the tokens are recovered from the record unchanged |
| Yagup.GitURL.ToString | yagup/__init__.py:22-25 | `__str__` opens with the scheme (or `None`) and `://` and ends with `/` and the path; `Yagup.RenderParsesBack` states what it means for re-parsing |
| Yagup.AcceptedTokensShape | yagup/__init__.py:15-19 | a record built from an accepted input has a valid path; with a host it has an explicit scheme and a lower-case hostname; without one it has no user or port and scheme `file` or none |
| Yagup.NatToString | yagup/__init__.py:23 | `str(port)` is a digit string without leading zeros whose decimal value is the port |
| Yagup.RenderedRemote | yagup/__init__.py:22-25 | with a host, the record renders as scheme `://` (user `@`) host (`:` port if non-zero) `/` path |
| Yagup.RenderedLocal | yagup/__init__.py:22-25 | without a host, the record renders `None` for the host, and for the scheme when it has none |
| Yagup.RenderParsesBack | yagup/__init__.py:22-33 | a well-formed record with a host renders to a string that parses back to the same record, except that port 0 comes back absent |
| Yagup.RenderRoundTrip | yagup/__init__.py:22-33 | a well-formed record with a host and an absent or non-zero port parses back from its rendering unchanged |
| Yagup.ZeroPortIsDropped | yagup/__init__.py:24 | port 0 and an absent port render identically, and port 0 is lost on re-parsing |
| Yagup.NormalizeIdempotent | yagup/__init__.py:22-33 | the canonical string of a parsed remote without port 0 parses to the same record and renders to itself |
| Yagup.CanonicalFormIsFixed | yagup/__init__.py:22-33 | the canonical string of any parsed remote, port 0 included, parses and renders back to itself |
| Yagup.ScpRendersExplicit | yagup/__init__.py:22-25 | an scp-like input renders as `ssh://[user@]host/path` with the host lower-cased |
| ParseTables.StrayCharRejected | yagup/schema.py:77-81 | with tokens strictly adjacent, an input holding a character that no token accepts fails with InvalidURL carrying the input |
| ParseTables.ExplicitParses | yagup/test/test_parse.py:6-94 | an explicit-form input parses to the record of its fields |
| ParseTables.ExplicitNormalizes | yagup/test/test_parse.py:126-158 | an explicit form without user or port renders with its scheme and host lower-cased |
| ParseTables.ValidHttps | yagup/test/test_parse.py:7-14 | the https row parses to its record |
| ParseTables.ValidHttpsUser | yagup/test/test_parse.py:15-23 | the https-with-user row parses to its record |
| ParseTables.ValidHttpsUserPort | yagup/test/test_parse.py:24-33 | the https-with-user-and-port row parses to its record with port 8443 |
| ParseTables.ValidHttp | yagup/test/test_parse.py:34-39 | the http row parses to its record |
| ParseTables.ValidGit | yagup/test/test_parse.py:40-45 | the git row parses to its record |
| ParseTables.ValidGitDivio | yagup/test/test_parse.py:46-53 | the git divio row parses to its record |
| ParseTables.ValidSsh | yagup/test/test_parse.py:54-59 | the ssh row parses to its record |
| ParseTables.ValidSshUser | yagup/test/test_parse.py:60-68 | the ssh-with-user row parses to its record |
| ParseTables.ValidSshDivio | yagup/test/test_parse.py:69-76 | the ssh divio row parses to its record |
| ParseTables.ValidSshDivioPort | yagup/test/test_parse.py:77-85 | the ssh divio row with port 2222 parses to its record |
| ParseTables.ValidUpperCaseSsh | yagup/test/test_parse.py:86-94 | the upper-case `SSH://GIT.divio.com:2222/...` row parses to the lower-cased record |
| ParseTables.ValidScpLike | yagup/test/test_parse.py:95-103 | the scp-like row parses to scheme `ssh`, user `git`, no port |
| ParseTables.ValidFile | yagup/test/test_parse.py:104 | `file:///tmp/test.git` parses to scheme `file`, path `/tmp/test.git`, nothing else |
| ParseTables.RenderFile | yagup/__init__.py:22-25 | the file record renders as `file://None//tmp/test.git` |
| ParseTables.RenderedFileReparsed | yagup/schema.py:44 | that rendering parses back with path `None//tmp/test.git`, so local records do not round-trip |
| ParseTables.InvalidScheme | yagup/test/test_parse.py:107-108 | the unknown scheme `nothing://` is rejected |
| ParseTables.InvalidSshColon | yagup/test/test_parse.py:109-110 | `ssh://github.com:kinkerl/...` is rejected |
| ParseTables.InvalidGitColon | yagup/test/test_parse.py:111-112 | `git://github.com:kinkerl/...` is rejected |
| ParseTables.InvalidSpaceInPath | yagup/test/test_parse.py:114 | the row with a blank inside the path (`d oodle`) is rejected |
| ParseTables.InvalidLeadingSpace | yagup/test/test_parse.py:115 | the row with a leading blank is rejected, proved from the blank inside its path |
| ParseTables.InvalidTrailingSpace | yagup/test/test_parse.py:116 | the row with a trailing blank is rejected, proved from the blank inside its path |
| ParseTables.InvalidSpaceInUser | yagup/test/test_parse.py:117 | the row with a blank before `@` is rejected, proved from the blank inside its path |
| ParseTables.InvalidSpaceInHost | yagup/test/test_parse.py:118 | the row with a blank inside the host is rejected |
| ParseTables.InvalidSpaceAfterSlash | yagup/test/test_parse.py:119 | the row with a blank after a path slash is rejected |
| ParseTables.InvalidEmpty | yagup/test/test_parse.py:120 | the empty string is rejected |
| ParseTables.InvalidBlank | yagup/test/test_parse.py:121 | a single blank is rejected |
| ParseTables.InvalidSchemeOnly | yagup/test/test_parse.py:122 | `ssh://` is rejected |
| ParseTables.InvalidNoPath | yagup/test/test_parse.py:123 | `ssh://a` is rejected |
| ParseTables.InvalidUpperCaseFile | yagup/schema.py:44 | `FILE:///tmp/test.git` is rejected because `Keyword("file")` is case-sensitive |
| ParseTables.NormalizeHttps | yagup/test/test_parse.py:127-130 | the https row renders to itself |
| ParseTables.NormalizeGit | yagup/test/test_parse.py:131-134 | the git row renders to itself |
| ParseTables.NormalizeScpLike | yagup/test/test_parse.py:135-138 | the scp-like row renders as `ssh://git@github.com/...` |
| ParseTables.NormalizeGitDivio | yagup/test/test_parse.py:139-142 | the git divio row renders to itself |
| ParseTables.NormalizeSsh | yagup/test/test_parse.py:143-146 | the ssh row renders to itself |
| ParseTables.NormalizeSshDivio | yagup/test/test_parse.py:147-150 | the ssh divio row renders to itself |
| ParseTables.NormalizeMixedCaseHost | yagup/test/test_parse.py:151-154 | a mixed-case host renders lower-cased |
| ParseTables.NormalizeMixedCaseSchemeAndHost | yagup/test/test_parse.py:155-158 | an upper-case scheme and a mixed-case host render lower-cased |

## Left out

- pyparsing's whitespace handling is not modelled. Tokens are strictly
  adjacent, and no property is stated about leading or trailing whitespace.
  In the source:
  - `Word`, `Literal` and `Keyword` skip leading blanks (only inside
    `Combine(HOSTNAME)` is that off), so for example `git @host:path` is
    accepted there.
  - `LineEnd` skips spaces and tabs and accepts a trailing newline.
  - `parseString` expands tabs.
- SchemaProperties.AcceptedAlphabet and ParseTables.StrayCharRejected hold of
  the model only, where tokens are strictly adjacent. In the source a blank
  before a token or at the end of the line is skipped, so
  `git@github.com:a/b.git ` is accepted there.
- `ParseException` locations and messages, results-name plumbing and packrat
  caching are internal to pyparsing and are not modelled.
- The `_parsing_result` field and the attrs-generated `__init__`, `repr` and
  `hash` are not modelled. Equality over the five fields is Dafny's
  structural equality of the datatype.
- yagup/exceptions.py is not part of this model. `InvalidURL` is only the
  error constructor of `Yagup.ParseResult`, holding the input.
- setup.py is packaging only (file reads, `os.link` probing, `setup()`) and
  is not modelled.
- The test harness itself is not modelled. Its data tables are the lemmas
  of `ParseTables`.
- Yagup.RenderRoundTrip: stated only for records with a host and an absent
  or non-zero port. Local records and port 0 do not survive rendering in the
  source; `ParseTables.RenderedFileReparsed` and `Yagup.ZeroPortIsDropped`
  state what happens to them instead.
- Schema.HttpUrl: its own contract gives the scheme prefix and the shapes of
  the tokens only. That the text consumed is the form built from the tokens
  returned is stated by `Forms.HttpUrlSound`.
- Schema.SshUrl: its own contract gives the scheme prefix and the shapes of
  the tokens only. That the text consumed is the form built from the tokens
  returned is stated by `Forms.SshUrlSound`.
- Schema.GitUrl: its own contract gives the scheme prefix and the shapes of
  the tokens only. That the text consumed is the form built from the tokens
  returned is stated by `Forms.GitUrlSound`.
- Schema.ScpLikeSshUrl: its own contract gives the shapes of the tokens only.
  That the text consumed is the form built from them is stated by
  `Forms.ScpLikeSshUrlSound`.
- Schema.CaselessKeyword: compares the keyword character by character, while
  pyparsing upper-cases the slice of the keyword's length as a whole. The two
  differ only when fewer characters than the keyword has are left and one of
  them upper-cases to several letters (`ßh` is the keyword `ssh` in pyparsing,
  not in the model). `://` must follow a scheme keyword, so `Schema.Url` and
  `parse` are not affected.
