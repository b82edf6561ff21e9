// Hik-Connect: the configuration flow that checks and normalises the base URL,
// logs in and creates the entry (config_flow.py), with the part of Python's
// `urllib.parse.urlparse` that the check depends on.

module HikConfig {
  import opened Common

  // ---- urlparse ----------------------------------------------------------------------------

  /** `str.find(c)`: the first index of `c`, or -1. */
  function Find(s: string, c: char): (i: int)
    ensures -1 <= i < |s|
    ensures i >= 0 ==> s[i] == c
    ensures forall j :: 0 <= j < |s| && (i == -1 || j < i) ==> s[j] != c
  {
    if |s| == 0 then -1
    else if s[0] == c then 0
    else
      var rest := Find(s[1..], c);
      assert forall j :: 1 <= j < |s| ==> s[j] == s[1..][j - 1];
      if rest == -1 then -1 else rest + 1
  }

  /** `str.rfind(c)`: the last index of `c`, or -1. */
  function RFind(s: string, c: char): (i: int)
    ensures -1 <= i < |s|
    ensures i >= 0 ==> s[i] == c
    ensures forall j :: 0 <= j < |s| && j > i ==> s[j] != c
  {
    if |s| == 0 then -1
    else if s[|s| - 1] == c then |s| - 1
    else RFind(s[..|s| - 1], c)
  }

  predicate IsAsciiLetter(c: char)
  {
    IsLower(c) || IsUpper(c)
  }

  /** The characters a scheme may hold: ASCII letters, digits, `+`, `-` and `.`. */
  predicate IsSchemeChar(c: char)
  {
    IsAlnum(c) || c == '+' || c == '-' || c == '.'
  }

  /** The scheme before the first `:`, lower-cased, when it starts with a letter and has only scheme characters. */
  function SplitScheme(url: string): (r: (string, string))
    ensures r.0 == "" ==> r.1 == url
    ensures |r.1| <= |url| && r.1 == url[|url| - |r.1|..]
    ensures r.0 != "" ==> forall j :: 0 <= j < |r.0| ==> r.0[j] != ':'
  {
    var i := Find(url, ':');
    if i > 0 && IsAsciiLetter(url[0]) && forall j :: 0 <= j < i ==> IsSchemeChar(url[j])
    then (LowerString(url[..i]), url[i + 1..])
    else ("", url)
  }

  predicate IsNetlocDelimiter(c: char)
  {
    c == '/' || c == '?' || c == '#'
  }

  /** The earliest of the positions of `/`, `?` and `#`, or the length when there is none. */
  function FirstDelimiter(s: string): (d: nat)
    ensures d <= |s|
    ensures forall j :: 0 <= j < d ==> !IsNetlocDelimiter(s[j])
    ensures d < |s| ==> IsNetlocDelimiter(s[d])
  {
    if |s| == 0 then 0
    else if IsNetlocDelimiter(s[0]) then 0
    else
      assert forall j :: 1 <= j < |s| ==> s[j] == s[1..][j - 1];
      1 + FirstDelimiter(s[1..])
  }

  /** `_splitnetloc(url, 2)`: the network location after `//`, up to the first delimiter. */
  function SplitNetloc(url: string): (r: (string, string))
    requires HasPrefix(url, "//")
    ensures forall j :: 0 <= j < |r.0| ==> !IsNetlocDelimiter(r.0[j])
    ensures url == "//" + r.0 + r.1
  {
    var rest := url[2..];
    var d := FirstDelimiter(rest);
    assert url == "//" + rest[..d] + rest[d..];
    (rest[..d], rest[d..])
  }

  /** `s.split(c, 1)` when `c` occurs in `s`, else `(s, "")`. */
  function SplitOnce(s: string, c: char): (r: (string, string))
    ensures c !in s ==> r == (s, "")
    ensures c in s ==> s == r.0 + [c] + r.1 && c !in r.0
  {
    var i := Find(s, c);
    if i < 0 then (s, "") else
      assert s == s[..i] + [c] + s[i + 1..];
      (s[..i], s[i + 1..])
  }

  /** The schemes whose path may carry `;`-parameters. */
  const UsesParams: seq<string> := ["", "ftp", "hdl", "prospero", "http", "imap", "https", "shttp",
                                    "rtsp", "rtsps", "rtspu", "sip", "sips", "mms", "sftp", "tel"]

  /** `_splitparams`: the parameters after the `;` that follows the last `/`, or after the first `;` without `/`. */
  function SplitParams(path: string): (r: (string, string))
    requires ';' in path
  {
    if '/' in path then
      var slash := RFind(path, '/');
      var i := Find(path[slash..], ';');
      if i < 0 then (path, "") else (path[..slash + i], path[slash + i + 1..])
    else
      var i := Find(path, ';');
      (path[..i], path[i + 1..])
  }

  /** What `urlsplit` strips from the front: a C0 control character or a space. */
  predicate IsC0OrSpace(c: char)
  {
    c <= ' '
  }

  /** What `urlsplit` deletes everywhere: tab, carriage return and line feed. */
  predicate IsUnsafeByte(c: char)
  {
    c == '\t' || c == '\r' || c == '\n'
  }

  predicate NoUnsafeBytes(s: string)
  {
    forall j :: 0 <= j < |s| ==> !IsUnsafeByte(s[j])
  }

  lemma SafeConcat(a: string, b: string)
    ensures NoUnsafeBytes(a + b) <==> NoUnsafeBytes(a) && NoUnsafeBytes(b)
  {
    assert forall j :: 0 <= j < |a| ==> (a + b)[j] == a[j];
    assert forall j :: 0 <= j < |b| ==> (a + b)[|a| + j] == b[j];
  }

  lemma SafeSuffix(s: string, t: string)
    requires NoUnsafeBytes(s) && |t| <= |s| && t == s[|s| - |t|..]
    ensures NoUnsafeBytes(t)
  {
    assert forall j :: 0 <= j < |t| ==> t[j] == s[|s| - |t| + j];
  }

  /** `url.lstrip(...)` of C0 controls and spaces. */
  function StripLeading(s: string): (r: string)
    ensures |r| <= |s| && r == s[|s| - |r|..]
    ensures forall j :: 0 <= j < |s| - |r| ==> IsC0OrSpace(s[j])
    ensures r == "" || !IsC0OrSpace(r[0])
  {
    if |s| > 0 && IsC0OrSpace(s[0]) then StripLeading(s[1..]) else s
  }

  /** `url.replace(b, "")` for each unsafe byte. */
  function RemoveUnsafe(s: string): (r: string)
    ensures NoUnsafeBytes(r)
    ensures NoUnsafeBytes(s) ==> r == s
  {
    if |s| == 0 then ""
    else (if IsUnsafeByte(s[0]) then "" else [s[0]]) + RemoveUnsafe(s[1..])
  }

  /** The text `urlsplit` goes on to split. */
  function Sanitize(url: string): (r: string)
    ensures NoUnsafeBytes(r)
    ensures url != "" && !IsC0OrSpace(url[0]) && NoUnsafeBytes(url) ==> r == url
  {
    RemoveUnsafe(StripLeading(url))
  }

  /** The six parts `urlparse` returns. */
  datatype Url = Url(scheme: string, netloc: string, path: string, params: string, query: string, fragment: string)

  /**
   * `urllib.parse.urlparse` with fragments allowed, after the leading C0
   * controls and spaces are stripped and the unsafe bytes deleted; None where
   * it raises ValueError for a network location with an unmatched bracket.
   */
  function UrlParse(url: string): (r: Option<Url>)
    ensures r.Some? ==> forall j :: 0 <= j < |r.value.netloc| ==> !IsNetlocDelimiter(r.value.netloc[j])
    ensures r.Some? ==> ('[' in r.value.netloc) == (']' in r.value.netloc)
    ensures r.Some? ==> NoUnsafeBytes(r.value.netloc)
  {
    ParseClean(Sanitize(url))
  }

  /** The splitting `urlparse` does once the text has been sanitised. */
  function ParseClean(clean: string): (r: Option<Url>)
    requires NoUnsafeBytes(clean)
    ensures r.Some? ==> forall j :: 0 <= j < |r.value.netloc| ==> !IsNetlocDelimiter(r.value.netloc[j])
    ensures r.Some? ==> ('[' in r.value.netloc) == (']' in r.value.netloc)
    ensures r.Some? ==> NoUnsafeBytes(r.value.netloc)
  {
    var (scheme, afterScheme) := SplitScheme(clean);
    SafeSuffix(clean, afterScheme);
    var (netloc, afterNetloc) := if HasPrefix(afterScheme, "//") then SplitNetloc(afterScheme) else ("", afterScheme);
    SafeConcat("//" + netloc, afterNetloc);
    SafeConcat("//", netloc);
    if ('[' in netloc) != (']' in netloc) then None
    else
      var (beforeFragment, fragment) := SplitOnce(afterNetloc, '#');
      var (path, query) := SplitOnce(beforeFragment, '?');
      var (path', params) := if scheme in UsesParams && ';' in path then SplitParams(path) else (path, "");
      Some(Url(scheme, netloc, path', params, query, fragment))
  }

  // ---- validate_input ---------------------------------------------------------------------

  /** How checking a base URL ends: with the normalised URL, `InvalidBaseURL`, or an error from `urlparse`. */
  datatype UrlCheck = Normalized(url: string) | InvalidBaseUrl | ParseRaises

  /** The URL checks of `validate_input`. */
  function CheckBaseUrl(baseUrl: string): (r: UrlCheck)
    ensures r.ParseRaises? <==> UrlParse(baseUrl).None?
    ensures UrlParse(baseUrl).Some? ==>
              var u := UrlParse(baseUrl).value;
              (u.path != "" || u.params != "" || u.query != "" || u.fragment != "" ==> r == InvalidBaseUrl) &&
              (u.scheme != "http" && u.scheme != "https" ==> r == InvalidBaseUrl) &&
              (r.Normalized? ==> (u.scheme == "http" || u.scheme == "https") && r.url == u.scheme + "://" + u.netloc) &&
              ((u.path == "" && u.params == "" && u.query == "" && u.fragment == "" &&
                (u.scheme == "http" || u.scheme == "https")) ==> r == Normalized(u.scheme + "://" + u.netloc))
  {
    var parsed := UrlParse(baseUrl);
    if parsed.None? then ParseRaises
    else
      var u := parsed.value;
      if u.path != "" || u.params != "" || u.query != "" || u.fragment != "" then InvalidBaseUrl
      else if u.scheme != "http" && u.scheme != "https" then InvalidBaseUrl
      else Normalized(u.scheme + "://" + u.netloc)
  }

  /** The first occurrence is where the character is and nowhere before. */
  lemma FindAt(s: string, c: char, i: nat)
    requires i < |s| && s[i] == c && forall j :: 0 <= j < i ==> s[j] != c
    ensures Find(s, c) == i
  {
  }

  /** A scheme of lower-case letters is split off as it is. */
  lemma SplitLowerScheme(scheme: string, rest: string)
    requires |scheme| > 0 && forall j :: 0 <= j < |scheme| ==> IsLower(scheme[j])
    ensures SplitScheme(scheme + ":" + rest) == (scheme, rest)
  {
    var url := scheme + ":" + rest;
    assert forall j :: 0 <= j < |scheme| ==> url[j] == scheme[j];
    FindAt(url, ':', |scheme|);
    assert url[..|scheme|] == scheme;
    assert url[|scheme| + 1..] == rest;
    assert LowerString(scheme) == scheme;
  }

  /** An `http` or `https` scheme is split off as it is. */
  lemma SplitWebScheme(scheme: string, rest: string)
    requires scheme == "http" || scheme == "https"
    ensures SplitScheme(scheme + ":" + rest) == (scheme, rest)
  {
    assert forall j :: 0 <= j < |scheme| ==> IsLower(scheme[j]);
    SplitLowerScheme(scheme, rest);
  }

  lemma FirstDelimiterAt(s: string, d: nat)
    requires d <= |s| && forall j :: 0 <= j < d ==> !IsNetlocDelimiter(s[j])
    requires d < |s| ==> IsNetlocDelimiter(s[d])
    ensures FirstDelimiter(s) == d
  {
  }

  /** The network location runs to the first delimiter that follows it. */
  lemma SplitNetlocAt(netloc: string, tail: string)
    requires forall j :: 0 <= j < |netloc| ==> !IsNetlocDelimiter(netloc[j])
    requires tail == "" || IsNetlocDelimiter(tail[0])
    ensures SplitNetloc("//" + netloc + tail) == (netloc, tail)
  {
    var url := "//" + netloc + tail;
    assert url[2..] == netloc + tail;
    assert forall j :: 0 <= j < |netloc| ==> (netloc + tail)[j] == netloc[j];
    assert tail != "" ==> (netloc + tail)[|netloc|] == tail[0];
    FirstDelimiterAt(netloc + tail, |netloc|);
    assert (netloc + tail)[..|netloc|] == netloc;
    assert (netloc + tail)[|netloc|..] == tail;
  }

  /** A normalised URL parses back into its scheme and network location alone. */
  lemma ParseNormalized(scheme: string, netloc: string)
    requires scheme == "http" || scheme == "https"
    requires forall j :: 0 <= j < |netloc| ==> !IsNetlocDelimiter(netloc[j])
    requires ('[' in netloc) == (']' in netloc)
    requires NoUnsafeBytes(netloc)
    ensures UrlParse(scheme + "://" + netloc) == Some(Url(scheme, netloc, "", "", "", ""))
  {
    var url := scheme + "://" + netloc;
    SafeConcat(scheme + "://", netloc);
    assert NoUnsafeBytes(scheme + "://");
    assert url[0] == 'h';
    assert Sanitize(url) == url;
    assert url == scheme + ":" + ("//" + netloc);
    SplitWebScheme(scheme, "//" + netloc);
    assert "//" + netloc == "//" + netloc + "";
    SplitNetlocAt(netloc, "");
    ParseBareNetloc(url, scheme, netloc);
  }

  /** Text that splits into a scheme and a network location with nothing after it parses to those two alone. */
  lemma ParseBareNetloc(clean: string, scheme: string, netloc: string)
    requires NoUnsafeBytes(clean)
    requires SplitScheme(clean) == (scheme, "//" + netloc)
    requires HasPrefix("//" + netloc, "//") && SplitNetloc("//" + netloc) == (netloc, "")
    requires ('[' in netloc) == (']' in netloc)
    ensures ParseClean(clean) == Some(Url(scheme, netloc, "", "", "", ""))
  {
    assert SplitOnce("", '#') == ("", "");
    assert SplitOnce("", '?') == ("", "");
  }

  /** `urlparse` sees only the sanitised text. */
  lemma ParseSeesSanitized(a: string, b: string)
    requires Sanitize(a) == Sanitize(b)
    ensures UrlParse(a) == UrlParse(b)
  {
    var clean := Sanitize(a);
    assert UrlParse(a) == ParseClean(clean);
    assert UrlParse(b) == ParseClean(clean);
  }

  /** A normalised URL behind a space sanitises to the URL itself. */
  lemma SanitizeSpaced(scheme: string, netloc: string)
    requires scheme == "http" || scheme == "https"
    requires NoUnsafeBytes(netloc)
    ensures Sanitize(" " + scheme + "://" + netloc) == scheme + "://" + netloc
  {
    var url := scheme + "://" + netloc;
    assert " " + scheme + "://" + netloc == " " + url;
    assert (" " + url)[1..] == url;
    assert url[0] == 'h';
    SafeConcat(scheme + "://", netloc);
    assert NoUnsafeBytes(scheme + "://");
  }

  /**
   * Leading spaces are stripped before parsing: " https://host" is accepted
   * and normalised to "https://host".
   */
  lemma LeadingSpaceIsStripped(scheme: string, netloc: string)
    requires scheme == "http" || scheme == "https"
    requires forall j :: 0 <= j < |netloc| ==> !IsNetlocDelimiter(netloc[j])
    requires ('[' in netloc) == (']' in netloc)
    requires NoUnsafeBytes(netloc)
    ensures CheckBaseUrl(" " + scheme + "://" + netloc) == Normalized(scheme + "://" + netloc)
  {
    var url := scheme + "://" + netloc;
    SanitizeSpaced(scheme, netloc);
    ParseNormalized(scheme, netloc);
    assert Sanitize(url) == url;
    ParseSeesSanitized(" " + scheme + "://" + netloc, url);
  }

  /** Normalising a normalised base URL gives it back unchanged. */
  lemma NormalizeIsIdempotent(baseUrl: string)
    requires CheckBaseUrl(baseUrl).Normalized?
    ensures CheckBaseUrl(CheckBaseUrl(baseUrl).url) == CheckBaseUrl(baseUrl)
  {
    var u := UrlParse(baseUrl).value;
    ParseNormalized(u.scheme, u.netloc);
  }

  // ---- the user step ----------------------------------------------------------------------

  /** The submitted form: all three keys are required by the schema. */
  datatype UserInput = UserInput(username: string, password: string, baseUrl: string)

  /** What logging in did: succeeded, raised `LoginError`, or raised something else. */
  datatype LoginResult = LoggedIn | LoginError | LoginRaises

  /** The exception `validate_input` ends with. */
  datatype Raised = InvalidBaseURL | LoginFailed | Unexpected

  datatype Validation = Validated(data: UserInput) | Raises(error: Raised)

  /**
   * `validate_input`: the base URL is checked and normalised in the submitted
   * data, then the client logs in with it (`login` answers for the service).
   */
  function ValidateInput(data: UserInput, login: (string, string, string) -> LoginResult): (r: Validation)
    ensures CheckBaseUrl(data.baseUrl) == InvalidBaseUrl ==> r == Raises(InvalidBaseURL)
    ensures CheckBaseUrl(data.baseUrl) == ParseRaises ==> r == Raises(Unexpected)
    ensures r.Validated? <==> CheckBaseUrl(data.baseUrl).Normalized? &&
                              login(CheckBaseUrl(data.baseUrl).url, data.username, data.password) == LoggedIn
    ensures r.Validated? ==> r.data == data.(baseUrl := CheckBaseUrl(data.baseUrl).url)
    ensures r == Raises(LoginFailed) <==> CheckBaseUrl(data.baseUrl).Normalized? &&
                                          login(CheckBaseUrl(data.baseUrl).url, data.username, data.password) == LoginError
  {
    match CheckBaseUrl(data.baseUrl)
    case ParseRaises => Raises(Unexpected)
    case InvalidBaseUrl => Raises(InvalidBaseURL)
    case Normalized(url) =>
      match login(url, data.username, data.password)
      case LoggedIn => Validated(data.(baseUrl := url))
      case LoginError => Raises(LoginFailed)
      case LoginRaises => Raises(Unexpected)
  }

  /** The form errors for each exception the step catches. */
  function ErrorsFor(e: Raised): (errors: map<string, string>)
    ensures e == InvalidBaseURL <==> "base_url" in errors
    ensures e == InvalidBaseURL ==> errors == map["base_url" := "invalid_base_url"]
    ensures e == LoginFailed ==> errors == map["base" := "login_failed"]
    ensures e == Unexpected ==> errors == map["base" := "unknown"]
  {
    match e
    case InvalidBaseURL => map["base_url" := "invalid_base_url"]
    case LoginFailed => map["base" := "login_failed"]
    case Unexpected => map["base" := "unknown"]
  }

  datatype FlowResult = ShowForm(errors: map<string, string>) | CreateEntry(title: string, data: UserInput)
                      | Abort(reason: string)

  /**
   * `async_step_user` as written: setting the unique id and the check for an
   * existing entry raise `AbortFlow` inside the `try`, where `except Exception`
   * turns them into the "unknown" error. `inProgress` holds the unique ids of
   * other flows under way; `configured` those of existing entries.
   */
  function UserStepAsWritten(input: Option<UserInput>, login: (string, string, string) -> LoginResult,
                             inProgress: set<string>, configured: set<string>): (r: FlowResult)
    ensures !r.Abort?
    ensures input.None? ==> r == ShowForm(map[])
    ensures input.Some? && ValidateInput(input.value, login).Raises? ==>
              r == ShowForm(ErrorsFor(ValidateInput(input.value, login).error))
    ensures r.CreateEntry? ==> input.Some? && r.title == input.value.username &&
                               r.data == ValidateInput(input.value, login).data &&
                               r.title !in inProgress && r.title !in configured
  {
    if input.None? then ShowForm(map[])
    else
      match ValidateInput(input.value, login)
      case Raises(e) => ShowForm(ErrorsFor(e))
      case Validated(data) =>
        var uniqueId := data.username;
        if uniqueId in inProgress || uniqueId in configured then ShowForm(map["base" := "unknown"])
        else CreateEntry(uniqueId, data)
  }

  /** `async_step_user` with the flow's own aborts let through, as the host expects. */
  function UserStep(input: Option<UserInput>, login: (string, string, string) -> LoginResult,
                    inProgress: set<string>, configured: set<string>): (r: FlowResult)
    ensures input.None? ==> r == ShowForm(map[])
    ensures input.Some? && ValidateInput(input.value, login).Raises? ==>
              r == ShowForm(ErrorsFor(ValidateInput(input.value, login).error))
    ensures input.Some? && ValidateInput(input.value, login).Validated? ==>
              var id := input.value.username;
              (id in inProgress ==> r == Abort("already_in_progress")) &&
              (id !in inProgress && id in configured ==> r == Abort("already_configured")) &&
              (id !in inProgress && id !in configured ==> r == CreateEntry(id, ValidateInput(input.value, login).data))
    ensures r.CreateEntry? ==> input.Some? && ValidateInput(input.value, login).Validated? &&
                               r == CreateEntry(input.value.username, ValidateInput(input.value, login).data)
  {
    if input.None? then ShowForm(map[])
    else
      match ValidateInput(input.value, login)
      case Raises(e) => ShowForm(ErrorsFor(e))
      case Validated(data) =>
        var uniqueId := data.username;
        if uniqueId in inProgress then Abort("already_in_progress")
        else if uniqueId in configured then Abort("already_configured")
        else CreateEntry(uniqueId, data)
  }

  /**
   * An account that is already configured, submitted again with working
   * credentials, gets the "unknown" error instead of the abort.
   */
  lemma DuplicateAccountShowsUnknownError(input: UserInput, login: (string, string, string) -> LoginResult,
                                          configured: set<string>)
    requires ValidateInput(input, login).Validated? && input.username in configured
    ensures UserStepAsWritten(Some(input), login, {}, configured) == ShowForm(map["base" := "unknown"])
    ensures UserStep(Some(input), login, {}, configured) == Abort("already_configured")
  {
  }

  /** Outside the duplicate cases the correction changes nothing. */
  lemma CorrectionOnlyAffectsDuplicates(input: Option<UserInput>, login: (string, string, string) -> LoginResult,
                                        inProgress: set<string>, configured: set<string>)
    requires input.None? || ValidateInput(input.value, login).Raises? ||
             (input.value.username !in inProgress && input.value.username !in configured)
    ensures UserStep(input, login, inProgress, configured) == UserStepAsWritten(input, login, inProgress, configured)
  {
  }

  /** A created entry stores a base URL that checks as already normalised. */
  lemma CreatedEntryHasNormalizedUrl(input: UserInput, login: (string, string, string) -> LoginResult,
                                     inProgress: set<string>, configured: set<string>)
    requires UserStep(Some(input), login, inProgress, configured).CreateEntry?
    ensures var data := UserStep(Some(input), login, inProgress, configured).data;
            CheckBaseUrl(data.baseUrl) == Normalized(data.baseUrl)
  {
    ValidatedUrlIsNormalized(input, login);
  }

  /** The data `validate_input` hands back holds a base URL that checks as already normalised. */
  lemma ValidatedUrlIsNormalized(input: UserInput, login: (string, string, string) -> LoginResult)
    requires ValidateInput(input, login).Validated?
    ensures var url := ValidateInput(input, login).data.baseUrl; CheckBaseUrl(url) == Normalized(url)
  {
    NormalizeIsIdempotent(input.baseUrl);
  }
}
