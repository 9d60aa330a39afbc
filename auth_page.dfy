/**
 * The authentication form's pure logic: the mode taken from the query
 * string, the ordered field validation, the API base address, and the
 * endpoint and payload chosen by mode once validation has passed.
 *
 * JavaScript's `String.prototype.trim` is modelled over the ASCII
 * whitespace characters only; lengths count `char`s.
 */
module AuthPage {
  import opened Wrappers

  /** The two forms the page can show. */
  datatype Mode = Login | Signup

  /** `initialMode`: signup only when the `mode` query value is exactly "signup". */
  function InitialMode(modeParam: Option<string>): (m: Mode)
    ensures m == Signup <==> modeParam == Some("signup")
  {
    if modeParam == Some("signup") then Signup else Login
  }

  /** Space, tab, line feed, vertical tab, form feed and carriage return. */
  predicate IsWhitespace(c: char) {
    c == ' ' || c == '\t' || c == '\n' || c == '\U{000B}' || c == '\U{000C}' || c == '\r'
  }

  /** The index of the first non-whitespace character at or after `i`, or `|s|`. */
  function SkipLeading(s: string, i: nat): (k: nat)
    requires i <= |s|
    ensures i <= k <= |s|
    ensures k < |s| ==> !IsWhitespace(s[k])
    ensures forall j :: i <= j < k ==> IsWhitespace(s[j])
    decreases |s| - i
  {
    if i < |s| && IsWhitespace(s[i]) then SkipLeading(s, i + 1) else i
  }

  /** The index just past the last non-whitespace character before `j`, or 0. */
  function SkipTrailing(s: string, j: nat): (k: nat)
    requires j <= |s|
    ensures k <= j
    ensures k > 0 ==> !IsWhitespace(s[k - 1])
    ensures forall i :: k <= i < j ==> IsWhitespace(s[i])
  {
    if j > 0 && IsWhitespace(s[j - 1]) then SkipTrailing(s, j - 1) else j
  }

  /** Leading whitespace dropped: the longest suffix not starting with whitespace. */
  function TrimStart(s: string): (r: string)
    ensures |r| <= |s| && r == s[|s| - |r|..]
    ensures r == [] || !IsWhitespace(r[0])
    ensures forall i :: 0 <= i < |s| - |r| ==> IsWhitespace(s[i])
  {
    s[SkipLeading(s, 0)..]
  }

  /** Trailing whitespace dropped: the longest prefix not ending with whitespace. */
  function TrimEnd(s: string): (r: string)
    ensures |r| <= |s| && r == s[..|r|]
    ensures r == [] || !IsWhitespace(r[|r| - 1])
    ensures forall i :: |r| <= i < |s| ==> IsWhitespace(s[i])
  {
    s[..SkipTrailing(s, |s|)]
  }

  /** `trim`: whitespace dropped at both ends; a whitespace-only string becomes empty. */
  function Trim(s: string): (r: string)
    ensures |r| <= |s|
    ensures r == [] || (!IsWhitespace(r[0]) && !IsWhitespace(r[|r| - 1]))
    ensures (forall i :: 0 <= i < |s| ==> IsWhitespace(s[i])) ==> r == []
    ensures s == [] || (!IsWhitespace(s[0]) && !IsWhitespace(s[|s| - 1])) ==> r == s
  {
    var t := TrimStart(s);
    var r := TrimEnd(t);
    assert r != [] ==> r[0] == t[0];
    r
  }

  /** A prefix `r` of a suffix `t` of `s` is a slice of `s`; what `t` drops after `r` ends `s`. */
  lemma PrefixOfSuffix(s: string, t: string, r: string)
    requires |t| <= |s| && t == s[|s| - |t|..]
    requires |r| <= |t| && r == t[..|r|]
    requires forall k :: |r| <= k < |t| ==> IsWhitespace(t[k])
    ensures r == s[|s| - |t|..|s| - |t| + |r|]
    ensures forall k :: |s| - |t| + |r| <= k < |s| ==> IsWhitespace(s[k])
  {
    var i := |s| - |t|;
    forall k | i + |r| <= k < |s|
      ensures IsWhitespace(s[k])
    {
      assert s[k] == t[k - i];
    }
  }

  /**
   * The trimmed string is the slice of `s` that starts where the leading
   * whitespace ends.
   */
  lemma TrimIsSlice(s: string)
    ensures |s| - |TrimStart(s)| + |Trim(s)| <= |s|
    ensures Trim(s) == s[|s| - |TrimStart(s)|..|s| - |TrimStart(s)| + |Trim(s)|]
  {
    var t := TrimStart(s);
    var r := TrimEnd(t);
    assert Trim(s) == r;
    PrefixOfSuffix(s, t, r);
  }

  /** Everything of `s` before and after the trimmed slice is whitespace. */
  lemma TrimDropsOnlyWhitespace(s: string)
    ensures forall k :: 0 <= k < |s| - |TrimStart(s)| ==> IsWhitespace(s[k])
    ensures forall k :: |s| - |TrimStart(s)| + |Trim(s)| <= k < |s| ==> IsWhitespace(s[k])
  {
    var t := TrimStart(s);
    var r := TrimEnd(t);
    assert Trim(s) == r;
    PrefixOfSuffix(s, t, r);
  }

  const EmailMessage: string := "Please enter a valid email."
  const NameMessage: string := "Please enter your full name."
  const PasswordMessage: string := "Password must be at least 6 characters."

  /** The email check: not empty and containing an '@'. */
  predicate EmailOk(email: string) {
    email != "" && '@' in email
  }

  /** The name check, applied in signup mode only: at least two characters once trimmed. */
  predicate NameOk(mode: Mode, name: string) {
    mode == Signup ==> |Trim(name)| >= 2
  }

  /** The password check: at least six characters. */
  predicate PasswordOk(password: string) {
    |password| >= 6
  }

  /**
   * `validate`: the checks run in the order email, name, password and the
   * first failing one's message is returned; `None` when all pass.
   */
  function Validate(mode: Mode, email: string, name: string, password: string): (v: Option<string>)
    ensures !EmailOk(email) ==> v == Some(EmailMessage)
    ensures EmailOk(email) && !NameOk(mode, name) ==> v == Some(NameMessage)
    ensures EmailOk(email) && NameOk(mode, name) && !PasswordOk(password) ==> v == Some(PasswordMessage)
    ensures v == None <==> EmailOk(email) && NameOk(mode, name) && PasswordOk(password)
  {
    if email == "" || '@' !in email then Some(EmailMessage)
    else if mode == Signup && |Trim(name)| < 2 then Some(NameMessage)
    else if |password| < 6 then Some(PasswordMessage)
    else None
  }

  /** The three messages differ, so the message names the check that failed. */
  lemma MessagesDistinct()
    ensures EmailMessage != NameMessage && NameMessage != PasswordMessage && EmailMessage != PasswordMessage
  {
  }

  /** In login mode the name is never consulted. */
  lemma LoginIgnoresName(email: string, name1: string, name2: string, password: string)
    ensures Validate(Login, email, name1, password) == Validate(Login, email, name2, password)
  {
  }

  /** In signup mode a whitespace-only name is rejected once the email is accepted. */
  lemma WhitespaceNameRejected(email: string, name: string, password: string)
    requires EmailOk(email)
    requires forall i :: 0 <= i < |name| ==> IsWhitespace(name[i])
    ensures Validate(Signup, email, name, password) == Some(NameMessage)
  {
  }

  /** A five-character password is rejected and a six-character one accepted. */
  lemma PasswordBoundary(mode: Mode, email: string, name: string, p5: string, p6: string)
    requires EmailOk(email) && NameOk(mode, name)
    requires |p5| == 5 && |p6| == 6
    ensures Validate(mode, email, name, p5) == Some(PasswordMessage)
    ensures Validate(mode, email, name, p6) == None
  {
  }

  const DefaultApiBase: string := "http://localhost:5000"

  /** `API_BASE`: the trimmed environment value, or the default when it is absent or blank. */
  function ApiBase(env: Option<string>): (base: string)
    ensures base != ""
    ensures env.None? ==> base == DefaultApiBase
    ensures env.Some? && Trim(env.value) != "" ==> base == Trim(env.value)
    ensures env.Some? && Trim(env.value) == "" ==> base == DefaultApiBase
  {
    if env.Some? && Trim(env.value) != "" then Trim(env.value) else DefaultApiBase
  }

  /** The JSON body of the request: login sends the remember flag, signup the name. */
  datatype Payload =
    | LoginPayload(email: string, password: string, remember: bool)
    | SignupPayload(name: string, email: string, password: string)

  /** The POST request `handleSubmit` sends. */
  datatype Request = Request(url: string, payload: Payload)

  /** The endpoint and payload chosen by mode. */
  function BuildRequest(mode: Mode, apiBase: string, email: string, name: string,
                        password: string, remember: bool): (req: Request)
    ensures apiBase <= req.url
    ensures req.payload.LoginPayload? <==> mode == Login
    ensures req.payload.email == email && req.payload.password == password
    ensures mode == Login ==> req.url == apiBase + "/api/auth/login" && req.payload.remember == remember
    ensures mode == Signup ==> req.url == apiBase + "/api/auth/signup" && req.payload.name == name
  {
    if mode == Login then Request(apiBase + "/api/auth/login", LoginPayload(email, password, remember))
    else Request(apiBase + "/api/auth/signup", SignupPayload(name, email, password))
  }

  /** The two modes post to different endpoints. */
  lemma EndpointsDiffer(apiBase: string, email: string, name: string, password: string, remember: bool)
    ensures BuildRequest(Login, apiBase, email, name, password, remember).url
         != BuildRequest(Signup, apiBase, email, name, password, remember).url
  {
  }

  /**
   * `handleSubmit` up to the network call: a validation message stops the
   * submission; otherwise the request for the current mode is built.
   */
  function Submit(mode: Mode, apiBase: string, email: string, name: string,
                  password: string, remember: bool): (out: Result<Request, string>)
    ensures out.Err? <==> Validate(mode, email, name, password).Some?
    ensures out.Err? ==> out.error == Validate(mode, email, name, password).value
    ensures out.Ok? ==> out.value == BuildRequest(mode, apiBase, email, name, password, remember)
  {
    var v := Validate(mode, email, name, password);
    if v.Some? then Err(v.value) else Ok(BuildRequest(mode, apiBase, email, name, password, remember))
  }

  /** A login submission never carries the name, so a bad name cannot block it. */
  lemma LoginSubmitIgnoresName(apiBase: string, email: string, name1: string, name2: string,
                               password: string, remember: bool)
    ensures Submit(Login, apiBase, email, name1, password, remember)
         == Submit(Login, apiBase, email, name2, password, remember)
  {
  }
}
