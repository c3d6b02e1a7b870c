/** The sign-up form: field updates, client-side validation (username, email pattern, password
    length) and the dispatch on the registration response. */
module Registration {
  import opened Domain

  /** The characters of the regular-expression class `\s`, which are also the ones `trim`
      removes: the ASCII blanks and controls 9-13, space, and the Unicode space separators,
      line and paragraph separators and the byte-order mark. */
  predicate IsSpace(c: char) {
    var n := c as int;
    n == 9 || n == 10 || n == 11 || n == 12 || n == 13 || n == 32 || n == 0xA0 || n == 0x1680
    || (0x2000 <= n <= 0x200A) || n == 0x2028 || n == 0x2029 || n == 0x202F || n == 0x205F
    || n == 0x3000 || n == 0xFEFF
  }

  predicate AllSpace(s: string) {
    forall i :: 0 <= i < |s| ==> IsSpace(s[i])
  }

  /** The first index at or after `i` that does not hold white space, or `|s|`. */
  function SkipSpace(s: string, i: nat): (n: nat)
    requires i <= |s|
    ensures i <= n <= |s|
    ensures forall k :: i <= k < n ==> IsSpace(s[k])
    ensures n < |s| ==> !IsSpace(s[n])
    decreases |s| - i
  {
    if i < |s| && IsSpace(s[i]) then SkipSpace(s, i + 1) else i
  }

  /** The end of `s[lo..j]` once its trailing white space is dropped. */
  function SkipSpaceBack(s: string, lo: nat, j: nat): (n: nat)
    requires lo <= j <= |s|
    ensures lo <= n <= j
    ensures forall k :: n <= k < j ==> IsSpace(s[k])
    ensures lo < n ==> !IsSpace(s[n - 1])
  {
    if lo < j && IsSpace(s[j - 1]) then SkipSpaceBack(s, lo, j - 1) else j
  }

  /** `String.prototype.trim`: neither end of the result is white space, and the result is
      empty exactly when the input is all white space. */
  function Trim(s: string): (r: string)
    ensures r != [] ==> !IsSpace(r[0]) && !IsSpace(r[|r| - 1])
    ensures r == [] <==> AllSpace(s)
  {
    var a := SkipSpace(s, 0);
    var b := SkipSpaceBack(s, a, |s|);
    s[a..b]
  }

  /** What `trim` keeps is a slice of the input, and everything outside that slice is white
      space. */
  lemma TrimIsSlice(s: string)
    ensures exists a, b ::
      && 0 <= a <= b <= |s| && Trim(s) == s[a..b]
      && forall k :: 0 <= k < |s| && !(a <= k < b) ==> IsSpace(s[k])
  {
    var a := SkipSpace(s, 0);
    var b := SkipSpaceBack(s, a, |s|);
    assert Trim(s) == s[a..b];
  }

  /** A character the classes `[^\s@]` accept. */
  predicate EmailChar(c: char) {
    !IsSpace(c) && c != '@'
  }

  /** What `/^[^\s@]+@[^\s@]+\.[^\s@]+$/` accepts, read off its structure: a non-empty local part,
      `@`, a non-empty label, a dot, a non-empty rest, and no other `@` or white space. */
  ghost predicate MatchesEmailPattern(s: string) {
    exists at, dot :: PatternSplit(s, at, dot)
  }

  /** `s` read as the pattern with its `@` at index `at` and the matched dot at index `dot`. */
  ghost predicate PatternSplit(s: string, at: int, dot: int) {
    && 0 < at && at + 1 < dot < |s| - 1
    && s[at] == '@' && s[dot] == '.'
    && forall j :: 0 <= j < |s| && j != at ==> EmailChar(s[j])
  }

  function CountAt(s: string): (n: nat)
    ensures n == 0 <==> forall j :: 0 <= j < |s| ==> s[j] != '@'
  {
    if s == [] then 0
    else (if s[0] == '@' then 1 else 0) + CountAt(s[1..])
  }

  /** Index of the first `@`, or -1 when there is none. */
  function IndexOfAt(s: string): (r: int)
    ensures -1 <= r < |s|
    ensures r >= 0 ==> s[r] == '@' && forall j :: 0 <= j < r ==> s[j] != '@'
    ensures r == -1 <==> forall j :: 0 <= j < |s| ==> s[j] != '@'
  {
    if s == [] then -1
    else if s[0] == '@' then 0
    else
      var r := IndexOfAt(s[1..]);
      if r == -1 then -1 else r + 1
  }

  /** A domain part with a dot somewhere strictly between its first and last character. */
  predicate HasInnerDot(d: string) {
    exists k :: 0 < k < |d| - 1 && d[k] == '.'
  }

  /** The email check: no white space, exactly one `@`, a non-empty part before it, and a dot
      strictly inside the part after it. */
  predicate EmailShape(s: string) {
    var at := IndexOfAt(s);
    && (forall j :: 0 <= j < |s| ==> !IsSpace(s[j]))
    && CountAt(s) == 1
    && 0 < at
    && HasInnerDot(s[at + 1..])
  }

  /** Splitting the count of `@` at an index. */
  lemma {:induction false} CountAtSplit(s: string, i: int)
    requires 0 <= i <= |s|
    ensures CountAt(s) == CountAt(s[..i]) + CountAt(s[i..])
  {
    if i > 0 {
      CountAtSplit(s[1..], i - 1);
      assert s[1..][..i - 1] == s[..i][1..];
      assert s[1..][i - 1..] == s[i..];
    }
  }

  /** With an `@` at index `at`, it is the only one exactly when the count is one. */
  lemma OnlyAt(s: string, at: int)
    requires 0 <= at < |s| && s[at] == '@'
    ensures CountAt(s) == 1 <==> forall j :: 0 <= j < |s| && j != at ==> s[j] != '@'
  {
    CountAtSplit(s, at);
    CountAtSplit(s[at..], 1);
    assert s[at..][..1] == ['@'];
    assert s[at..][1..] == s[at + 1..];
    assert forall j :: 0 <= j < at ==> s[..at][j] == s[j];
    assert forall j :: at < j < |s| ==> s[at + 1..][j - at - 1] == s[j];
  }

  lemma EmailFormatMatchesPattern(s: string)
    requires EmailShape(s)
    ensures MatchesEmailPattern(s)
  {
    var at := IndexOfAt(s);
    OnlyAt(s, at);
    var d := s[at + 1..];
    var k :| 0 < k < |d| - 1 && d[k] == '.';
    assert s[at + 1 + k] == '.';
    assert PatternSplit(s, at, at + 1 + k);
  }

  lemma PatternMatchesEmailFormat(s: string)
    requires MatchesEmailPattern(s)
    ensures EmailShape(s)
  {
    var at, dot :| PatternSplit(s, at, dot);
    assert IndexOfAt(s) == at;
    OnlyAt(s, at);
    assert s[at + 1..][dot - at - 1] == '.';
  }

  /** The check agrees with the regular expression on every string. */
  lemma EmailFormatIff(s: string)
    ensures EmailShape(s) <==> MatchesEmailPattern(s)
  {
    if EmailShape(s) {
      EmailFormatMatchesPattern(s);
    }
    if MatchesEmailPattern(s) {
      PatternMatchesEmailFormat(s);
    }
  }

  /** `emailRegex.test(email)`. */
  predicate IsEmailFormat(s: string): (ok: bool)
    ensures ok <==> MatchesEmailPattern(s)
  {
    EmailFormatIff(s);
    EmailShape(s)
  }

  datatype Field = Username | Email | Password

  const UsernameRequired := "Username is required"
  const EmailRequired := "Email is required"
  const EmailInvalid := "Invalid email format"
  const PasswordRequired := "Password is required"
  const PasswordTooShort := "Password must be at least 8 characters long"
  const EmailTaken := "Email already exists. Please log in."

  /** The username is rejected exactly when it is blank after trimming. */
  function UsernameError(username: string): (r: Option<string>)
    ensures r.Some? <==> AllSpace(username)
    ensures r.Some? ==> r.value == UsernameRequired
  {
    if Trim(username) == [] then Some(UsernameRequired) else None
  }

  /** An empty email is missing; a present one must match the pattern. */
  function EmailError(email: string): (r: Option<string>)
    ensures email == "" ==> r == Some(EmailRequired)
    ensures email != "" ==> (r.Some? <==> !MatchesEmailPattern(email))
    ensures email != "" && r.Some? ==> r.value == EmailInvalid
  {
    if email == "" then Some(EmailRequired)
    else if !IsEmailFormat(email) then Some(EmailInvalid)
    else None
  }

  /** An empty password is missing; a present one needs at least 8 characters. */
  function PasswordError(password: string): (r: Option<string>)
    ensures r == None <==> |password| >= 8
    ensures password == "" ==> r == Some(PasswordRequired)
    ensures password != "" && |password| < 8 ==> r == Some(PasswordTooShort)
  {
    if password == "" then Some(PasswordRequired)
    else if |password| < 8 then Some(PasswordTooShort)
    else None
  }

  /** The registration call's outcome: a response with its HTTP status, or a thrown error. */
  datatype RegisterResult = Responded(status: int) | NetworkError

  datatype RegisterOutcome = Registered | AlreadyRegistered | Refused | Errored

  /** The branches after the call: `response.ok` (a 2xx status), then status 400, then any other
      status; a thrown error takes the catch branch. */
  function Dispatch(result: RegisterResult): (o: RegisterOutcome)
    ensures o == Registered <==> result.Responded? && 200 <= result.status <= 299
    ensures o == AlreadyRegistered <==> result == Responded(400)
    ensures o == Refused <==> result.Responded? && !(200 <= result.status <= 299) && result.status != 400
    ensures o == Errored <==> result.NetworkError?
  {
    match result
    case NetworkError => Errored
    case Responded(status) =>
      if 200 <= status <= 299 then Registered
      else if status == 400 then AlreadyRegistered
      else Refused
  }

  /** `m` with the field's message recorded when its check failed. */
  function WithError(m: map<Field, string>, f: Field, e: Option<string>): map<Field, string> {
    if e.Some? then m[f := e.value] else m
  }

  /** The errors map `validateForm` builds: one entry per failing check, holding its message. */
  function ValidationErrors(username: string, email: string, password: string): (m: map<Field, string>)
    ensures Username in m <==> UsernameError(username).Some?
    ensures Email in m <==> EmailError(email).Some?
    ensures Password in m <==> PasswordError(password).Some?
    ensures Username in m ==> m[Username] == UsernameError(username).value
    ensures Email in m ==> m[Email] == EmailError(email).value
    ensures Password in m ==> m[Password] == PasswordError(password).value
  {
    var m0 := WithError(map[], Username, UsernameError(username));
    var m1 := WithError(m0, Email, EmailError(email));
    WithError(m1, Password, PasswordError(password))
  }

  /** `validateForm`'s result: every field passes its check exactly when no error is recorded. */
  predicate FieldsValid(username: string, email: string, password: string): (valid: bool)
    ensures valid <==> ValidationErrors(username, email, password) == map[]
  {
    var m := ValidationErrors(username, email, password);
    assert m == map[] <==> Username !in m && Email !in m && Password !in m;
    UsernameError(username).None? && EmailError(email).None? && PasswordError(password).None?
  }

  class RegistrationForm {
    var username: string
    var email: string
    var password: string
    var errors: map<Field, string>
    var loading: bool
    var registrationSuccess: bool

    constructor ()
      ensures username == "" && email == "" && password == "" && errors == map[]
      ensures !loading && !registrationSuccess
    {
      username, email, password := "", "", "";
      errors := map[];
      loading, registrationSuccess := false, false;
    }

    /** `handleInputChanged`: the field whose id matches takes the value; an unknown id changes
        nothing. */
    method HandleInputChanged(id: string, value: string)
      modifies this`username, this`email, this`password
      ensures username == (if id == "username" then value else old(username))
      ensures email == (if id == "email" then value else old(email))
      ensures password == (if id == "password" then value else old(password))
    {
      if id == "username" { username := value; }
      if id == "email" { email := value; }
      if id == "password" { password := value; }
    }

    /** `validateForm`: records at most one error per field and reports whether none was
        recorded. */
    method ValidateForm() returns (valid: bool)
      modifies this`errors
      ensures errors == ValidationErrors(username, email, password)
      ensures valid <==> errors == map[]
      ensures valid <==> FieldsValid(username, email, password)
    {
      var newErrors: map<Field, string> := map[];
      newErrors := WithError(newErrors, Username, UsernameError(username));
      newErrors := WithError(newErrors, Email, EmailError(email));
      newErrors := WithError(newErrors, Password, PasswordError(password));
      assert newErrors == ValidationErrors(username, email, password);
      errors := newErrors;
      valid := |newErrors| == 0;
      assert valid <==> newErrors == map[];
    }

    /** `handleSubmit`: an invalid form sends nothing; otherwise the call is made, `loading` is
        cleared on every path, success is recorded on a 2xx response and status 400 replaces the
        errors with the email-taken message. Returns whether the call was made. */
    method HandleSubmit(result: RegisterResult) returns (requested: bool)
      modifies this`errors, this`loading, this`registrationSuccess
      ensures requested <==> FieldsValid(username, email, password)
      ensures !requested ==> loading == old(loading) && registrationSuccess == old(registrationSuccess)
      ensures requested ==> !loading
      ensures requested ==> registrationSuccess == (old(registrationSuccess) || Dispatch(result) == Registered)
      ensures requested && Dispatch(result) == AlreadyRegistered ==> errors == map[Email := EmailTaken]
      ensures requested && Dispatch(result) != AlreadyRegistered ==> errors == map[]
      ensures !requested ==> errors == ValidationErrors(username, email, password) && errors != map[]
    {
      var valid := ValidateForm();
      if !valid {
        return false;
      }
      requested := true;
      Register(result);
    }

    /** The rest of `handleSubmit` once the form is valid: `loading` is set around the awaited
        request and cleared whatever it returns, then the outcome is applied. */
    method Register(result: RegisterResult)
      modifies this`errors, this`loading, this`registrationSuccess
      ensures !loading
      ensures registrationSuccess == (old(registrationSuccess) || Dispatch(result) == Registered)
      ensures errors == if Dispatch(result) == AlreadyRegistered then map[Email := EmailTaken] else old(errors)
    {
      loading := true;
      // the awaited registration request runs here; its result is `result`
      loading := false;
      var outcome := Dispatch(result);
      if outcome == Registered {
        registrationSuccess := true;
      } else if outcome == AlreadyRegistered {
        errors := map[Email := EmailTaken];
      }
    }
  }
}
