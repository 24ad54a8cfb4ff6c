/**
 * The sign-in page (client/pages/Login.tsx): the guard chain of
 * `validateForm`, the ordered mapping of a sign-in error message to what the
 * page shows, and the page state that `handleInputChange` and `handleSubmit`
 * update. The e-mail checks are the ones the registration page uses.
 */
module LoginPage {
  import opened Records
  import opened FormValidation
  import Database
  import RegisterPage

  const EmailRequired: string := "กรุณากรอกอีเมล"
  const EmailInvalid: string := "รูปแบบอีเมลไม่ถูกต้อง"
  const PasswordRequired: string := "กรุณากรอกรหัสผ่าน"

  const WrongCredentials: string := "อีเมลหรือรหัสผ่านไม่ถูกต้อง"
  const AccountNotFound: string := "ไม่พบบัญชีผู้ใช้นี้"
  const WrongPassword: string := "รหัสผ่านไม่ถูกต้อง"
  const SignInFailed: string := "เกิดข้อผิดพลาดในการเข้าสู่ระบบ กรุณาลองใหม่อีกครั้ง"

  /** What the Google button's handler shows when starting Google sign-in fails. */
  const GoogleSignInFailed: string := "เกิดข้อผิดพลาดในการเข้าสู่ระบบด้วย Google กรุณาลองใหม่อีกครั้ง"

  /** The message thrown when sign-in returns neither an error nor a user. */
  const NoUserReturned: string := "Login failed - no user returned"

  datatype Form = Form(email: string, password: string)

  /** The `name` attributes of the page's inputs. */
  datatype Field = Email | Password

  function Get(f: Form, field: Field): string
  {
    match field
    case Email => f.email
    case Password => f.password
  }

  /** `{...prev, [name]: value}`: the named field replaced, the other kept. */
  function WithField(f: Form, field: Field, value: string): (r: Form)
    ensures Get(r, field) == value
    ensures forall g :: g != field ==> Get(r, g) == Get(f, g)
  {
    match field
    case Email => f.(email := value)
    case Password => f.(password := value)
  }

  /** `validateForm`: the message of the first failing check, or "". */
  function ValidateForm(f: Form): string
  {
    if Trim(f.email) == "" then EmailRequired
    else if !EmailFormat(f.email) then EmailInvalid
    else if f.password == "" then PasswordRequired
    else ""
  }

  /** The checks, in the order the page applies them. */
  datatype Check = EmailEmpty | EmailBadFormat | PasswordEmpty

  const Order: seq<Check> := [EmailEmpty, EmailBadFormat, PasswordEmpty]

  /** When each check fails, in terms of the characters of the fields. */
  predicate Fails(f: Form, c: Check)
  {
    match c
    case EmailEmpty => forall k :: 0 <= k < |f.email| ==> IsSpace(f.email[k])
    case EmailBadFormat => !EmailFormat(f.email)
    case PasswordEmpty => f.password == ""
  }

  function Message(c: Check): string
  {
    match c
    case EmailEmpty => EmailRequired
    case EmailBadFormat => EmailInvalid
    case PasswordEmpty => PasswordRequired
  }

  /** validateForm returns "" iff no check fails. */
  lemma ValidateFormPasses(f: Form)
    ensures ValidateForm(f) == "" <==> forall c :: !Fails(f, c)
  {
    BlankIffAllSpace(f.email);
    if ValidateForm(f) != "" {
      var k :| 0 <= k < |Order| && Fails(f, Order[k]) by {
        if Fails(f, EmailEmpty) { assert Order[0] == EmailEmpty; }
        else if Fails(f, EmailBadFormat) { assert Order[1] == EmailBadFormat; }
        else { assert Order[2] == PasswordEmpty; }
      }
    }
  }

  /** Otherwise it returns the message of the first check, in page order, that fails. */
  lemma ValidateFormFirstFailure(f: Form, k: nat)
    requires k < |Order| && Fails(f, Order[k])
    requires forall j :: 0 <= j < k ==> !Fails(f, Order[j])
    ensures ValidateForm(f) == Message(Order[k])
  {
    BlankIffAllSpace(f.email);
    if k > 0 { assert !Fails(f, Order[0]); }
    if k > 1 { assert !Fails(f, Order[1]); }
  }

  /** The page sets no length rule: any non-empty password passes with a
      well-formed e-mail, a single character included. */
  lemma AnyPasswordAccepted(email: string, password: string)
    requires EmailFormat(email) && password != ""
    ensures ValidateForm(Form(email, password)) == ""
  {
    BlankIffAllSpace(email);
    assert !IsSpace(email[0]);
  }

  /** Whatever the registration page accepts, the sign-in page accepts too
      when given the same e-mail and password; the two pages show the same
      text for a blank or malformed e-mail. */
  lemma RegisteredFormSignsIn(f: RegisterPage.Form)
    requires RegisterPage.ValidateForm(f) == ""
    ensures ValidateForm(Form(f.email, f.password)) == ""
    ensures EmailRequired == RegisterPage.EmailRequired && EmailInvalid == RegisterPage.EmailInvalid
  {
  }

  /** The catch block of handleSubmit: ordered, case-sensitive substring tests. */
  function ClassifySignInError(msg: string): string
  {
    if Contains(msg, "Invalid login credentials") || Contains(msg, "invalid") then WrongCredentials
    else if Contains(msg, "email") then AccountNotFound
    else if Contains(msg, "password") then WrongPassword
    else SignInFailed
  }

  /** Each shown message corresponds to its test succeeding and every earlier
      test failing. */
  lemma ClassifySignInErrorSpec(msg: string)
    ensures var wrong := Contains(msg, "Invalid login credentials") || Contains(msg, "invalid");
      var r := ClassifySignInError(msg);
      && (r == WrongCredentials <==> wrong)
      && (r == AccountNotFound <==> !wrong && Contains(msg, "email"))
      && (r == WrongPassword <==> !wrong && !Contains(msg, "email") && Contains(msg, "password"))
      && (r == SignInFailed <==> !wrong && !Contains(msg, "email") && !Contains(msg, "password"))
  {
  }

  /** The auth service's own wording for a bad e-mail/password pair is shown
      as wrong credentials. */
  lemma CredentialsMessage(rest: string)
    ensures ClassifySignInError("Invalid login credentials" + rest) == WrongCredentials
  {
    PrefixContained("Invalid login credentials" + rest, "Invalid login credentials", rest);
  }

  /** The e-mail test comes first: a message naming both the e-mail and the
      password, and not saying invalid, is shown as an unknown account. */
  lemma EmailBeforePassword(msg: string)
    requires !Contains(msg, "Invalid login credentials") && !Contains(msg, "invalid")
    requires Contains(msg, "email") && Contains(msg, "password")
    ensures ClassifySignInError(msg) == AccountNotFound
  {
  }

  /** A message with none of the letters I, v, m, p matches no keyword. */
  lemma LacksKeywords(s: string)
    requires forall i :: 0 <= i < |s| ==> s[i] !in "Ivmp"
    ensures ClassifySignInError(s) == SignInFailed
  {
    MissingCharNotContained(s, "Invalid login credentials", 'I');
    MissingCharNotContained(s, "invalid", 'v');
    MissingCharNotContained(s, "email", 'm');
    MissingCharNotContained(s, "password", 'p');
  }

  /** The "no user returned" error maps to the generic message. */
  lemma NoUserIsGeneric()
    ensures ClassifySignInError(NoUserReturned) == SignInFailed
  {
    LacksKeywords(NoUserReturned);
  }

  /** The error the page shows once sign-in has answered with `r`: the
      classified message of a returned error, or of the missing-user error. */
  function SubmitError(r: Database.AuthResult): (e: string)
    ensures r.error.None? && r.user.Some? <==> e == ""
  {
    if r.error.Some? then ClassifySignInError(r.error.value.message)
    else if r.user.None? then NoUserIsGeneric(); ClassifySignInError(NoUserReturned)
    else ""
  }

  /** The component's state (the OAuth parts are not modelled). */
  class Login {
    var form: Form
    var error: string
    var loading: bool
    var success: bool
    var googleLoading: bool

    constructor ()
      ensures form == Form("", "") && error == "" && !loading && !success && !googleLoading
    {
      form := Form("", "");
      error := "";
      loading := false;
      success := false;
      googleLoading := false;
    }

    /** handleInputChange: replaces the named field and clears the error. */
    method HandleInputChange(field: Field, value: string)
      modifies this
      ensures form == WithField(old(form), field, value)
      ensures error == "" && loading == old(loading) && success == old(success)
      ensures googleLoading == old(googleLoading)
    {
      form := WithField(form, field, value);
      if error != "" {
        error := "";
      }
    }

    /** handleSubmit: a failing check is shown and nothing else happens;
        otherwise sign-in runs with the auth service's answer `auth`, success
        is set only for a returned user with no error, any other outcome shows
        its classified message, and loading ends false. */
    method HandleSubmit(auth: Database.AuthResult)
      modifies this
      ensures form == old(form) && googleLoading == old(googleLoading)
      ensures ValidateForm(old(form)) != "" ==>
        error == ValidateForm(old(form)) && loading == old(loading) && success == old(success)
      ensures ValidateForm(old(form)) == "" ==>
        && !loading
        && success == ((auth.error.None? && auth.user.Some?) || old(success))
        && error == SubmitError(auth)
    {
      var validationError := ValidateForm(form);
      if validationError != "" {
        error := validationError;
        return;
      }
      loading := true;
      error := "";
      var result := Database.SignIn(auth);
      var thrown: Option<string> := None;
      if result.error.Some? {
        thrown := Some(result.error.value.message);
      } else if result.user.Some? {
        success := true;
      } else {
        thrown := Some(NoUserReturned);
      }
      if thrown.Some? {
        error := ClassifySignInError(thrown.value);
      }
      loading := false;
    }

    /** handleGoogleSignIn: the data-access layer has no `signInWithGoogle`,
        so the call throws at once; the catch shows the Google error message
        and ends the Google loading state. Nothing else changes. */
    method HandleGoogleSignIn()
      modifies this
      ensures error == GoogleSignInFailed && !googleLoading
      ensures form == old(form) && loading == old(loading) && success == old(success)
    {
      googleLoading := true;
      error := "";
      error := GoogleSignInFailed;
      googleLoading := false;
    }
  }
}
