/**
 * The registration page (client/pages/Register.tsx): the ordered guard chain
 * of `validateForm`, the ordered mapping of a sign-up error message to what
 * the page shows, and the page state that `handleInputChange` and
 * `handleSubmit` update.
 */
module RegisterPage {
  import opened Records
  import opened FormValidation
  import Database

  const NameRequired: string := "กรุณากรอกชื่อ-นามสกุล"
  const EmailRequired: string := "กรุณากรอกอีเมล"
  const EmailInvalid: string := "รูปแบบอีเมลไม่ถูกต้อง"
  const PhoneRequired: string := "กรุณากรอกเบอร์โทรศัพท์"
  const PhoneInvalid: string := "รูปแบบเบอร์โทรศัพท์ไม่ถูกต้อง"
  /** As the source has it: two U+FFFD characters stand in the middle of the word. */
  const PasswordRequired: string := "กรุณากรอกร\U{FFFD}\U{FFFD}ัสผ่าน"
  const PasswordTooShort: string := "รหัสผ่านต้องมีอย่างน้อย 6 ตัวอักษร"
  const PasswordMismatch: string := "รหัสผ่านไม่ตรงกัน"

  const MinPasswordLength: nat := 6

  const EmailTaken: string := "อีเมลนี้ถูกใช้งานแล้ว กรุณาใช้อีเมลอื่น"
  const InvalidData: string := "ข้อมูลไม่ถูกต้อง กรุณาตรวจสอบอีกครั้ง"
  const PasswordRejected: string := "รหัสผ่านไม่ถูกต้องตามข้อกำหนด"
  const EmailRejected: string := "รูปแบบอีเมลไม่ถูกต้อง"
  const SignUpFailed: string := "เกิดข้อผิดพลาดในการสมัครสมาชิก กรุณาลองใหม่อีกครั้ง"

  /** What the Google button's handler shows when starting Google sign-in fails. */
  const GoogleSignInFailed: string := "เกิดข้อผิดพลาดในการเข้าสู่ระบบด้วย Google กรุณาลองใหม่อีกครั้ง"

  /** The message thrown when sign-up returns neither an error nor a user. */
  const NoUserReturned: string := "Registration failed - no user returned"

  datatype Form = Form(fullName: string, email: string, phone: string, password: string, confirmPassword: string)

  /** The `name` attributes of the page's inputs. */
  datatype Field = FullName | Email | Phone | Password | ConfirmPassword

  function Get(f: Form, field: Field): string
  {
    match field
    case FullName => f.fullName
    case Email => f.email
    case Phone => f.phone
    case Password => f.password
    case ConfirmPassword => f.confirmPassword
  }

  /** `{...prev, [name]: value}`: the named field replaced, every other kept. */
  function WithField(f: Form, field: Field, value: string): (r: Form)
    ensures Get(r, field) == value
    ensures forall g :: g != field ==> Get(r, g) == Get(f, g)
  {
    match field
    case FullName => f.(fullName := value)
    case Email => f.(email := value)
    case Phone => f.(phone := value)
    case Password => f.(password := value)
    case ConfirmPassword => f.(confirmPassword := value)
  }

  /** `validateForm`: the message of the first failing check, or "". */
  function ValidateForm(f: Form): string
  {
    if Trim(f.fullName) == "" then NameRequired
    else if Trim(f.email) == "" then EmailRequired
    else if !EmailFormat(f.email) then EmailInvalid
    else if Trim(f.phone) == "" then PhoneRequired
    else if !PhoneFormat(f.phone) then PhoneInvalid
    else if f.password == "" then PasswordRequired
    else if |f.password| < MinPasswordLength then PasswordTooShort
    else if f.password != f.confirmPassword then PasswordMismatch
    else ""
  }

  /** The checks, in the order the page applies them. */
  datatype Check = NameEmpty | EmailEmpty | EmailBadFormat | PhoneEmpty | PhoneBadFormat
                 | PasswordEmpty | PasswordShort | PasswordsDiffer

  const Order: seq<Check> := [NameEmpty, EmailEmpty, EmailBadFormat, PhoneEmpty, PhoneBadFormat,
                              PasswordEmpty, PasswordShort, PasswordsDiffer]

  /** When each check fails, in terms of the characters of the fields: blank
      means white space only; the format tests see the untrimmed value. */
  predicate Fails(f: Form, c: Check)
  {
    match c
    case NameEmpty => forall k :: 0 <= k < |f.fullName| ==> IsSpace(f.fullName[k])
    case EmailEmpty => forall k :: 0 <= k < |f.email| ==> IsSpace(f.email[k])
    case EmailBadFormat => !EmailFormat(f.email)
    case PhoneEmpty => forall k :: 0 <= k < |f.phone| ==> IsSpace(f.phone[k])
    case PhoneBadFormat => !PhoneFormat(f.phone)
    case PasswordEmpty => f.password == ""
    case PasswordShort => |f.password| < MinPasswordLength
    case PasswordsDiffer => f.password != f.confirmPassword
  }

  function Message(c: Check): string
  {
    match c
    case NameEmpty => NameRequired
    case EmailEmpty => EmailRequired
    case EmailBadFormat => EmailInvalid
    case PhoneEmpty => PhoneRequired
    case PhoneBadFormat => PhoneInvalid
    case PasswordEmpty => PasswordRequired
    case PasswordShort => PasswordTooShort
    case PasswordsDiffer => PasswordMismatch
  }

  lemma BlankFields(f: Form)
    ensures Trim(f.fullName) == "" <==> Fails(f, NameEmpty)
    ensures Trim(f.email) == "" <==> Fails(f, EmailEmpty)
    ensures Trim(f.phone) == "" <==> Fails(f, PhoneEmpty)
  {
    BlankIffAllSpace(f.fullName);
    BlankIffAllSpace(f.email);
    BlankIffAllSpace(f.phone);
  }

  /** validateForm returns "" iff no check fails. */
  lemma ValidateFormPasses(f: Form)
    ensures ValidateForm(f) == "" <==> forall c :: !Fails(f, c)
  {
    BlankFields(f);
    if ValidateForm(f) != "" {
      var k :| 0 <= k < |Order| && Fails(f, Order[k]) by {
        if Fails(f, NameEmpty) { assert Order[0] == NameEmpty; }
        else if Fails(f, EmailEmpty) { assert Order[1] == EmailEmpty; }
        else if Fails(f, EmailBadFormat) { assert Order[2] == EmailBadFormat; }
        else if Fails(f, PhoneEmpty) { assert Order[3] == PhoneEmpty; }
        else if Fails(f, PhoneBadFormat) { assert Order[4] == PhoneBadFormat; }
        else if Fails(f, PasswordEmpty) { assert Order[5] == PasswordEmpty; }
        else if Fails(f, PasswordShort) { assert Order[6] == PasswordShort; }
        else { assert Order[7] == PasswordsDiffer; }
      }
    }
  }

  /** Otherwise it returns the message of the first check, in page order, that fails. */
  lemma ValidateFormFirstFailure(f: Form, k: nat)
    requires k < |Order| && Fails(f, Order[k])
    requires forall j :: 0 <= j < k ==> !Fails(f, Order[j])
    ensures ValidateForm(f) == Message(Order[k])
  {
    BlankFields(f);
    if k > 0 { assert !Fails(f, Order[0]); }
    if k > 1 { assert !Fails(f, Order[1]); }
    if k > 2 { assert !Fails(f, Order[2]); }
    if k > 3 { assert !Fails(f, Order[3]); }
    if k > 4 { assert !Fails(f, Order[4]); }
    if k > 5 { assert !Fails(f, Order[5]); }
    if k > 6 { assert !Fails(f, Order[6]); }
  }

  /** An accepted form has a password of at least six characters, equal to
      its confirmation, and e-mail and phone values that pass their formats
      as typed. */
  lemma AcceptedForm(f: Form)
    requires ValidateForm(f) == ""
    ensures |f.password| >= MinPasswordLength && f.password == f.confirmPassword
    ensures EmailFormat(f.email) && PhoneFormat(f.phone)
  {
  }

  /** Blank is judged after trimming but format on the value as typed: a
      well-formed e-mail with a space in front is not blank, yet fails the
      format check. */
  lemma PaddedEmailRejected(f: Form)
    requires Trim(f.fullName) != ""
    requires |f.email| > 1 && f.email[0] == ' ' && !IsSpace(f.email[1])
    ensures ValidateForm(f) == EmailInvalid
  {
    BlankIffAllSpace(f.email);
    SpaceFailsFormats(f.email, 0);
  }

  /** The catch block of handleSubmit: ordered, case-sensitive substring tests. */
  function ClassifySignUpError(msg: string): string
  {
    if Contains(msg, "already registered") || Contains(msg, "already been registered") then EmailTaken
    else if Contains(msg, "invalid") || Contains(msg, "format") then InvalidData
    else if Contains(msg, "password") then PasswordRejected
    else if Contains(msg, "email") then EmailRejected
    else SignUpFailed
  }

  /** Each shown message corresponds to its test succeeding and every earlier
      test failing. */
  lemma ClassifySignUpErrorSpec(msg: string)
    ensures var taken := Contains(msg, "already registered") || Contains(msg, "already been registered");
      var invalid := Contains(msg, "invalid") || Contains(msg, "format");
      var r := ClassifySignUpError(msg);
      && (r == EmailTaken <==> taken)
      && (r == InvalidData <==> !taken && invalid)
      && (r == PasswordRejected <==> !taken && !invalid && Contains(msg, "password"))
      && (r == EmailRejected <==> !taken && !invalid && !Contains(msg, "password") && Contains(msg, "email"))
      && (r == SignUpFailed <==>
            !taken && !invalid && !Contains(msg, "password") && !Contains(msg, "email"))
  {
  }

  /** A message with none of the letters y, v, m, p matches no keyword. */
  lemma LacksKeywords(s: string)
    requires forall i :: 0 <= i < |s| ==> s[i] !in "yvmp"
    ensures ClassifySignUpError(s) == SignUpFailed
  {
    MissingCharNotContained(s, "already registered", 'y');
    MissingCharNotContained(s, "already been registered", 'y');
    MissingCharNotContained(s, "invalid", 'v');
    MissingCharNotContained(s, "format", 'm');
    MissingCharNotContained(s, "password", 'p');
    MissingCharNotContained(s, "email", 'm');
  }

  /** The "no user returned" error maps to the generic message. */
  lemma NoUserIsGeneric()
    ensures ClassifySignUpError(NoUserReturned) == SignUpFailed
  {
    LacksKeywords(NoUserReturned);
  }

  /** The error the page shows once sign-up has answered with `r`: the
      classified message of a returned error, or of the missing-user error. */
  function SubmitError(r: Database.AuthResult): (e: string)
    ensures r.error.None? && r.user.Some? <==> e == ""
  {
    if r.error.Some? then ClassifySignUpError(r.error.value.message)
    else if r.user.None? then NoUserIsGeneric(); ClassifySignUpError(NoUserReturned)
    else ""
  }

  /** The component's state. */
  class Register {
    var form: Form
    var error: string
    var loading: bool
    var success: bool
    var googleLoading: bool

    constructor ()
      ensures form == Form("", "", "", "", "") && error == "" && !loading && !success && !googleLoading
    {
      form := Form("", "", "", "", "");
      error := "";
      loading := false;
      success := false;
      googleLoading := false;
    }

    /** handleInputChange: replaces the named field and clears the error. */
    method HandleInputChange(field: Field, value: string)
      modifies this
      ensures form == WithField(old(form), field, value)
      ensures error == "" && loading == old(loading) && success == old(success)
      ensures googleLoading == old(googleLoading)
    {
      form := WithField(form, field, value);
      if error != "" {
        error := "";
      }
    }

    /** handleSubmit: a failing check is shown and nothing else happens;
        otherwise sign-up runs against `db` with the auth service's answer
        `auth`, success is set only for a returned user with no error, any
        other outcome shows its classified message, and loading ends false. */
    method HandleSubmit(db: Database.Backend, auth: Database.AuthResult, newId: string, now: Timestamp,
                        insertFails: bool)
      modifies this, db
      ensures form == old(form) && googleLoading == old(googleLoading)
      ensures ValidateForm(old(form)) != "" ==>
        error == ValidateForm(old(form)) && loading == old(loading) && success == old(success) && unchanged(db)
      ensures ValidateForm(old(form)) == "" ==>
        && !loading
        && success == ((auth.error.None? && auth.user.Some?) || old(success))
        && error == SubmitError(auth)
        && db.users == (if auth.error.None? && auth.user.Some? && !insertFails
                        then old(db.users) + [User(newId, auth.user.value.email, Some(old(form).phone),
                                                   old(form).fullName, 0, Bronze, now, now)]
                        else old(db.users))
        && db.transactions == old(db.transactions) && db.rewards == old(db.rewards)
        && db.redemptions == old(db.redemptions) && db.milestones == old(db.milestones)
    {
      var validationError := ValidateForm(form);
      if validationError != "" {
        error := validationError;
        return;
      }
      loading := true;
      error := "";
      var result := db.SignUp(Database.Profile(form.fullName, Some(form.phone)), auth, newId, now, insertFails);
      var thrown: Option<string> := None;
      if result.error.Some? {
        thrown := Some(result.error.value.message);
      } else if result.user.Some? {
        success := true;
      } else {
        thrown := Some(NoUserReturned);
      }
      if thrown.Some? {
        error := ClassifySignUpError(thrown.value);
      }
      loading := false;
    }

    /** handleGoogleSignIn: the data-access layer has no `signInWithGoogle`,
        so the call throws at once; the catch shows the Google error message
        and ends the Google loading state. Nothing else changes. */
    method HandleGoogleSignIn()
      modifies this
      ensures error == GoogleSignInFailed && !googleLoading
      ensures form == old(form) && loading == old(loading) && success == old(success)
    {
      googleLoading := true;
      error := "";
      error := GoogleSignInFailed;
      googleLoading := false;
    }
  }
}
