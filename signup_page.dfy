/** The signup page: the form object, the separate confirmation field, the
    validation run before signing up, and the error shown when signup
    fails. */
module SignupPage {
  import opened JsValue
  import opened Records
  import opened EmailFormat
  import AuthService

  const AllRequired := "모든 항목을 입력해주세요"
  const BadEmail := "올바른 이메일 형식이 아닙니다"
  const ShortPassword := "비밀번호는 8자 이상이어야 합니다"
  const PasswordMismatch := "비밀번호가 일치하지 않습니다"
  const ShortNickname := "닉네임은 2자 이상이어야 합니다"
  const SignupError := "회원가입 중 오류가 발생했습니다"

  const MinPasswordLength := 8
  const MinNicknameLength := 2

  /** The form object, its fields in order, updated by spreading. */
  type Form = seq<(string, string)>

  const EmptyForm: Form := [("email", ""), ("password", ""), ("nickname", "")]

  /** A field's text; a missing field reads as empty, as `!undefined` does. */
  function Field(form: Form, name: string): string {
    match Find(form, name)
    case Some(v) => v
    case None => ""
  }

  /** `validateForm`: the first failing check's message, none when every
      check passes. */
  function Validate(form: Form, confirm: string): (error: Option<string>)
    ensures error.None? <==>
      Field(form, "email") != "" && Field(form, "password") != "" && Field(form, "nickname") != "" && confirm != ""
      && MatchesPattern(Field(form, "email"))
      && |Field(form, "password")| >= MinPasswordLength
      && Field(form, "password") == confirm
      && |Field(form, "nickname")| >= MinNicknameLength
    ensures Field(form, "email") == "" || Field(form, "password") == "" || Field(form, "nickname") == "" || confirm == "" ==>
      error == Some(AllRequired)
    ensures error == Some(AllRequired) ==>
      Field(form, "email") == "" || Field(form, "password") == "" || Field(form, "nickname") == "" || confirm == ""
    ensures error == Some(BadEmail) ==> !MatchesPattern(Field(form, "email"))
    ensures error == Some(ShortPassword) ==> MatchesPattern(Field(form, "email")) && |Field(form, "password")| < MinPasswordLength
    ensures error == Some(PasswordMismatch) ==>
      MatchesPattern(Field(form, "email")) && |Field(form, "password")| >= MinPasswordLength && Field(form, "password") != confirm
    ensures error == Some(ShortNickname) ==>
      MatchesPattern(Field(form, "email")) && |Field(form, "password")| >= MinPasswordLength
      && Field(form, "password") == confirm && |Field(form, "nickname")| < MinNicknameLength
    ensures error.Some? ==> error.value in {AllRequired, BadEmail, ShortPassword, PasswordMismatch, ShortNickname}
  {
    var email, password, nickname := Field(form, "email"), Field(form, "password"), Field(form, "nickname");
    IsEmailMatches(email);
    if email == "" || password == "" || nickname == "" || confirm == "" then Some(AllRequired)
    else if !IsEmail(email) then Some(BadEmail)
    else if |password| < MinPasswordLength then Some(ShortPassword)
    else if password != confirm then Some(PasswordMismatch)
    else if |nickname| < MinNicknameLength then Some(ShortNickname)
    else None
  }

  /** What the page catches: the thrown error's message and, for an HTTP
      client error, the response body. */
  datatype Thrown = Thrown(message: string, response: Option<Value>)

  /** What signup rethrows: a plain `Error` carrying the service's message
      and no response. */
  function ServiceError(reply: AuthService.SignupReply): Thrown
    requires reply.SignupRejected?
  {
    Thrown(AuthService.Signup(reply).error, None)
  }

  /** The page's message AS WRITTEN: the response body's message, else the
      fixed one. */
  function PageErrorAsWritten(err: Thrown): string {
    if err.response.Some? && Truthy(Get(err.response.value, "message")) then JsString(Get(err.response.value, "message"))
    else SignupError
  }

  /** Since the service's errors carry no response, the page as written
      always shows the fixed message: an e-mail already in use is never
      reported as such. */
  lemma PageErrorHidesServiceMessage(reply: AuthService.SignupReply)
    requires reply.SignupRejected?
    ensures PageErrorAsWritten(ServiceError(reply)) == SignupError
    ensures reply.status == Some(409) ==> PageErrorAsWritten(ServiceError(reply)) != AuthService.EmailInUse
  {
  }

  /** The page's message as evidently intended: the message the service
      put in the error, else the fixed one. */
  function PageError(err: Thrown): string {
    if err.message != "" then err.message
    else if err.response.Some? && Truthy(Get(err.response.value, "message")) then JsString(Get(err.response.value, "message"))
    else SignupError
  }

  /** With the correction a 409 shows the "already in use" message and any
      other rejection the service's message, unless that message is empty. */
  lemma PageErrorShowsServiceMessage(reply: AuthService.SignupReply)
    requires reply.SignupRejected?
    ensures reply.status == Some(409) ==> PageError(ServiceError(reply)) == AuthService.EmailInUse
    ensures AuthService.Signup(reply).error != "" ==> PageError(ServiceError(reply)) == AuthService.Signup(reply).error
    ensures AuthService.Signup(reply).error == "" ==> PageError(ServiceError(reply)) == SignupError
  {
  }

  class Signup {
    var form: Form
    var confirmPassword: string
    var error: string

    constructor()
      ensures form == EmptyForm && confirmPassword == "" && error == ""
    {
      form := EmptyForm;
      confirmPassword := "";
      error := "";
    }

    /** `handleChange`: the confirmation has its own state, every other
        name sets that form field; the error is cleared either way. */
    method HandleChange(name: string, value: string)
      modifies this
      ensures name == "confirmPassword" ==> confirmPassword == value && form == old(form)
      ensures name != "confirmPassword" ==> form == Put(old(form), name, value) && confirmPassword == old(confirmPassword)
      ensures error == ""
    {
      if name == "confirmPassword" {
        confirmPassword := value;
      } else {
        form := Put(form, name, value);
      }
      error := "";
    }

    /** `handleSubmit` up to the request: an invalid form shows its message
        and sends nothing; a valid one clears the error and sends the
        form. */
    method Submit() returns (request: Option<Form>)
      modifies this
      ensures request.Some? <==> Validate(form, confirmPassword).None?
      ensures request.Some? ==> request.value == form && error == ""
      ensures request.None? ==> error == Validate(form, confirmPassword).value
      ensures form == old(form) && confirmPassword == old(confirmPassword)
    {
      var invalid := Validate(form, confirmPassword);
      if invalid.Some? {
        error := invalid.value;
        return None;
      }
      error := "";
      request := Some(form);
    }

    /** Signup failed: the page shows its catch's message, which for any
        error the service throws is the generic one. */
    method SignupFailed(err: Thrown)
      modifies this
      ensures error == PageErrorAsWritten(err)
      ensures form == old(form) && confirmPassword == old(confirmPassword)
    {
      error := PageErrorAsWritten(err);
    }
  }
}
