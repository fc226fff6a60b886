/** The login page: the form object, the validation run before logging in,
    and the one message shown when login fails. */
module LoginPage {
  import opened JsValue
  import opened Records
  import opened EmailFormat

  const AllRequired := "모든 항목을 입력해주세요"
  const BadEmail := "올바른 이메일 형식이 아닙니다"
  const BadCredentials := "이메일 또는 비밀번호가 올바르지 않습니다"

  type Form = seq<(string, string)>

  const EmptyForm: Form := [("email", ""), ("password", "")]

  /** A field's text; a missing field reads as empty. */
  function Field(form: Form, name: string): string {
    match Find(form, name)
    case Some(v) => v
    case None => ""
  }

  /** `validateForm`: a missing field first, then the e-mail pattern. */
  function Validate(form: Form): (error: Option<string>)
    ensures error.None? <==>
      Field(form, "email") != "" && Field(form, "password") != "" && MatchesPattern(Field(form, "email"))
    ensures Field(form, "email") == "" || Field(form, "password") == "" ==> error == Some(AllRequired)
    ensures Field(form, "email") != "" && Field(form, "password") != "" && !MatchesPattern(Field(form, "email")) ==>
      error == Some(BadEmail)
  {
    var email, password := Field(form, "email"), Field(form, "password");
    IsEmailMatches(email);
    if email == "" || password == "" then Some(AllRequired)
    else if !IsEmail(email) then Some(BadEmail)
    else None
  }

  class Login {
    var form: Form
    var error: string

    constructor()
      ensures form == EmptyForm && error == ""
    {
      form := EmptyForm;
      error := "";
    }

    /** `handleChange`: the named field takes the value and the error is
        cleared. */
    method HandleChange(name: string, value: string)
      modifies this
      ensures form == Put(old(form), name, value) && error == ""
    {
      form := Put(form, name, value);
      error := "";
    }

    /** `handleSubmit` up to the request: nothing is sent for an invalid
        form. */
    method Submit() returns (request: Option<Form>)
      modifies this
      ensures request.Some? <==> Validate(form).None?
      ensures request.Some? ==> request.value == form && error == ""
      ensures request.None? ==> error == Validate(form).value
      ensures form == old(form)
    {
      var invalid := Validate(form);
      if invalid.Some? {
        error := invalid.value;
        return None;
      }
      error := "";
      request := Some(form);
    }

    /** Any failed login shows the same message, whatever the cause. */
    method LoginFailed()
      modifies this
      ensures error == BadCredentials && form == old(form)
    {
      error := BadCredentials;
    }
  }

  /** Editing a field never touches the others. */
  lemma ChangeKeepsOtherFields(form: Form, name: string, value: string, other: string)
    requires other != name
    ensures Field(Put(form, name, value), other) == Field(form, other)
    ensures Field(Put(form, name, value), name) == value
  {
    PutFind(form, name, value, other);
    PutFind(form, name, value, name);
  }
}
