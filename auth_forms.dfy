/** The sign-in and sign-up forms (LoginForm.tsx, SignupForm.tsx): each
    submit marks the form as touched, and the payload goes to the parent
    only when every field is non-blank, with the text fields trimmed and
    the password as typed. The parent's callback is modelled by recording
    the payloads it receives. */
module AuthForms {
  import opened Common

  /** The message under a form: the parent's error if it is a non-empty
      text, else the form's own text when validation fails, else nothing. */
  function ShownError(parentError: Option<string>, validationError: bool, fallback: string): (r: Option<string>)
    ensures r.Some? <==> (parentError.Some? && parentError.value != []) || validationError
    ensures parentError.Some? && parentError.value != [] ==> r == parentError
    ensures !(parentError.Some? && parentError.value != []) && validationError ==> r == Some(fallback)
  {
    if parentError.Some? && parentError.value != [] then parentError
    else if validationError then Some(fallback)
    else None
  }

  // ---------------------------------------------------------------------
  // Sign in
  // ---------------------------------------------------------------------

  const LoginFallback := "Enter both email and password to continue."

  datatype LoginPayload = LoginPayload(email: string, password: string)

  /** `hasValidationError` of the sign-in form. */
  predicate LoginInvalid(touched: bool, email: string, password: string) {
    touched && (Trim(email) == [] || Trim(password) == [])
  }

  class LoginForm {
    var email: string
    var password: string
    var touched: bool
    /** The payloads handed to `onSubmit`, oldest first. */
    var sent: seq<LoginPayload>

    constructor ()
      ensures email == "" && password == "" && !touched && sent == []
    {
      email := "";
      password := "";
      touched := false;
      sent := [];
    }

    /** `handleSubmit`: a payload is sent exactly when the validation
        message would not show. */
    method HandleSubmit()
      modifies this`touched, this`sent
      ensures touched
      ensures !LoginInvalid(touched, email, password) ==> sent == old(sent) + [LoginPayload(Trim(email), password)]
      ensures LoginInvalid(touched, email, password) ==> sent == old(sent)
      ensures LoginInvalid(touched, email, password) <==> IsBlank(email) || IsBlank(password)
    {
      touched := true;
      if Trim(email) == [] || Trim(password) == [] {
        return;
      }
      sent := sent + [LoginPayload(Trim(email), password)];
    }

    /** The error line under the form. */
    function Message(parentError: Option<string>): (r: Option<string>)
      reads this
      ensures r.None? <==> !(parentError.Some? && parentError.value != []) && !LoginInvalid(touched, email, password)
      ensures r.Some? && !(parentError.Some? && parentError.value != []) ==> r == Some(LoginFallback)
    {
      ShownError(parentError, LoginInvalid(touched, email, password), LoginFallback)
    }
  }

  // ---------------------------------------------------------------------
  // Sign up
  // ---------------------------------------------------------------------

  const SignupFallback := "Name, email, and password are required."

  datatype SignupPayload = SignupPayload(name: string, email: string, password: string)

  /** `hasValidationError` of the sign-up form. */
  predicate SignupInvalid(touched: bool, name: string, email: string, password: string) {
    touched && (Trim(name) == [] || Trim(email) == [] || Trim(password) == [])
  }

  class SignupForm {
    var name: string
    var email: string
    var password: string
    var touched: bool
    /** The payloads handed to `onSubmit`, oldest first. */
    var sent: seq<SignupPayload>

    constructor ()
      ensures name == "" && email == "" && password == "" && !touched && sent == []
    {
      name := "";
      email := "";
      password := "";
      touched := false;
      sent := [];
    }

    /** `handleSubmit`: a payload is sent exactly when the validation
        message would not show. */
    method HandleSubmit()
      modifies this`touched, this`sent
      ensures touched
      ensures !SignupInvalid(touched, name, email, password) ==>
        sent == old(sent) + [SignupPayload(Trim(name), Trim(email), password)]
      ensures SignupInvalid(touched, name, email, password) ==> sent == old(sent)
      ensures SignupInvalid(touched, name, email, password) <==> IsBlank(name) || IsBlank(email) || IsBlank(password)
    {
      touched := true;
      if Trim(name) == [] || Trim(email) == [] || Trim(password) == [] {
        return;
      }
      sent := sent + [SignupPayload(Trim(name), Trim(email), password)];
    }

    /** The error line under the form. */
    function Message(parentError: Option<string>): (r: Option<string>)
      reads this
      ensures r.None? <==> !(parentError.Some? && parentError.value != []) && !SignupInvalid(touched, name, email, password)
      ensures r.Some? && !(parentError.Some? && parentError.value != []) ==> r == Some(SignupFallback)
    {
      ShownError(parentError, SignupInvalid(touched, name, email, password), SignupFallback)
    }
  }

  /** A sent payload never has a blank field, and its text fields carry no
      surrounding whitespace. */
  lemma SentPayloadClean(email: string, password: string)
    requires !LoginInvalid(true, email, password)
    ensures var p := LoginPayload(Trim(email), password);
      p.email != [] && !IsSpace(p.email[0]) && !IsSpace(p.email[|p.email| - 1]) && !IsBlank(p.password)
  {
  }
}
