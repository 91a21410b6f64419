/** The registration page (frontend/src/pages/auth/RegisterPage.jsx): the
    submit gate in front of POST /auth/register. The strength meter is
    `PasswordPolicy.Strength`. */
module RegisterPage {
  import opened Values
  import opened PasswordPolicy
  import opened Web

  /** The body the page posts: no role and no confirmation field. */
  datatype RegisterRequest = RegisterRequest(name: string, email: string, password: string)

  const MismatchMessage: string := "Passwords don't match"
  const WeakMessage: string := "Password doesn't meet all requirements"
  const SuccessLocation: string := "/login?message=Registration+successful"

  class RegisterForm {
    var name: string
    var email: string
    var password: string
    var confirmPassword: string
    var error: string
    var loading: bool

    constructor ()
      ensures name == "" && email == "" && password == "" && confirmPassword == ""
      ensures error == "" && !loading
    {
      name := "";
      email := "";
      password := "";
      confirmPassword := "";
      error := "";
      loading := false;
    }

    /** The Register button's `disabled`: loading, or a password that does
        not reach 12 characters with all four character classes. */
    predicate SubmitDisabled()
      reads this
    {
      loading || Strength(password) < 5
    }

    /** `handleSubmit`. A mismatch is reported before strength; either one
        sends nothing. A request goes out only with a password the server's
        own rules accept. */
    method HandleSubmit(browser: Browser, answer: Settled<Json>) returns (request: Option<RegisterRequest>)
      modifies this`error, this`loading, browser`location
      ensures password != confirmPassword ==>
                request == None && error == MismatchMessage && loading == old(loading)
                && browser.location == old(browser.location)
      ensures password == confirmPassword && Strength(password) < 5 ==>
                request == None && error == WeakMessage && loading == old(loading)
                && browser.location == old(browser.location)
      ensures password == confirmPassword && Strength(password) == 5 ==>
                && request == Some(RegisterRequest(name, email, password))
                && !loading
                && (answer.Resolved? ==> browser.location == SuccessLocation && error == "")
                && (answer.Rejected? ==>
                      error == ErrorText(answer.message, "Registration failed")
                      && browser.location == old(browser.location))
      ensures request.Some? ==>
                FourClassPolicy(request.value.password, 12) && ValidatePasswordRules(request.value.password)
    {
      error := "";
      if password != confirmPassword {
        error := MismatchMessage;
        return None;
      }
      if Strength(password) < 5 {
        error := WeakMessage;
        return None;
      }
      StrengthFullIffFourClass(password);
      FourClassTwelveImpliesRouteRules(password);
      loading := true;
      request := Some(RegisterRequest(name, email, password));
      match answer {
        case Resolved(_) =>
          browser.location := SuccessLocation;
        case Rejected(_, message) =>
          error := ErrorText(message, "Registration failed");
      }
      loading := false;
    }
  }

  /** The button is enabled exactly when nothing is loading and the password
      has 12 characters and all four classes. */
  lemma SubmitEnabledIffStrong(form: RegisterForm)
    ensures !form.SubmitDisabled() <==> !form.loading && FourClassPolicy(form.password, 12)
  {
    StrengthFullIffFourClass(form.password);
  }
}
