/** The login page (frontend/src/pages/auth/LoginPage.jsx): the password
    step, the second-factor step, and the sanitiser of the six-digit code
    field. */
module LoginPage {
  import opened Values
  import opened Chars
  import opened Decimal
  import opened Web

  /** `s.replace(/\D/g, "")`. */
  function KeepDigits(s: string): (r: string)
    ensures AllDigits(r) && |r| <= |s|
  {
    if s == [] then []
    else (if IsDigit(s[0]) then [s[0]] else []) + KeepDigits(s[1..])
  }

  /** The code field's `onChange`: digits only, then `.slice(0, 6)`. */
  function SanitizeCode(input: string): (code: string)
    ensures AllDigits(code) && |code| <= 6
    ensures code <= KeepDigits(input)
    ensures |code| == if |KeepDigits(input)| <= 6 then |KeepDigits(input)| else 6
  {
    var digits := KeepDigits(input);
    if |digits| <= 6 then digits else digits[..6]
  }

  /** One character at a time: a digit is kept in place, anything else is
      removed. */
  lemma KeepDigitsCons(c: char, s: string)
    ensures KeepDigits([c] + s) == (if IsDigit(c) then [c] else []) + KeepDigits(s)
  {
    assert ([c] + s)[1..] == s;
  }

  /** Removing non-digits works piece by piece: the digits of a
      concatenation are the digits of each part, in order. */
  lemma {:induction false} KeepDigitsAppend(a: string, b: string)
    ensures KeepDigits(a + b) == KeepDigits(a) + KeepDigits(b)
    decreases |a|
  {
    if a != [] {
      assert (a + b)[1..] == a[1..] + b;
      KeepDigitsAppend(a[1..], b);
    } else {
      assert a + b == b;
    }
  }

  /** A string of digits loses nothing. */
  lemma {:induction false} KeepDigitsOfDigits(s: string)
    requires AllDigits(s)
    ensures KeepDigits(s) == s
    decreases |s|
  {
    if s != [] {
      KeepDigitsOfDigits(s[1..]);
    }
  }

  /** Sanitising twice is sanitising once. */
  lemma SanitizeIdempotent(input: string)
    ensures SanitizeCode(SanitizeCode(input)) == SanitizeCode(input)
  {
    KeepDigitsOfDigits(SanitizeCode(input));
  }

  /** The sanitiser leaves a string alone exactly when it is at most six digits. */
  lemma SanitizeFixedPoints(input: string)
    ensures SanitizeCode(input) == input <==> AllDigits(input) && |input| <= 6
  {
    if AllDigits(input) {
      KeepDigitsOfDigits(input);
    }
  }

  /** The code is the first six digits typed: once six digits are in,
      whatever follows is ignored. */
  lemma FirstSixDigitsWin(typed: string, more: string)
    requires |KeepDigits(typed)| >= 6
    ensures SanitizeCode(typed + more) == SanitizeCode(typed)
  {
    KeepDigitsAppend(typed, more);
    assert (KeepDigits(typed) + KeepDigits(more))[..6] == KeepDigits(typed)[..6];
  }

  /** A non-digit typed anywhere in the field leaves the code as it was. */
  lemma NonDigitIgnored(before: string, c: char, after: string)
    requires !IsDigit(c)
    ensures SanitizeCode(before + [c] + after) == SanitizeCode(before + after)
  {
    assert before + [c] + after == before + ([c] + after);
    KeepDigitsAppend(before, [c] + after);
    KeepDigitsCons(c, after);
    KeepDigitsAppend(before, after);
  }

  /** The Verify button's `disabled`. */
  predicate VerifyDisabled(loading: bool, code: string)
  {
    loading || |code| != 6
  }

  /** After typing, Verify is enabled exactly when nothing is loading and
      at least six digits were typed. */
  lemma VerifyEnabledAfterTyping(loading: bool, input: string)
    ensures !VerifyDisabled(loading, SanitizeCode(input)) <==> !loading && |KeepDigits(input)| >= 6
  {
  }

  /** The two bodies the login endpoint answers with. */
  datatype LoginAnswer =
    | SecondFactorNeeded(tempToken: string)   // { twoFA_required: true, tempToken }
    | TokenGranted(token: string)             // { success: true, token, user }

  datatype LoginRequest = LoginRequest(email: string, password: string)
  datatype SecondFactorRequest = SecondFactorRequest(tempToken: string, code: string)

  class LoginForm {
    var email: string
    var password: string
    var error: string
    var loading: bool
    var twoFARequired: bool
    var twoFACode: string
    var tempToken: string

    constructor ()
      ensures email == "" && password == "" && error == "" && !loading
      ensures !twoFARequired && twoFACode == "" && tempToken == ""
    {
      email := "";
      password := "";
      error := "";
      loading := false;
      twoFARequired := false;
      twoFACode := "";
      tempToken := "";
    }

    /** The code field's `onChange`. */
    method TypeCode(input: string)
      modifies this`twoFACode
      ensures twoFACode == SanitizeCode(input)
    {
      twoFACode := SanitizeCode(input);
    }

    /** `handleLogin`: posts the credentials; a second-factor answer keeps
        the temporary token in the page and stores nothing, a token answer
        is stored and the browser goes home, and an error is shown. */
    method HandleLogin(browser: Browser, answer: Settled<LoginAnswer>) returns (request: LoginRequest)
      modifies this`error, this`loading, this`tempToken, this`twoFARequired, browser
      ensures request == LoginRequest(email, password)
      ensures !loading
      ensures answer.Resolved? && answer.data.SecondFactorNeeded? ==>
                && tempToken == answer.data.tempToken && twoFARequired && error == ""
                && browser.storage == old(browser.storage) && browser.location == old(browser.location)
      ensures answer.Resolved? && answer.data.TokenGranted? ==>
                && browser.storage == old(browser.storage)["token" := answer.data.token]
                && browser.location == "/" && error == ""
                && tempToken == old(tempToken) && twoFARequired == old(twoFARequired)
      ensures answer.Rejected? ==>
                && error == ErrorText(answer.message, "Login failed")
                && browser.storage == old(browser.storage) && browser.location == old(browser.location)
                && tempToken == old(tempToken) && twoFARequired == old(twoFARequired)
    {
      error := "";
      loading := true;
      request := LoginRequest(email, password);
      match answer {
        case Resolved(SecondFactorNeeded(t)) =>
          tempToken := t;
          twoFARequired := true;
          loading := false;
          return;
        case Resolved(TokenGranted(t)) =>
          browser.storage := browser.storage["token" := t];
          browser.location := "/";
        case Rejected(_, message) =>
          error := ErrorText(message, "Login failed");
      }
      loading := false;
    }

    /** `handle2FA`: posts the temporary token with the code; the returned
        token is stored only on success. */
    method HandleSecondFactor(browser: Browser, answer: Settled<string>) returns (request: SecondFactorRequest)
      modifies this`error, this`loading, browser
      ensures request == SecondFactorRequest(tempToken, twoFACode)
      ensures !loading
      ensures answer.Resolved? ==>
                browser.storage == old(browser.storage)["token" := answer.data] && browser.location == "/" && error == ""
      ensures answer.Rejected? ==>
                && error == ErrorText(answer.message, "2FA verification failed")
                && browser.storage == old(browser.storage) && browser.location == old(browser.location)
    {
      error := "";
      loading := true;
      request := SecondFactorRequest(tempToken, twoFACode);
      match answer {
        case Resolved(token) =>
          browser.storage := browser.storage["token" := token];
          browser.location := "/";
        case Rejected(_, message) =>
          error := ErrorText(message, "2FA verification failed");
      }
      loading := false;
    }
  }
}
