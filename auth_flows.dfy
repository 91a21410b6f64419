/** Sequences of calls to the auth routes, as a client would make them, and
    what the routes guarantee about the whole sequence. */
module AuthFlows {
  import opened Values
  import opened Crypto
  import opened PasswordPolicy
  import opened Decimal
  import opened Headers
  import opened AuthRoutes

  /** Registering and then logging in with the same password signs in the
      same user (a fresh account has no second factor). */
  method RegisterThenLogin(store: AuthStore, name: Option<string>, email: string, password: string,
                           role: Option<string>, department: Option<string>, now: int, later: int)
    returns (registered: Reply, login: Reply)
    requires store.Valid() && Sound(store.kit)
    requires email != "" && password != ""
    modifies store
    ensures registered.SignedIn? <==>
              ValidatePasswordRules(password) && old(store.FindByEmail(email)).None?
    ensures registered.SignedIn? ==> login.SignedIn? && login.user == registered.user
  {
    registered := store.Register(name, Some(email), Some(password), role, department, now);
    login := store.Login(Some(email), Some(password), later);
  }

  /** A reset link works once: after it has reset the password, or after it
      was found expired, the same link is unknown. */
  method ResetTokenIsSingleUse(store: AuthStore, token: string, newPassword: string, now: int, later: int)
    returns (first: Reply, second: Reply)
    requires store.Valid()
    modifies store
    ensures first == Ok || first == Failure(400, "expired token") ==>
              second == Failure(400, "invalid or expired token")
  {
    first := store.ConfirmPasswordReset(Some(token), Some(newPassword), now);
    second := store.ConfirmPasswordReset(Some(token), Some(newPassword), later);
  }

  /** The reset flow end to end: a link used within the hour with a password
      that meets the rules resets the password, and the new password then
      passes the password step of login. */
  method ResetThenLogin(store: AuthStore, email: string, link: string, mailSent: bool,
                        newPassword: string, now: int, later: int)
    returns (requested: Reply, confirmed: Reply, login: Reply)
    requires store.Valid() && Sound(store.kit)
    requires email != "" && |link| == 32
    requires store.FindByEmail(email).Some?
    requires ValidatePasswordRules(newPassword)
    requires later <= now + ResetLifetime
    modifies store
    ensures requested == (if mailSent then Ok else Failure(500, "server error"))
    ensures confirmed == Ok
    ensures login.SignedIn? || login.SecondFactorRequired?
  {
    requested := store.RequestPasswordReset(Some(email), link, mailSent, now);
    confirmed := store.ConfirmPasswordReset(Some(link), Some(newPassword), later);
    login := store.Login(Some(email), Some(newPassword), later);
  }

  /** An e-mailed code works once. */
  method OtpIsSingleUse(store: AuthStore, email: string, code: string, now: int, later: int)
    returns (first: Reply, second: Reply)
    requires store.Valid()
    modifies store
    ensures first.TokenIssued? ==> second == Failure(401, "invalid")
  {
    first := store.VerifyOtp(Some(email), Some(code), now);
    second := store.VerifyOtp(Some(email), Some(code), later);
  }

  /** Login of a user with 2FA enabled: the pending token, presented within
      five minutes, is exchanged for a full token exactly when the TOTP code
      checks out against the user's confirmed secret. */
  method SecondFactorSignIn(store: AuthStore, email: string, password: string, code: Option<string>,
                            now: int, later: int)
    returns (login: Reply, verified: Reply)
    requires store.Valid() && Sound(store.kit)
    requires now <= later < now + PendingLifetime
    ensures login.SecondFactorRequired? ==>
              && email != "" && store.FindByEmail(email).Some?
              && TwoFAEnabled(store.FindByEmail(email).value)
              && ConfirmedSecret(store.FindByEmail(email).value).Some?
              && (verified.TokenIssued? <==>
                    Filled(code) && store.kit.totp(ConfirmedSecret(store.FindByEmail(email).value).value, code, later))
    ensures verified.TokenIssued? ==>
              login.SecondFactorRequired? && store.FindByEmail(email).Some? &&
              verified.token == store.kit.sign(FullClaims(store.FindByEmail(email).value), later + SessionLifetime)
  {
    login := store.Login(Some(email), Some(password), now);
    if login.SecondFactorRequired? {
      verified := store.VerifySecondFactor(Some(login.tempToken), code, later);
    } else {
      verified := login;
    }
  }

  /** The e-mailed code signs a user in without the password and without the
      second factor, even when 2FA is enabled. */
  method OtpSkipsSecondFactor(store: AuthStore, email: string, draw: nat, now: int, later: int)
    returns (requested: Reply, verified: Reply)
    requires store.Valid() && Sound(store.kit)
    requires email != "" && store.FindByEmail(email).Some?
    requires TwoFAEnabled(store.FindByEmail(email).value)
    requires draw < 900000 && later <= now + OtpLifetime
    modifies store
    ensures verified.TokenIssued?
  {
    requested := store.RequestOtp(Some(email), draw, true, now);
    verified := store.VerifyOtp(Some(email), Some(NatToString(100000 + draw)), later);
  }

  /** /2fa/setup accepts the pending token that the password alone obtains
      and replaces the enrolment with a disabled one, so the next login with
      the password alone gets a full token. */
  method PasswordAloneTurnsOffSecondFactor(store: AuthStore, email: string, password: string,
                                           secret: string, now: int)
    returns (first: Reply, setup: Reply, second: Reply)
    requires store.Valid() && Sound(store.kit)
    requires email != "" && password != ""
    requires store.FindByEmail(email).Some?
    requires TwoFAEnabled(store.FindByEmail(email).value)
    requires store.kit.compare(password, store.FindByEmail(email).value.passwordHash)
    modifies store
    ensures first.SecondFactorRequired? && setup.Enrollment? && second.SignedIn?
  {
    first := store.Login(Some(email), Some(password), now);
    BearerRoundTrip(first.tempToken);
    setup := store.SetupTwoFA(Some(BearerHeader(first.tempToken)), secret, now);
    second := store.Login(Some(email), Some(password), now);
  }
}
