/** The auth routes (backend/src/routes/auth.js): registration, login, the
    second-factor step of login, password reset, e-mailed one-time codes and
    TOTP enrolment. The user collection and the reset-token collection are the
    fields of an `AuthStore`; each route handler is a method that runs as one
    atomic step. Hashing, tokens and TOTP are the `Toolkit` of module Crypto;
    random values, the clock and the outcome of sending mail are parameters. */
module AuthRoutes {
  import opened Values
  import opened Crypto
  import opened PasswordPolicy
  import opened Decimal
  import opened Headers
  import opened AuthMiddleware

  const MinuteMs: int := 60 * 1000
  const HourMs: int := 60 * MinuteMs
  /** `expiresIn: "8h"` of a full token. */
  const SessionLifetime: int := 8 * HourMs
  /** `expiresIn: "5m"` of the token that waits for the second factor. */
  const PendingLifetime: int := 5 * MinuteMs
  /** A reset token lives one hour. */
  const ResetLifetime: int := HourMs
  /** An e-mailed code lives five minutes. */
  const OtpLifetime: int := 5 * MinuteMs
  /** The role a registration gets when the body has none. */
  const DefaultRole: string := "operator"

  /** `user.twoFA`: the TOTP enrolment state. */
  datatype TwoFA = TwoFA(enabled: bool, secret: Option<string>, tempSecret: Option<string>)

  /** `user.otp`: the e-mailed one-time code. */
  datatype Otp = Otp(code: string, expiresAt: int)

  datatype User = User(
    id: UserId,
    name: Option<string>,
    email: string,
    passwordHash: string,
    role: string,
    department: Option<string>,
    twoFA: Option<TwoFA>,
    otp: Option<Otp>)

  datatype ResetToken = ResetToken(userId: UserId, token: string, createdAt: int, expiresAt: int)

  /** The user object a response shows: no password hash, no 2FA state. */
  datatype PublicUser = PublicUser(id: UserId, name: Option<string>, email: string, role: string)

  /** The JSON a route answers with; `Failure` is every non-2xx answer. */
  datatype Reply =
    | Failure(status: nat, error: string)
    | SignedIn(token: string, user: PublicUser)   // { success: true, token, user }
    | SecondFactorRequired(tempToken: string)     // { twoFA_required: true, tempToken }
    | TokenIssued(token: string)                  // { success: true, token }
    | Ok                                          // { ok: true }
    | Enrollment(qr: string, secret: string)      // { qr, secret }

  function Public(u: User): PublicUser
  {
    PublicUser(u.id, u.name, u.email, u.role)
  }

  /** The payload of a full token for `u`. */
  function FullClaims(u: User): Claims
  {
    Session(u.id, u.role)
  }

  /** `role = "operator"` in the destructuring of the body: only a missing role is defaulted. */
  function RoleOrDefault(role: Option<string>): string
  {
    if role.Some? then role.value else DefaultRole
  }

  /** `user.twoFA?.enabled`. */
  predicate TwoFAEnabled(u: User)
  {
    u.twoFA.Some? && u.twoFA.value.enabled
  }

  /** `user?.twoFA?.secret`, when truthy. */
  function ConfirmedSecret(u: User): Option<string>
  {
    if u.twoFA.Some? && Filled(u.twoFA.value.secret) then u.twoFA.value.secret else None
  }

  /** `user?.twoFA?.tempSecret`, when truthy. */
  function PendingSecret(u: User): Option<string>
  {
    if u.twoFA.Some? && Filled(u.twoFA.value.tempSecret) then u.twoFA.value.tempSecret else None
  }

  /** The enrolment states the routes produce: `{ tempSecret, enabled: false }`
      after setup and `{ enabled: true, secret }` after confirmation. */
  predicate TwoFAWellFormed(t: TwoFA)
  {
    (t.enabled <==> t.secret.Some?) && (t.secret.Some? ==> t.secret.value != "")
  }

  /** A reply that hands out a full token. */
  predicate GrantsSession(r: Reply)
  {
    r.SignedIn? || r.TokenIssued?
  }

  /** The invariant of the user collection: every user is stored under its
      own id, below the next id; the email index and the users agree both
      ways; and every 2FA state is one the routes produce. */
  ghost predicate StoreInvariant(users: map<UserId, User>, byEmail: map<string, UserId>, nextId: UserId)
  {
    && (forall id :: id in users ==> users[id].id == id && id < nextId)
    && (forall e :: e in byEmail ==> byEmail[e] in users && users[byEmail[e]].email == e)
    && (forall id :: id in users ==> users[id].email in byEmail && byEmail[users[id].email] == id)
    && (forall id :: id in users && users[id].twoFA.Some? ==> TwoFAWellFormed(users[id].twoFA.value))
  }

  /** Replacing a user's record with one of the same id and email and a
      well-formed 2FA state keeps the invariant. */
  lemma ReplaceUserKeepsInvariant(users: map<UserId, User>, byEmail: map<string, UserId>, nextId: UserId, u: User)
    requires StoreInvariant(users, byEmail, nextId)
    requires u.id in users && users[u.id].email == u.email
    requires u.twoFA.Some? ==> TwoFAWellFormed(u.twoFA.value)
    ensures StoreInvariant(users[u.id := u], byEmail, nextId)
  {
  }

  /** Adding a user under the next id, with an email no one has and no 2FA
      state, keeps the invariant once the index and the next id follow. */
  lemma AddUserKeepsInvariant(users: map<UserId, User>, byEmail: map<string, UserId>, nextId: UserId, u: User)
    requires StoreInvariant(users, byEmail, nextId)
    requires u.id == nextId && u.twoFA.None?
    requires forall id :: id in users ==> users[id].email != u.email
    ensures StoreInvariant(users[u.id := u], byEmail[u.email := u.id], nextId + 1)
  {
  }

  /** Six decimal digits, reading as a number from 100000 to 999999. */
  predicate IsOtpCode(code: string)
  {
    |code| == 6 && AllDigits(code) && 100000 <= DecimalValue(code) <= 999999
  }

  /** The code drawn for `draw` is a six-digit code reading back as `100000 + draw`. */
  lemma DrawnCodeIsOtpCode(draw: nat)
    requires draw < 900000
    ensures IsOtpCode(NatToString(100000 + draw))
    ensures DecimalValue(NatToString(100000 + draw)) == 100000 + draw
  {
    SixDigitCode(100000 + draw);
  }

  class AuthStore {
    /** The libraries, with the process's signing key inside. */
    const kit: Toolkit
    /** The user collection, by `_id`. */
    var users: map<UserId, User>
    /** The unique index on `email`. */
    var byEmail: map<string, UserId>
    /** The reset-token collection, looked up by `token`. */
    var resetTokens: map<string, ResetToken>
    /** The next unused `_id`. */
    var nextId: UserId

    ghost predicate Valid()
      reads this
    {
      StoreInvariant(users, byEmail, nextId)
    }

    constructor (kit: Toolkit)
      ensures Valid() && this.kit == kit
      ensures users == map[] && byEmail == map[] && resetTokens == map[]
    {
      this.kit := kit;
      users := map[];
      byEmail := map[];
      resetTokens := map[];
      nextId := 0;
    }

    /** `User.findOne({ email })`: the email is compared exactly as given. */
    function FindByEmail(email: string): (u: Option<User>)
      reads this
      requires Valid()
      ensures u.Some? ==> u.value.id in users && users[u.value.id] == u.value && u.value.email == email
      ensures u.None? ==> forall id :: id in users ==> users[id].email != email
    {
      if email in byEmail then Some(users[byEmail[email]]) else None
    }

    /** The three conditions under which verify-2fa issues a full token. */
    predicate SecondFactorPasses(tempToken: string, code: Option<string>, now: int)
      reads this
    {
      match kit.verify(tempToken, now)
      case None => false
      case Some(claims) =>
        claims.sub in users && ConfirmedSecret(users[claims.sub]).Some?
        && kit.totp(ConfirmedSecret(users[claims.sub]).value, code, now)
    }

    /** No two users share an email. */
    lemma EmailsAreUnique(a: UserId, b: UserId)
      requires Valid()
      requires a in users && b in users && users[a].email == users[b].email
      ensures a == b
    {
    }

    /** POST /register. */
    method Register(name: Option<string>, email: Option<string>, password: Option<string>,
                    role: Option<string>, department: Option<string>, now: int)
      returns (reply: Reply)
      requires Valid()
      modifies this
      ensures Valid() && resetTokens == old(resetTokens)
      ensures !reply.SignedIn? ==> users == old(users) && byEmail == old(byEmail) && nextId == old(nextId)
      ensures !Filled(email) || !Filled(password) ==> reply == Failure(400, "email and password required")
      ensures Filled(email) && Filled(password) && !ValidatePasswordRules(password.value) ==>
                reply == Failure(400, "Password must be 10+ chars with upper, lower, digit, special")
      ensures Filled(email) && Filled(password) && ValidatePasswordRules(password.value)
              && old(FindByEmail(email.value)).Some? ==>
                reply == Failure(409, "user exists")
      ensures Filled(email) && Filled(password) && ValidatePasswordRules(password.value)
              && old(FindByEmail(email.value)).None? ==>
                var u := User(old(nextId), name, email.value, kit.hash(password.value),
                              RoleOrDefault(role), department, None, None);
                && u.id !in old(users)
                && users == old(users)[u.id := u]
                && byEmail == old(byEmail)[u.email := u.id]
                && reply == SignedIn(kit.sign(FullClaims(u), now + SessionLifetime), Public(u))
    {
      if !Filled(email) || !Filled(password) {
        return Failure(400, "email and password required");
      }
      if !ValidatePasswordRules(password.value) {
        return Failure(400, "Password must be 10+ chars with upper, lower, digit, special");
      }
      var existing := FindByEmail(email.value);
      if existing.Some? {
        return Failure(409, "user exists");
      }
      var u := User(nextId, name, email.value, kit.hash(password.value),
                    RoleOrDefault(role), department, None, None);
      AddUserKeepsInvariant(users, byEmail, nextId, u);
      users := users[u.id := u];
      byEmail := byEmail[u.email := u.id];
      nextId := nextId + 1;
      var token := kit.sign(FullClaims(u), now + SessionLifetime);
      reply := SignedIn(token, Public(u));
    }

    /** POST /login. It changes nothing; an unknown email and a wrong password
        get the same answer; a user with 2FA enabled gets only a short-lived
        pending token. */
    method Login(email: Option<string>, password: Option<string>, now: int) returns (reply: Reply)
      requires Valid()
      ensures !Filled(email) || !Filled(password) ==> reply == Failure(400, "missing fields")
      ensures Filled(email) && Filled(password) ==>
                match FindByEmail(email.value)
                case None => reply == Failure(401, "invalid credentials")
                case Some(u) =>
                  if !kit.compare(password.value, u.passwordHash) then reply == Failure(401, "invalid credentials")
                  else if TwoFAEnabled(u) then
                    reply == SecondFactorRequired(kit.sign(SecondFactorPending(u.id), now + PendingLifetime))
                  else reply == SignedIn(kit.sign(FullClaims(u), now + SessionLifetime), Public(u))
      ensures reply.SignedIn? ==>
                Filled(email) && FindByEmail(email.value).Some? && !TwoFAEnabled(FindByEmail(email.value).value)
    {
      if !Filled(email) || !Filled(password) {
        return Failure(400, "missing fields");
      }
      var found := FindByEmail(email.value);
      if found.None? {
        return Failure(401, "invalid credentials");
      }
      var u := found.value;
      var ok := kit.compare(password.value, u.passwordHash);
      if !ok {
        return Failure(401, "invalid credentials");
      }
      if TwoFAEnabled(u) {
        var tempToken := kit.sign(SecondFactorPending(u.id), now + PendingLifetime);
        return SecondFactorRequired(tempToken);
      }
      var token := kit.sign(FullClaims(u), now + SessionLifetime);
      reply := SignedIn(token, Public(u));
    }

    /** POST /verify-2fa. It changes nothing and issues a full token exactly
        when the token verifies, its subject has a confirmed secret and the
        TOTP check passes. The `require2FA` claim is never looked at. */
    method VerifySecondFactor(tempToken: Option<string>, code: Option<string>, now: int)
      returns (reply: Reply)
      ensures reply.Failure? || reply.TokenIssued?
      ensures !Filled(tempToken) || !Filled(code) ==> reply == Failure(400, "missing")
      ensures Filled(tempToken) && Filled(code) ==>
                match kit.verify(tempToken.value, now)
                case None => reply == Failure(401, "invalid or expired token")
                case Some(claims) =>
                  if claims.sub !in users || ConfirmedSecret(users[claims.sub]).None? then
                    reply == Failure(400, "invalid setup")
                  else if !kit.totp(ConfirmedSecret(users[claims.sub]).value, code, now) then
                    reply == Failure(401, "invalid code")
                  else reply == TokenIssued(kit.sign(FullClaims(users[claims.sub]), now + SessionLifetime))
      ensures reply.TokenIssued? <==>
                Filled(tempToken) && Filled(code) && SecondFactorPasses(tempToken.value, code, now)
    {
      if !Filled(tempToken) || !Filled(code) {
        return Failure(400, "missing");
      }
      var payload := kit.verify(tempToken.value, now);
      if payload.None? {
        return Failure(401, "invalid or expired token");
      }
      var sub := payload.value.sub;
      if sub !in users || ConfirmedSecret(users[sub]).None? {
        return Failure(400, "invalid setup");
      }
      var u := users[sub];
      var verified := kit.totp(ConfirmedSecret(u).value, code, now);
      if !verified {
        return Failure(401, "invalid code");
      }
      var token := kit.sign(FullClaims(u), now + SessionLifetime);
      reply := TokenIssued(token);
    }

    /** POST /password-reset/request. `newToken` is the `nanoid(32)` token;
        `mailSent` says whether the mail transport succeeded. An unknown email
        gets the same `{ ok: true }` and creates nothing. */
    method RequestPasswordReset(email: Option<string>, newToken: string, mailSent: bool, now: int)
      returns (reply: Reply)
      requires Valid()
      modifies this`resetTokens
      ensures Valid()
      ensures !Filled(email) ==> reply == Failure(400, "missing") && resetTokens == old(resetTokens)
      ensures Filled(email) && FindByEmail(email.value).None? ==>
                reply == Ok && resetTokens == old(resetTokens)
      ensures Filled(email) && FindByEmail(email.value).Some? ==>
                && resetTokens == old(resetTokens)[newToken :=
                     ResetToken(FindByEmail(email.value).value.id, newToken, now, now + ResetLifetime)]
                && reply == (if mailSent then Ok else Failure(500, "server error"))
    {
      if !Filled(email) {
        return Failure(400, "missing");
      }
      var found := FindByEmail(email.value);
      if found.None? {
        return Ok;
      }
      resetTokens := resetTokens[newToken := ResetToken(found.value.id, newToken, now, now + ResetLifetime)];
      // the reset link is mailed here
      if !mailSent {
        return Failure(500, "server error");
      }
      reply := Ok;
    }

    /** POST /password-reset/confirm. The password rules are checked before
        the token is looked up; an expired token is deleted; a successful reset
        deletes the token, so it cannot be used twice. */
    method ConfirmPasswordReset(token: Option<string>, newPassword: Option<string>, now: int)
      returns (reply: Reply)
      requires Valid()
      modifies this`users, this`resetTokens
      ensures Valid()
      ensures reply.Failure? || reply.Ok?
      ensures !Filled(token) || !Filled(newPassword) ==>
                reply == Failure(400, "missing") && users == old(users) && resetTokens == old(resetTokens)
      ensures Filled(token) && Filled(newPassword) && !ValidatePasswordRules(newPassword.value) ==>
                reply == Failure(400, "Password does not meet rules")
                && users == old(users) && resetTokens == old(resetTokens)
      ensures Filled(token) && Filled(newPassword) && ValidatePasswordRules(newPassword.value) ==>
                var t := token.value;
                if t !in old(resetTokens) then
                  reply == Failure(400, "invalid or expired token")
                  && users == old(users) && resetTokens == old(resetTokens)
                else if old(resetTokens)[t].expiresAt < now then
                  reply == Failure(400, "expired token")
                  && users == old(users) && resetTokens == old(resetTokens) - {t}
                else if old(resetTokens)[t].userId !in old(users) then
                  reply == Failure(400, "invalid")
                  && users == old(users) && resetTokens == old(resetTokens)
                else
                  var id := old(resetTokens)[t].userId;
                  reply == Ok
                  && users == old(users)[id := old(users)[id].(passwordHash := kit.hash(newPassword.value))]
                  && resetTokens == old(resetTokens) - {t}
      ensures reply.Ok? ==> token.value !in resetTokens
    {
      if !Filled(token) || !Filled(newPassword) {
        return Failure(400, "missing");
      }
      if !ValidatePasswordRules(newPassword.value) {
        return Failure(400, "Password does not meet rules");
      }
      var t := token.value;
      if t !in resetTokens {
        return Failure(400, "invalid or expired token");
      }
      var doc := resetTokens[t];
      if doc.expiresAt < now {
        resetTokens := resetTokens - {t};
        return Failure(400, "expired token");
      }
      if doc.userId !in users {
        return Failure(400, "invalid");
      }
      var u := users[doc.userId];
      ReplaceUserKeepsInvariant(users, byEmail, nextId, u.(passwordHash := kit.hash(newPassword.value)));
      users := users[doc.userId := u.(passwordHash := kit.hash(newPassword.value))];
      resetTokens := resetTokens - {t};
      reply := Ok;
    }

    /** POST /otp/request. The code is `Math.floor(100000 + Math.random() * 900000)`,
        where `draw` stands for `Math.floor(Math.random() * 900000)`. */
    method RequestOtp(email: Option<string>, draw: nat, mailSent: bool, now: int) returns (reply: Reply)
      requires Valid()
      requires draw < 900000
      modifies this`users
      ensures Valid()
      ensures !Filled(email) ==> reply == Failure(400, "missing") && users == old(users)
      ensures Filled(email) && old(FindByEmail(email.value)).None? ==> reply == Ok && users == old(users)
      ensures Filled(email) && old(FindByEmail(email.value)).Some? ==>
                var u := old(FindByEmail(email.value)).value;
                && users == old(users)[u.id := u.(otp := Some(Otp(NatToString(100000 + draw), now + OtpLifetime)))]
                && reply == (if mailSent then Ok else Failure(500, "server error"))
      ensures Filled(email) && old(FindByEmail(email.value)).Some? ==>
                IsOtpCode(users[old(FindByEmail(email.value)).value.id].otp.value.code)
    {
      if !Filled(email) {
        return Failure(400, "missing");
      }
      var found := FindByEmail(email.value);
      if found.None? {
        return Ok;
      }
      var u := found.value;
      var code := NatToString(100000 + draw);
      DrawnCodeIsOtpCode(draw);
      var updated := u.(otp := Some(Otp(code, now + OtpLifetime)));
      ReplaceUserKeepsInvariant(users, byEmail, nextId, updated);
      users := users[u.id := updated];
      assert found == old(FindByEmail(email.value));
      // the code is mailed here
      if !mailSent {
        return Failure(500, "server error");
      }
      reply := Ok;
    }

    /** POST /otp/verify. An expired code is cleared, a wrong code is kept, and
        the right code is cleared and exchanged for a full token. */
    method VerifyOtp(email: Option<string>, code: Option<string>, now: int) returns (reply: Reply)
      requires Valid()
      modifies this`users
      ensures Valid()
      ensures reply.Failure? || reply.TokenIssued?
      ensures !Filled(email) || !Filled(code) ==> reply == Failure(400, "missing") && users == old(users)
      ensures Filled(email) && Filled(code) ==>
                match old(FindByEmail(email.value))
                case None => reply == Failure(401, "invalid") && users == old(users)
                case Some(u) =>
                  if u.otp.None? then reply == Failure(401, "invalid") && users == old(users)
                  else if u.otp.value.expiresAt < now then
                    reply == Failure(401, "expired") && users == old(users)[u.id := u.(otp := None)]
                  else if u.otp.value.code != code.value then
                    reply == Failure(401, "invalid") && users == old(users)
                  else
                    reply == TokenIssued(kit.sign(FullClaims(u), now + SessionLifetime))
                    && users == old(users)[u.id := u.(otp := None)]
    {
      if !Filled(email) || !Filled(code) {
        return Failure(400, "missing");
      }
      var found := FindByEmail(email.value);
      if found.None? || found.value.otp.None? {
        return Failure(401, "invalid");
      }
      var u := found.value;
      if u.otp.value.expiresAt < now {
        ReplaceUserKeepsInvariant(users, byEmail, nextId, u.(otp := None));
        users := users[u.id := u.(otp := None)];
        return Failure(401, "expired");
      }
      if u.otp.value.code != code.value {
        return Failure(401, "invalid");
      }
      ReplaceUserKeepsInvariant(users, byEmail, nextId, u.(otp := None));
      users := users[u.id := u.(otp := None)];
      var token := kit.sign(FullClaims(u), now + SessionLifetime);
      reply := TokenIssued(token);
    }

    /** POST /2fa/setup. `secret` is the base32 secret speakeasy generates.
        The whole `twoFA` record is replaced, so an enabled secret is dropped. */
    method SetupTwoFA(authorization: Option<string>, secret: string, now: int) returns (reply: Reply)
      requires Valid()
      modifies this`users
      ensures Valid()
      ensures !Filled(authorization) ==> reply == Failure(401, "missing token") && users == old(users)
      ensures Filled(authorization) ==>
                match Decode(kit, authorization.value, now)
                case None => reply == Failure(401, "invalid token") && users == old(users)
                case Some(claims) =>
                  if claims.sub !in old(users) then reply == Failure(401, "invalid user") && users == old(users)
                  else
                    var u := old(users)[claims.sub];
                    && users == old(users)[u.id := u.(twoFA := Some(TwoFA(false, None, Some(secret))))]
                    && reply == Enrollment(kit.enrollmentQr("LabLive (" + u.email + ")", secret), secret)
    {
      if !Filled(authorization) {
        return Failure(401, "missing token");
      }
      var payload := Decode(kit, authorization.value, now);
      if payload.None? {
        return Failure(401, "invalid token");
      }
      if payload.value.sub !in users {
        return Failure(401, "invalid user");
      }
      var u := users[payload.value.sub];
      var qr := kit.enrollmentQr("LabLive (" + u.email + ")", secret);
      ReplaceUserKeepsInvariant(users, byEmail, nextId, u.(twoFA := Some(TwoFA(false, None, Some(secret)))));
      users := users[u.id := u.(twoFA := Some(TwoFA(false, None, Some(secret))))];
      reply := Enrollment(qr, secret);
    }

    /** POST /2fa/verify. A correct code promotes the pending secret to the
        confirmed one and enables 2FA; a wrong code changes nothing. */
    method ConfirmTwoFA(authorization: Option<string>, code: Option<string>, now: int) returns (reply: Reply)
      requires Valid()
      modifies this`users
      ensures Valid()
      ensures reply.Failure? || reply.Ok?
      ensures !Filled(authorization) ==> reply == Failure(401, "missing token") && users == old(users)
      ensures Filled(authorization) ==>
                match Decode(kit, authorization.value, now)
                case None => reply == Failure(401, "invalid token") && users == old(users)
                case Some(claims) =>
                  if claims.sub !in old(users) || PendingSecret(old(users)[claims.sub]).None? then
                    reply == Failure(400, "setup not started") && users == old(users)
                  else
                    var u := old(users)[claims.sub];
                    var pending := PendingSecret(u).value;
                    if !kit.totp(pending, code, now) then
                      reply == Failure(401, "invalid code") && users == old(users)
                    else
                      && reply == Ok
                      && users == old(users)[u.id := u.(twoFA := Some(TwoFA(true, Some(pending), None)))]
    {
      if !Filled(authorization) {
        return Failure(401, "missing token");
      }
      var payload := Decode(kit, authorization.value, now);
      if payload.None? {
        return Failure(401, "invalid token");
      }
      var sub := payload.value.sub;
      if sub !in users || PendingSecret(users[sub]).None? {
        return Failure(400, "setup not started");
      }
      var u := users[sub];
      var pending := PendingSecret(u).value;
      var ok := kit.totp(pending, code, now);
      if !ok {
        return Failure(401, "invalid code");
      }
      ReplaceUserKeepsInvariant(users, byEmail, nextId, u.(twoFA := Some(TwoFA(true, Some(pending), None))));
      users := users[u.id := u.(twoFA := Some(TwoFA(true, Some(pending), None)))];
      reply := Ok;
    }
  }
}
