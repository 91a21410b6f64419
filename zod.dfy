/** The zod request schemas (backend/src/validation/auth.validation.js and
    backend/src/validation/user.validation.js). A schema is a map from property
    name to the schema of that property, and `SafeParse` is zod's `safeParse` for
    `z.object(shape)`: the data must be an object, every listed property must
    parse, and the output keeps only the listed properties. */
module Zod {
  import opened Values
  import opened Chars
  import opened PasswordPolicy

  /** The checks of a `z.string()` chain. */
  datatype Check =
    | Min(n: nat)            // .min(n)
    | Max(n: nat)            // .max(n)
    | Regex(k: CharClass)    // .regex(/[...]/)
    | Email                  // .email()

  datatype Schema =
    | Str(checks: seq<Check>)                // z.string() with its checks
    | Enum(options: seq<string>)             // z.enum([...])
    | Optional(inner: Schema)                 // inner.optional()
    | Default(inner: Schema, fallback: string) // inner.default(fallback)

  type Shape = map<string, Schema>

  /** `.email()` is a library check; it is a parameter of every parse. */
  type EmailCheck = string -> bool

  predicate CheckHolds(c: Check, s: string, isEmail: EmailCheck)
  {
    match c
    case Min(n) => |s| >= n
    case Max(n) => |s| <= n
    case Regex(k) => Test(k, s)
    case Email => isEmail(s)
  }

  /** Parses one property value (None when the key is absent). The outcome is
      None on failure, Some(None) when the property is left out of the output,
      and Some(Some(v)) when the output holds v. */
  function ParseField(f: Schema, v: Option<Json>, isEmail: EmailCheck): Option<Option<Json>>
    decreases f
  {
    match f
    case Str(checks) =>
      if v.Some? && v.value.JStr? && forall i :: 0 <= i < |checks| ==> CheckHolds(checks[i], v.value.s, isEmail)
      then Some(v) else None
    case Enum(options) =>
      if v.Some? && v.value.JStr? && v.value.s in options then Some(v) else None
    case Optional(inner) =>
      // an absent value is accepted before the inner schema is consulted
      if v.None? then Some(None) else ParseField(inner, v, isEmail)
    case Default(inner, fallback) =>
      if v.None? then ParseField(inner, Some(JStr(fallback)), isEmail) else ParseField(inner, v, isEmail)
  }

  predicate FieldAccepts(f: Schema, v: Option<Json>, isEmail: EmailCheck)
  {
    ParseField(f, v, isEmail).Some?
  }

  /** `z.object(shape).safeParse(data)`: the parsed object, or None for `success: false`. */
  function SafeParse(shape: Shape, data: Json, isEmail: EmailCheck): (r: Option<map<string, Json>>)
    ensures r.Some? <==> data.JObj? && forall k :: k in shape ==> FieldAccepts(shape[k], Field(data.fields, k), isEmail)
    ensures r.Some? ==> r.value.Keys <= shape.Keys
    ensures r.Some? ==> forall k :: k in shape ==>
              ParseField(shape[k], Field(data.fields, k), isEmail) == (if k in r.value then Some(Some(r.value[k])) else Some(None))
  {
    if data.JObj? && forall k :: k in shape ==> FieldAccepts(shape[k], Field(data.fields, k), isEmail) then
      Some(map k | k in shape && ParseField(shape[k], Field(data.fields, k), isEmail).value.Some?
                 :: ParseField(shape[k], Field(data.fields, k), isEmail).value.value)
    else None
  }

  // auth.validation.js

  /** `passwordSchema`. */
  const PasswordSchema: Schema := Str([Min(12), Regex(Upper), Regex(Lower), Regex(Digit), Regex(NonAlnum)])

  const RoleEnum: Schema := Enum(["admin", "staff", "viewer"])

  /** `validateRegistration`. */
  const RegistrationShape: Shape := map[
    "name" := Str([Min(2)]),
    "email" := Str([Email]),
    "password" := PasswordSchema,
    "role" := Optional(RoleEnum)]

  /** `validateLogin`. */
  const LoginShape: Shape := map["email" := Str([Email]), "password" := Str([Min(1)])]

  /** `validatePasswordReset.request`. */
  const ResetRequestShape: Shape := map["email" := Str([Email])]

  /** `validatePasswordReset.confirm`. */
  const ResetConfirmShape: Shape := map["token" := Str([Min(1)]), "newPassword" := PasswordSchema]

  // user.validation.js

  /** `registerSchema`; its password chain is written out again in that file. */
  const RegisterSchema: Shape := map[
    "name" := Str([Min(2), Max(100)]),
    "email" := Str([Email]),
    "password" := Str([Min(12), Regex(Upper), Regex(Lower), Regex(Digit), Regex(NonAlnum)]),
    "role" := Optional(Default(RoleEnum, "staff"))]

  /** `loginSchema`. */
  const LoginSchema: Shape := map["email" := Str([Email]), "password" := Str([Min(1)])]

  /** `passwordResetSchema`. */
  const PasswordResetSchema: Shape := map[
    "token" := Str([Min(1)]),
    "newPassword" := Str([Min(12), Regex(Upper), Regex(Lower), Regex(Digit), Regex(NonAlnum)])]

  /** `passwordSchema` accepts exactly the strings of at least 12 characters
      with all four character classes: the same predicate as the strength meter. */
  lemma PasswordSchemaIsFourClass(pw: string, isEmail: EmailCheck)
    ensures FieldAccepts(PasswordSchema, Some(JStr(pw)), isEmail) <==> FourClassPolicy(pw, 12)
  {
    TestIsSearch(Upper, pw);
    TestIsSearch(Lower, pw);
    TestIsSearch(Digit, pw);
    TestIsSearch(NonAlnum, pw);
    var checks := PasswordSchema.checks;
    assert (forall i :: 0 <= i < |checks| ==> CheckHolds(checks[i], pw, isEmail)) <==>
      CheckHolds(checks[0], pw, isEmail) && CheckHolds(checks[1], pw, isEmail) && CheckHolds(checks[2], pw, isEmail)
      && CheckHolds(checks[3], pw, isEmail) && CheckHolds(checks[4], pw, isEmail);
  }

  /** A string schema with a single check accepts the strings that pass it. */
  lemma SingleCheck(c: Check, v: Option<Json>, isEmail: EmailCheck)
    ensures FieldAccepts(Str([c]), v, isEmail) <==> v.Some? && v.value.JStr? && CheckHolds(c, v.value.s, isEmail)
  {
    if v.Some? && v.value.JStr? {
      var checks := [c];
      assert checks[0] == c;
      assert (forall i :: 0 <= i < |checks| ==> CheckHolds(checks[i], v.value.s, isEmail)) <==> CheckHolds(c, v.value.s, isEmail);
    }
  }

  /** Only strings can pass `passwordSchema`. */
  lemma PasswordSchemaNeedsString(v: Option<Json>, isEmail: EmailCheck)
    requires FieldAccepts(PasswordSchema, v, isEmail)
    ensures v.Some? && v.value.JStr? && FourClassPolicy(v.value.s, 12)
  {
    PasswordSchemaIsFourClass(v.value.s, isEmail);
  }

  /** Every password the schema accepts also meets the 10-character rule of
      the auth routes. */
  lemma PasswordSchemaImpliesRouteRules(pw: string, isEmail: EmailCheck)
    requires FieldAccepts(PasswordSchema, Some(JStr(pw)), isEmail)
    ensures ValidatePasswordRules(pw)
  {
    PasswordSchemaIsFourClass(pw, isEmail);
    FourClassTwelveImpliesRouteRules(pw);
  }

  /** The password chain of `registerSchema` and of `passwordResetSchema` is
      `passwordSchema`, check for check. */
  lemma UserSchemasUsePasswordSchema()
    ensures RegisterSchema["password"] == PasswordSchema
    ensures PasswordResetSchema["newPassword"] == PasswordSchema
    ensures LoginSchema == LoginShape
  {
  }

  /** A role, when present, must be one of the three enum values; "operator",
      the role the register route defaults to, is refused by both schemas. */
  lemma RoleMustBeListed(role: Json, isEmail: EmailCheck)
    ensures FieldAccepts(RegistrationShape["role"], Some(role), isEmail) <==>
              role.JStr? && role.s in ["admin", "staff", "viewer"]
    ensures FieldAccepts(RegisterSchema["role"], Some(role), isEmail) <==>
              role.JStr? && role.s in ["admin", "staff", "viewer"]
    ensures !FieldAccepts(RegistrationShape["role"], Some(JStr("operator")), isEmail)
  {
  }

  /** `.default("staff").optional()`: the optional wrapper answers first, so a
      missing role stays missing and is never defaulted to "staff". */
  lemma RoleIsNeverDefaulted(data: map<string, Json>, isEmail: EmailCheck)
    requires "role" !in data
    requires SafeParse(RegisterSchema, JObj(data), isEmail).Some?
    ensures "role" !in SafeParse(RegisterSchema, JObj(data), isEmail).value
  {
    assert ParseField(RegisterSchema["role"], Field(data, "role"), isEmail) == Some(None);
  }

  /** The name rule of `registerSchema`: a string of 2 to 100 characters. */
  lemma RegisterNameLength(name: Json, isEmail: EmailCheck)
    ensures FieldAccepts(RegisterSchema["name"], Some(name), isEmail) <==> name.JStr? && 2 <= |name.s| <= 100
  {
    if name.JStr? {
      var checks := RegisterSchema["name"].checks;
      assert (forall i :: 0 <= i < |checks| ==> CheckHolds(checks[i], name.s, isEmail)) <==>
        CheckHolds(checks[0], name.s, isEmail) && CheckHolds(checks[1], name.s, isEmail);
    }
  }

  /** Registration: accepted exactly when the body is an object whose name has
      at least 2 characters, whose email passes the email check, whose
      password passes `passwordSchema`, and whose role is absent or listed. */
  lemma RegistrationAccepts(data: map<string, Json>, isEmail: EmailCheck)
    ensures SafeParse(RegistrationShape, JObj(data), isEmail).Some? <==>
              && "name" in data && data["name"].JStr? && |data["name"].s| >= 2
              && "email" in data && data["email"].JStr? && isEmail(data["email"].s)
              && "password" in data && data["password"].JStr? && FourClassPolicy(data["password"].s, 12)
              && ("role" in data ==> data["role"].JStr? && data["role"].s in ["admin", "staff", "viewer"])
  {
    assert FieldAccepts(RegistrationShape["name"], Field(data, "name"), isEmail) <==>
             "name" in data && data["name"].JStr? && |data["name"].s| >= 2 by {
      SingleCheck(Min(2), Field(data, "name"), isEmail);
    }
    assert FieldAccepts(RegistrationShape["email"], Field(data, "email"), isEmail) <==>
             "email" in data && data["email"].JStr? && isEmail(data["email"].s) by {
      SingleCheck(Email, Field(data, "email"), isEmail);
    }
    assert FieldAccepts(RegistrationShape["password"], Field(data, "password"), isEmail) <==>
             "password" in data && data["password"].JStr? && FourClassPolicy(data["password"].s, 12) by {
      if "password" in data && data["password"].JStr? {
        PasswordSchemaIsFourClass(data["password"].s, isEmail);
      }
    }
    assert FieldAccepts(RegistrationShape["role"], Field(data, "role"), isEmail) <==>
             ("role" in data ==> data["role"].JStr? && data["role"].s in ["admin", "staff", "viewer"]) by {
      if "role" in data {
        RoleMustBeListed(data["role"], isEmail);
      }
    }
    assert RegistrationShape.Keys == {"name", "email", "password", "role"};
    var ok := forall k :: k in RegistrationShape ==> FieldAccepts(RegistrationShape[k], Field(data, k), isEmail);
    assert ok <==>
      FieldAccepts(RegistrationShape["name"], Field(data, "name"), isEmail)
      && FieldAccepts(RegistrationShape["email"], Field(data, "email"), isEmail)
      && FieldAccepts(RegistrationShape["password"], Field(data, "password"), isEmail)
      && FieldAccepts(RegistrationShape["role"], Field(data, "role"), isEmail);
  }

  /** Login (both files): any email that passes the email check and any
      non-empty password; no password policy applies. */
  lemma LoginAcceptsAnyPassword(data: map<string, Json>, isEmail: EmailCheck)
    ensures SafeParse(LoginShape, JObj(data), isEmail).Some? <==>
              && "email" in data && data["email"].JStr? && isEmail(data["email"].s)
              && "password" in data && data["password"].JStr? && data["password"].s != ""
  {
    SingleCheck(Email, Field(data, "email"), isEmail);
    SingleCheck(Min(1), Field(data, "password"), isEmail);
    assert LoginShape.Keys == {"email", "password"};
    var ok := forall k :: k in LoginShape ==> FieldAccepts(LoginShape[k], Field(data, k), isEmail);
    assert ok <==>
      FieldAccepts(LoginShape["email"], Field(data, "email"), isEmail)
      && FieldAccepts(LoginShape["password"], Field(data, "password"), isEmail);
  }

  /** Reset request: an object whose email passes the email check. */
  lemma ResetRequestAccepts(data: map<string, Json>, isEmail: EmailCheck)
    ensures SafeParse(ResetRequestShape, JObj(data), isEmail).Some? <==>
              "email" in data && data["email"].JStr? && isEmail(data["email"].s)
  {
    SingleCheck(Email, Field(data, "email"), isEmail);
    assert ResetRequestShape.Keys == {"email"};
  }

  /** Reset confirm (both files): a non-empty token and a new password that
      passes `passwordSchema`. */
  lemma ResetConfirmAccepts(data: map<string, Json>, isEmail: EmailCheck)
    ensures SafeParse(ResetConfirmShape, JObj(data), isEmail).Some? <==>
              && "token" in data && data["token"].JStr? && data["token"].s != ""
              && "newPassword" in data && data["newPassword"].JStr? && FourClassPolicy(data["newPassword"].s, 12)
    ensures SafeParse(PasswordResetSchema, JObj(data), isEmail) == SafeParse(ResetConfirmShape, JObj(data), isEmail)
  {
    if "newPassword" in data && data["newPassword"].JStr? {
      PasswordSchemaIsFourClass(data["newPassword"].s, isEmail);
    }
    assert PasswordResetSchema == ResetConfirmShape;
    SingleCheck(Min(1), Field(data, "token"), isEmail);
    assert ResetConfirmShape.Keys == {"token", "newPassword"};
    var ok := forall k :: k in ResetConfirmShape ==> FieldAccepts(ResetConfirmShape[k], Field(data, k), isEmail);
    assert ok <==>
      FieldAccepts(ResetConfirmShape["token"], Field(data, "token"), isEmail)
      && FieldAccepts(ResetConfirmShape["newPassword"], Field(data, "newPassword"), isEmail);
  }

  /** A body the registration schema accepts passes the register route's
      password check: its password is a string that meets the route's rules. */
  lemma RegistrationImpliesRouteChecks(data: map<string, Json>, isEmail: EmailCheck)
    requires SafeParse(RegistrationShape, JObj(data), isEmail).Some?
    ensures "password" in data && data["password"].JStr? && ValidatePasswordRules(data["password"].s)
  {
    RegistrationAccepts(data, isEmail);
    FourClassTwelveImpliesRouteRules(data["password"].s);
  }
}
