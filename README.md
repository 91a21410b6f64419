# PharmaTrack identity and access core, modelled in Dafny

PharmaTrack is a lab-activity logger: an Express/MongoDB backend with a
React frontend. This project models its account and access-control core and
the pages and helpers that use it.

- **The auth routes** (`backend/src/routes/auth.js`) are modelled as the
  class `AuthRoutes.AuthStore`. It holds the user collection, the
  unique-email index and the reset-token collection. Each route handler is a
  method, and its contract spells out every branch: registration, login, the
  second-factor step, password reset request and confirm, e-mailed one-time
  codes, and TOTP enrolment.
- **The libraries** (bcrypt, jsonwebtoken, speakeasy, qrcode) are the
  uninterpreted functions of a `Crypto.Toolkit`. `Crypto.Sound` lists the only
  facts the proofs rely on:
  - a password matches its own hash;
  - a signed token is non-empty and contains no space;
  - a signed token verifies to its payload before it expires and fails
    verification afterwards.
- **Randomness, the clock and mail delivery** are parameters: the `nanoid`
  token, the random draw behind the six-digit code, the speakeasy secret,
  `now`, and whether mail was sent.
- **The request gate** (`backend/src/middleware/auth.js`) reads the header
  with `split(" ")[1]`. `Headers` models that split, and proves that the
  header the client builds carries back exactly the token it stored.
- **The four password policies**, which disagree with each other, are in
  `PasswordPolicy`:
  - the routes' 10-character rule;
  - `validatePassword` with 8 characters and a fixed symbol list;
  - the 12-character zod schemas;
  - the registration page's strength meter.
- **The request schemas**:
  - the zod ones are in `Zod`, as a small interpreter of `z.object` with
    `min`/`max`/`regex`/`email`/`enum`/`optional`/`default`;
  - the AJV ones are in `Ajv`.
- **The other backend pieces**: the activity routes (list query, sort and
  limit, `performedBy`) and the logger.
- **The frontend**: the axios client's two interceptors, and the login,
  registration, activity-form, history, feed and dashboard pages. Each page
  is a class whose methods take the settled outcome of their HTTP call as a
  parameter.

Facts about the code that the proofs establish (the first two take the
`twoFA` and `otp` fields to be saved, as `auth.js` assumes; see "## Left out"):

- An e-mailed one-time code signs a user in without the password and without
  the second factor (`AuthFlows.OtpSkipsSecondFactor`).
- `/2fa/setup` accepts the 5-minute token that the password alone obtains.
  It replaces the enrolment with a disabled one, so the password alone then
  gets a full session (`AuthFlows.PasswordAloneTurnsOffSecondFactor`).
- `requireAuth` lets that pending token through. It is `requireRole` that
  refuses it, because the token has no role claim
  (`AuthMiddleware.PendingTokenPassesAuthOnly`).
- The tokens carry `sub`, not `id`, so `req.user?.id` is always undefined
  and `performedBy` is never filled from the token
  (`ActivitiesRoute.AttachPerformedBy`).
- `LOG_LEVEL=debug` falls back to info, because `levels.debug` is 0 and 0 is
  falsy. Debug records are therefore never written (`Logger.DebugNeverLogs`).
- In `registerSchema`, `.default("staff").optional()` never applies the
  default under zod 3's semantics (`Zod.RoleIsNeverDefaulted`).
- The zod role enum refuses "operator", which is the role the register route
  defaults to (`Zod.RoleMustBeListed`).
- An 8-character password can pass `validatePassword` while the routes
  reject it. An underscore is special to the routes but not to the report
  (`PasswordPolicy.ShortPasswordPassesReportOnly`,
  `PasswordPolicy.UnderscoreIsNotAReportSymbol`).

Other behaviour of the code that the model keeps as written:

- Emails are compared exactly as given; nothing lowercases them.
- `requireAuth` accepts the pending second-factor token, and `requireRole`
  answers 403 when no user is attached.
- Tokens carry `sub` and `role` only, and no email.
- The routes check the password with a boolean predicate, not a list of
  failed rules.
- Password-reset confirmation checks the password rules *before* it looks up
  the token, so a weak password leaves an expired token in place.
- `/2fa/setup` replaces the whole enrolment, an enabled one included.
- Users have no active flag and no last-login time; login changes nothing.

## Model

| member | source | states |
|---|---|---|
| PasswordPolicy.RouteRulesAreFourClass | backend/src/routes/auth.js:16-25 | the routes' regex scans accept a password exactly when it has ≥10 characters and an upper-case letter, a lower-case letter, a digit and a non-alphanumeric character somewhere in it |
| Chars.TestIsSearch | backend/src/routes/auth.js:20-23 | `/[class]/.test(s)` is true exactly when some character of `s` is in the class |
| PasswordPolicy.ValidatePassword | backend/utils/passwordRules.js:1-18 | `passed` iff `errors` is empty; `errors` lists the failed rule names in key order, without repeats; each of the five names is listed iff its rule fails |
| PasswordPolicy.ReportLengthRule | backend/utils/passwordRules.js:3 | "length" is reported exactly when the password has fewer than 8 characters |
| PasswordPolicy.SingleViolation | backend/utils/passwordRules.js:10-17 | a password that breaks exactly one rule gets exactly that rule's name as its only error |
| PasswordPolicy.CountHolding | frontend/src/pages/auth/RegisterPage.jsx:26 | the filter-and-count is at most the number of rules, and equals it iff every rule holds |
| PasswordPolicy.Strength | frontend/src/pages/auth/RegisterPage.jsx:7-13 | the strength meter is between 0 and 5 |
| PasswordPolicy.StrengthFullIffFourClass | frontend/src/pages/auth/RegisterPage.jsx:7-13 | a strength of 5 means exactly ≥12 characters with all four character classes |
| PasswordPolicy.FourClassTwelveImpliesRouteRules | backend/src/routes/auth.js:16-25 | every password that meets the 12-character policy passes the routes' 10-character rules |
| PasswordPolicy.ReportPassedImpliesFourClass | backend/utils/passwordRules.js:2-10 | a password of ≥12 characters that passes the report meets the 12-character four-class policy |
| PasswordPolicy.UnderscoreIsSpecialForRoutes | backend/src/routes/auth.js:23 | "Abcdefghij1_" passes the routes' rules and the 12-character policy |
| PasswordPolicy.UnderscoreIsNotAReportSymbol | backend/utils/passwordRules.js:7 | the same password fails the report with the single error "symbol" |
| PasswordPolicy.ShortPasswordPassesReportOnly | backend/utils/passwordRules.js:3 | "Abcdef1!" passes the report but not the routes' 10-character rule |
| Chars.ListedIsNonAlnum | backend/utils/passwordRules.js:7 | every listed symbol is outside [A-Za-z0-9] |
| Decimal.NatToStringRoundTrip | backend/src/routes/auth.js:230 | reading the decimal text of a number gives the number back |
| Decimal.SixDigitCode | backend/src/routes/auth.js:230 | every number from 100000 to 999999 is written as exactly six digits denoting it |
| Headers.Split | backend/src/middleware/auth.js:8 | `split(" ")` always yields at least one field |
| Headers.SplitJoin | backend/src/middleware/auth.js:8 | joining the fields with spaces gives the header back, and no field contains a space |
| Headers.BearerRoundTrip | frontend/src/api/client.js:14 | the server's `split(" ")[1]` of the header `Bearer <token>` is the token, for any token without a space |
| Headers.NoSpaceNoToken | backend/src/middleware/auth.js:8 | a header without a space has no second field |
| AuthRoutes.AuthStore.constructor | backend/src/routes/auth.js:13 | the store starts with no users and no reset tokens, and its invariant holds |
| AuthRoutes.AuthStore.FindByEmail | backend/src/routes/auth.js:52 | `findOne({ email })` returns the stored user with exactly that email, or None when no user has it |
| AuthRoutes.AuthStore.EmailsAreUnique | backend/src/routes/auth.js:52-53 | the store invariant keeps emails unique: two users with the same email are the same user |
| AuthRoutes.AuthStore.Register | backend/src/routes/auth.js:42-74 | 400 when email or password is missing; 400 when the rules fail; 409 when the email exists; otherwise adds exactly one user (hashed password, role defaulting to "operator", no 2FA, no OTP) under a new id and answers an 8-hour token for `{sub, role}` with the public user; failures change nothing; the invariant holds |
| AuthRoutes.AuthStore.Login | backend/src/routes/auth.js:84-113 | changes nothing; 400 for missing fields; the same 401 for an unknown email and a wrong password; with 2FA enabled only a 5-minute pending token; otherwise an 8-hour full token and the public user; a full sign-in implies 2FA is off |
| AuthRoutes.AuthStore.VerifySecondFactor | backend/src/routes/auth.js:123-150 | changes nothing; answers 400/401/400/401 for missing input, a bad token, no confirmed secret and a wrong code; issues a full token exactly when the token verifies, its subject has a confirmed secret and the TOTP check passes |
| AuthRoutes.AuthStore.RequestPasswordReset | backend/src/routes/auth.js:160-186 | 400 when the email is missing; an unknown email gets `ok` and creates nothing; a known one adds the token for that user with a one-hour expiry, answering `ok`, or 500 when mail fails (the token stays) |
| AuthRoutes.AuthStore.ConfirmPasswordReset | backend/src/routes/auth.js:192-214 | missing input and rule failures change nothing; an unknown token gives 400; an expired token is deleted with 400 "expired token"; a valid one rehashes the owner's password and deletes the token; after success the token is gone |
| AuthRoutes.DrawnCodeIsOtpCode | backend/src/routes/auth.js:230 | the code drawn for any draw below 900000 is six digits that read back as 100000 + draw |
| AuthRoutes.AuthStore.RequestOtp | backend/src/routes/auth.js:224-246 | an unknown email gets `ok` and changes nothing; a known user's OTP becomes the decimal text of 100000 + draw with a 5-minute expiry, a 6-digit code between 100000 and 999999; 500 when mail fails, with the code kept |
| AuthRoutes.AuthStore.VerifyOtp | backend/src/routes/auth.js:252-275 | no OTP gives 401 "invalid"; an expired code is cleared with 401 "expired"; a wrong code is kept with 401 "invalid"; the right code is cleared and exchanged for an 8-hour token |
| AuthRoutes.AuthStore.SetupTwoFA | backend/src/routes/auth.js:285-310 | 401 for a missing or invalid token or an unknown subject; otherwise the subject's whole 2FA state becomes `{tempSecret, enabled: false}` and the reply carries the QR for the label "LabLive (email)" and the secret |
| AuthRoutes.AuthStore.ConfirmTwoFA | backend/src/routes/auth.js:320-350 | 401 for a missing or invalid token; 400 when no setup was started; a wrong code changes nothing; a right code makes the pending secret the confirmed one, enables 2FA and clears the pending secret |
| AuthFlows.RegisterThenLogin | backend/src/routes/auth.js:40-113 | registration succeeds iff the password meets the rules and the email is new; it is then followed by a successful login of the same public user |
| AuthFlows.ResetTokenIsSingleUse | backend/src/routes/auth.js:199-212 | once a reset token has reset a password, or was found expired, using it again gives "invalid or expired token" |
| AuthFlows.ResetThenLogin | backend/src/routes/auth.js:160-214 | a reset link used within the hour with a valid password resets it, and the new password passes the password step of login |
| AuthFlows.OtpIsSingleUse | backend/src/routes/auth.js:264-267 | after a code has been exchanged for a token, the same code is "invalid" |
| AuthFlows.SecondFactorSignIn | backend/src/routes/auth.js:94-150 | a pending token used within 5 minutes yields a full token exactly when the TOTP code checks out against the user's confirmed secret, and that token is the user's full token |
| AuthFlows.OtpSkipsSecondFactor | backend/src/routes/auth.js:224-275 | for a user with 2FA enabled, requesting and then presenting the e-mailed code yields a full token |
| AuthFlows.PasswordAloneTurnsOffSecondFactor | backend/src/routes/auth.js:94-101 | with 2FA enabled: login gives a pending token, `/2fa/setup` accepts it, and the next login with the password alone is a full sign-in |
| AuthMiddleware.Request.constructor | backend/src/middleware/auth.js:4 | a request starts with its header and no attached user |
| AuthMiddleware.RequireAuth | backend/src/middleware/auth.js:3-15 | 401 "missing token" without a header; 401 "invalid token" when the second field is absent or fails verification; otherwise attaches exactly the decoded payload and calls next |
| AuthMiddleware.RequireRole | backend/src/middleware/auth.js:17-24 | calls next iff a user is attached and its role claim is one of the roles; otherwise 403 "forbidden" |
| AuthMiddleware.NoRolesForbidsAll | backend/src/middleware/auth.js:19 | with no roles listed every request is forbidden |
| AuthMiddleware.HeaderWithoutSpaceIsInvalid | backend/src/middleware/auth.js:8-9 | a header without a space never decodes |
| AuthMiddleware.ClientHeaderReachesVerify | frontend/src/api/client.js:14 | the client's header reaches `jwt.verify` with exactly the stored token |
| AuthMiddleware.PendingTokenPassesAuthOnly | backend/src/middleware/auth.js:3-24 | an unexpired pending token decodes to its payload (so `requireAuth` passes it), and `requireRole` refuses it for any roles |
| AuthMiddleware.SessionTokenRole | backend/src/middleware/auth.js:17-24 | an unexpired full token decodes, and passes `requireRole` iff its role is listed |
| AuthMiddleware.ExpiredTokenIsInvalid | backend/src/middleware/auth.js:9-13 | an expired token never decodes |
| Zod.SafeParse | backend/src/validation/auth.validation.js:19 | succeeds iff the data is an object whose every listed property parses; the output has only listed keys, and each holds the property's parse result |
| Zod.PasswordSchemaIsFourClass | backend/src/validation/auth.validation.js:3-9 | `passwordSchema` accepts a string iff it has ≥12 characters and all four character classes |
| Zod.PasswordSchemaNeedsString | backend/src/validation/auth.validation.js:3-9 | only strings meeting that policy pass `passwordSchema` |
| Zod.PasswordSchemaImpliesRouteRules | backend/src/validation/auth.validation.js:3-9 | every password the schema accepts passes the routes' own rules |
| Zod.UserSchemasUsePasswordSchema | backend/src/validation/user.validation.js:6-28 | the password chains of `registerSchema` and `passwordResetSchema` equal `passwordSchema`, and `loginSchema` equals `validateLogin`'s schema |
| Zod.RoleMustBeListed | backend/src/validation/auth.validation.js:16 | a present role is accepted iff it is "admin", "staff" or "viewer" (in both files); "operator" is refused |
| Zod.RoleIsNeverDefaulted | backend/src/validation/user.validation.js:12 | with `.default("staff").optional()`, a missing role stays missing in the parsed output |
| Zod.RegisterNameLength | backend/src/validation/user.validation.js:4 | the name is accepted iff it is a string of 2 to 100 characters |
| Zod.RegistrationAccepts | backend/src/validation/auth.validation.js:11-20 | a registration is accepted iff name ≥2 characters, email passes the check, password passes `passwordSchema`, and the role is absent or listed |
| Zod.LoginAcceptsAnyPassword | backend/src/validation/auth.validation.js:22-29 | a login is accepted iff the email passes the check and the password is a non-empty string |
| Zod.ResetRequestAccepts | backend/src/validation/auth.validation.js:31-37 | a reset request is accepted iff the email passes the check |
| Zod.ResetConfirmAccepts | backend/src/validation/auth.validation.js:38-44 | a reset confirmation is accepted iff the token is non-empty and the new password passes `passwordSchema`; `passwordResetSchema` gives the same verdict |
| Zod.RegistrationImpliesRouteChecks | backend/src/validation/auth.validation.js:11-20 | an accepted registration has a password the register route's rules accept |
| Ajv.Check | backend/src/validation/activity.validation.js:21-28 | `valid` iff the data conforms; `errors` is empty iff valid |
| Ajv.ValidateActivityCreate | backend/src/validation/activity.validation.js:5-28 | a valid activity is an object with a 24-character `departmentId`, an `activityType` of 1 to 100 characters, listed `status`/`shift` values when present, and no other keys |
| Ajv.UnknownActivityKeyRejected | backend/src/validation/activity.validation.js:18 | a key outside the eight properties makes an activity invalid |
| Ajv.ActivityRules | backend/src/validation/activity.validation.js:5-19 | an activity is valid iff it is an object with only the eight keys, a 24-character `departmentId`, an `activityType` of 1 to 100 characters, and, when present, a listed status and shift, date-time strings for `startedAt`/`finishedAt`, and objects for `details`/`metadata` |
| Ajv.MinimalActivity | backend/src/validation/activity.validation.js:8-9 | an activity with only the two required keys is valid iff their lengths are right |
| Ajv.ValidateDepartmentCreate | backend/src/validation/department.validation.js:15-22 | `errors` is empty iff valid |
| Ajv.DepartmentRules | backend/src/validation/department.validation.js:5-13 | a department is valid iff its keys are among name/description, the name has 2 to 100 characters, and a description has at most 500 |
| Logger.CurrentLevel | backend/src/utils/logger.js:1-3 | the threshold is always info, warn or error (1 to 3) |
| Logger.CurrentLevelCases | backend/src/utils/logger.js:1-3 | the threshold is error iff LOG_LEVEL is "error", warn iff "warn", and info otherwise, including for "debug" |
| Logger.DebugNeverLogs | backend/src/utils/logger.js:19-21 | debug records are never written |
| Logger.ErrorAlwaysLogs | backend/src/utils/logger.js:28-29 | error records are always written |
| Logger.LoggingIsUpwardClosed | backend/src/utils/logger.js:5-7 | if a level is written, every higher level is too |
| Logger.FormatLog | backend/src/utils/logger.js:9-16 | the record has timestamp, level and message, and a `data` key exactly when the data is truthy, holding that data |
| Logger.Log | backend/src/utils/logger.js:18-27 | a record is written iff the level passes the threshold, and it is the formatted record |
| Logger.ErrorData | backend/src/utils/logger.js:29-32 | the error data is an object with at most the keys `error` and `stack` |
| Logger.LogError | backend/src/utils/logger.js:28-33 | an error record is always written and always carries the error data |
| ActivitiesRoute.BuildQuery | backend/src/routes/activities.js:9-15 | a key is present iff its query parameter is truthy, and a date bound iff its parameter is; the filter matches an activity iff it meets every given parameter |
| ActivitiesRoute.Find | backend/src/routes/activities.js:16 | the result holds only matching activities from the collection, and each matching activity exactly as often as the collection holds it |
| ActivitiesRoute.Insert | backend/src/routes/activities.js:16 | inserting into a newest-first list keeps it newest first and adds exactly that activity |
| ActivitiesRoute.SortNewestFirst | backend/src/routes/activities.js:16 | `.sort({ createdAt: -1 })` is newest first and a permutation of its input |
| ActivitiesRoute.EffectiveLimit | backend/src/routes/activities.js:9-16 | the number returned never exceeds what is available, nor a positive requested limit, nor 50 when no limit is given; it is either everything available or the limit itself; a limit of 0 means no cap |
| ActivitiesRoute.ListActivities | backend/src/routes/activities.js:8-18 | the answer is newest first, only matches, a sub-multiset of the matches, of length min(limit or 50, matches) with 0 meaning all, and no left-out match is newer than a returned one |
| ActivitiesRoute.TakeNewest | backend/src/routes/activities.js:16 | cutting a newest-first list keeps it newest first, and what is cut off is no newer than what is kept |
| ActivitiesRoute.ActivityBody.constructor | backend/src/routes/activities.js:22 | the body holds the posted fields |
| ActivitiesRoute.AttachPerformedBy | backend/src/routes/activities.js:24 | a truthy `performedBy` is kept; otherwise it is set from the `id` claim, and since no token has one, the property ends up absent |
| Web.Browser.constructor | frontend/src/api/client.js:12 | the browser holds the given storage and location |
| Web.ErrorText | frontend/src/pages/auth/LoginPage.jsx:38 | the server's error message when it is non-empty, otherwise the fallback |
| ApiClient.RequestConfig.constructor | frontend/src/api/client.js:11 | a config holds its URL and headers |
| ApiClient.AttachToken | frontend/src/api/client.js:11-17 | a stored non-empty token sets `Authorization: Bearer <token>` and nothing else changes; without one the headers are unchanged; the same config is returned |
| ApiClient.HandleResponse | frontend/src/api/client.js:19-30 | the outcome passes through unchanged; a 401 removes exactly "token" and "user" from storage and goes to /login; any other outcome changes nothing |
| ApiClient.SendThroughGate | frontend/src/api/client.js:11-17 | for a stored non-empty token without spaces (as every signed token is), a request built by the interceptor passes `requireAuth` iff that token verifies, and the server then sees its payload; with no stored token the config's own Authorization header decides, and without one the answer is 401 "missing token" |
| LoginPage.KeepDigits | frontend/src/pages/auth/LoginPage.jsx:77 | `replace(/\D/g, "")` leaves only digits and never lengthens; `KeepDigitsCons` pins it down character by character |
| LoginPage.KeepDigitsCons | frontend/src/pages/auth/LoginPage.jsx:77 | a leading digit is kept in front of the rest's digits, and a leading non-digit is removed |
| LoginPage.SanitizeCode | frontend/src/pages/auth/LoginPage.jsx:77 | the code is the first min(6, n) of the n digits of the input, in order: a prefix of `KeepDigits(input)` of that length |
| LoginPage.NonDigitIgnored | frontend/src/pages/auth/LoginPage.jsx:77 | a non-digit typed anywhere in the field leaves the code unchanged |
| LoginPage.KeepDigitsAppend | frontend/src/pages/auth/LoginPage.jsx:77 | the digits of a concatenation are the digits of each part, in order |
| LoginPage.KeepDigitsOfDigits | frontend/src/pages/auth/LoginPage.jsx:77 | a string of digits is left unchanged |
| LoginPage.SanitizeIdempotent | frontend/src/pages/auth/LoginPage.jsx:77 | sanitising twice equals sanitising once |
| LoginPage.SanitizeFixedPoints | frontend/src/pages/auth/LoginPage.jsx:77 | the sanitiser leaves its input alone iff it is at most six digits |
| LoginPage.FirstSixDigitsWin | frontend/src/pages/auth/LoginPage.jsx:77 | once six digits are typed, whatever follows is ignored |
| LoginPage.VerifyEnabledAfterTyping | frontend/src/pages/auth/LoginPage.jsx:84 | Verify is enabled iff nothing is loading and at least six digits were typed |
| LoginPage.LoginForm.constructor | frontend/src/pages/auth/LoginPage.jsx:8-14 | the page starts with empty fields, not loading, and not in the second-factor step |
| LoginPage.LoginForm.TypeCode | frontend/src/pages/auth/LoginPage.jsx:77 | the code field becomes the sanitised input |
| LoginPage.LoginForm.HandleLogin | frontend/src/pages/auth/LoginPage.jsx:17-42 | posts the email and password; a second-factor answer keeps the temporary token and stores nothing; a token answer is stored and the browser goes to "/"; an error shows the message or "Login failed"; loading ends false |
| LoginPage.LoginForm.HandleSecondFactor | frontend/src/pages/auth/LoginPage.jsx:44-62 | posts the temporary token and code; the token is stored and the browser goes home only on success; an error shows the message or "2FA verification failed" |
| RegisterPage.RegisterForm.constructor | frontend/src/pages/auth/RegisterPage.jsx:16-23 | the form starts empty and not loading |
| RegisterPage.RegisterForm.HandleSubmit | frontend/src/pages/auth/RegisterPage.jsx:33-62 | a mismatch, then a weak password, is reported and sends nothing; otherwise posts name, email and password and goes to the success location, or shows the error; a sent password always meets the 12-character policy and the server's rules |
| RegisterPage.SubmitEnabledIffStrong | frontend/src/pages/auth/RegisterPage.jsx:134 | Register is enabled iff nothing is loading and the password has ≥12 characters and all four classes |
| CreateActivityPage.ActivityTypesFor | frontend/src/pages/CreateActivityPage.jsx:40 | types are offered iff the key is "microbiology" or "chemistry" |
| CreateActivityPage.FindDepartment | frontend/src/pages/CreateActivityPage.jsx:38 | returns the first department with that id, or None when none has it |
| CreateActivityPage.Normalize | frontend/src/pages/CreateActivityPage.jsx:39 | the key has no whitespace and no upper-case letter and is no longer than the name |
| CreateActivityPage.NormalizeAppend | frontend/src/pages/CreateActivityPage.jsx:39 | normalising a concatenation normalises each part |
| CreateActivityPage.NormalizeKey | frontend/src/pages/CreateActivityPage.jsx:39 | a string without whitespace or capitals is its own key |
| CreateActivityPage.NormalizeIdempotent | frontend/src/pages/CreateActivityPage.jsx:39 | normalising twice equals normalising once |
| CreateActivityPage.SpacedNameFindsTypes | frontend/src/pages/CreateActivityPage.jsx:4-14 | a department named "Micro Biology" has the key "microbiology" and is offered eight types |
| CreateActivityPage.DetailsValue | frontend/src/pages/CreateActivityPage.jsx:53-58 | non-empty details text is its parse, or `{}` when parsing fails |
| CreateActivityPage.EmptyDetailsAreEmptyObject | frontend/src/pages/CreateActivityPage.jsx:55 | empty details are sent as `{}` |
| CreateActivityPage.Payload | frontend/src/pages/CreateActivityPage.jsx:60-63 | the body has the form's keys plus `details`; every other field is sent as its string; `details` is the parsed value |
| CreateActivityPage.ActivityForm.constructor | frontend/src/pages/CreateActivityPage.jsx:27-33 | the form starts in its initial state: status "completed", shift "morning", other fields empty |
| CreateActivityPage.ActivityForm.HandleChange | frontend/src/pages/CreateActivityPage.jsx:42-44 | only the named field changes |
| CreateActivityPage.ActivityForm.HandleSubmit | frontend/src/pages/CreateActivityPage.jsx:46-80 | posts the payload; on success it shows the success message and resets the form; on failure it keeps the form and shows the error |
| CreateActivityPage.FreshFormOffersNothing | frontend/src/pages/CreateActivityPage.jsx:38-40 | a fresh form offers no activity types |
| LiveFeed.PrependNewest | frontend/src/pages/ActivityHistoryPage.jsx:68 | the new item comes first, followed by the previous items, capped at 100 |
| LiveFeed.EventsKeepNewestWindow | frontend/src/pages/ActivityFeedPage.jsx:40-42 | after any run of live events the list is the newest 100 of everything seen, newest first |
| LiveFeed.ActivityQuery | frontend/src/pages/ActivityHistoryPage.jsx:40-46 | the query has departmentId and limit 100, and from/to/type exactly when those filters are non-empty |
| LiveFeed.HistoryPage.constructor | frontend/src/pages/ActivityHistoryPage.jsx:8-13 | the page starts with no activities, no department, an empty filter, and loading |
| LiveFeed.HistoryPage.LoadActivities | frontend/src/pages/ActivityHistoryPage.jsx:33-54 | without a department the list is cleared and nothing is requested; otherwise it requests the query and the list becomes the answer, or empty on failure or a null answer |
| LiveFeed.HistoryPage.OnActivityCreated | frontend/src/pages/ActivityHistoryPage.jsx:58-69 | subscribed only while a department is selected, a live event prepends the activity within the 100 cap |
| LiveFeed.HistoryPage.SelectDepartment | frontend/src/pages/ActivityHistoryPage.jsx:96 | the selection becomes the chosen department |
| LiveFeed.HistoryPage.SetFrom | frontend/src/pages/ActivityHistoryPage.jsx:116 | only `filter.from` changes |
| LiveFeed.HistoryPage.SetTo | frontend/src/pages/ActivityHistoryPage.jsx:126 | only `filter.to` changes |
| LiveFeed.FeedPage.constructor | frontend/src/pages/ActivityFeedPage.jsx:8-10 | the page starts with no activities, an empty filter, and loading |
| LiveFeed.FeedPage.LoadActivities | frontend/src/pages/ActivityFeedPage.jsx:12-28 | without a department nothing changes; otherwise it requests the query and the list becomes the answer, or stays as it was on failure |
| LiveFeed.FeedPage.OnActivityCreated | frontend/src/pages/ActivityFeedPage.jsx:40-42 | a live event prepends the activity within the 100 cap |
| LiveFeed.FeedPage.SetFrom | frontend/src/pages/ActivityFeedPage.jsx:69 | only `filter.from` changes |
| LiveFeed.FeedPage.SetTo | frontend/src/pages/ActivityFeedPage.jsx:77 | only `filter.to` changes |
| DashboardPage.OneSectionAtMost | frontend/src/pages/DashboardPage.jsx:78-89 | at most one section renders; the department and user sections render only for admins; nothing renders iff the page is none of the four, or is an admin page for a non-admin |
| DashboardPage.RemoveId | frontend/src/pages/DashboardPage.jsx:123 | the departments kept are exactly those whose id differs |
| DashboardPage.RemoveIdAppend | frontend/src/pages/DashboardPage.jsx:123 | the filter keeps order: it works piece by piece |
| DashboardPage.RemoveAbsentId | frontend/src/pages/DashboardPage.jsx:123 | deleting an id nobody has changes nothing |
| DashboardPage.Dashboard.constructor | frontend/src/pages/DashboardPage.jsx:7-9 | the dashboard starts on "feed" with no departments and no selection |
| DashboardPage.Dashboard.FetchDepartments | frontend/src/pages/DashboardPage.jsx:11-20 | on success the list is replaced, and the first department is selected when there is one and nothing was selected; a failure changes nothing |
| DashboardPage.Dashboard.Navigate | frontend/src/pages/DashboardPage.jsx:41-67 | the current page becomes the chosen one |
| DashboardPage.DepartmentsPage.constructor | frontend/src/pages/DashboardPage.jsx:95-99 | the page holds the dashboard's list, with empty inputs |
| DashboardPage.DepartmentsPage.HandleCreate | frontend/src/pages/DashboardPage.jsx:101-116 | posts name and description; on success it appends the created department and clears the inputs; on failure it keeps everything and shows the error |
| DashboardPage.DepartmentsPage.HandleDelete | frontend/src/pages/DashboardPage.jsx:118-127 | a cancelled confirm sends nothing; a successful delete drops exactly the departments with that id; a failure alerts and keeps the list |

## Left out

- The algorithms of bcrypt, JWT signing and verification, speakeasy TOTP (its
  time-step window included), and QR encoding. They are uninterpreted
  `Toolkit` functions, and only the facts in `Crypto.Sound` are assumed.
- Random values (`nanoid`, `Math.random`, secret generation), the clock and
  mail delivery are parameters. The mail content and the SMTP transport are
  not modelled.
- Each route handler runs as one atomic step. Concurrent requests, MongoDB's
  own behaviour (`_id` generation is a counter here), and the uniqueness
  index under races are not modelled.
- The `catch` blocks that answer 500 on an exception are modelled only for
  mail failures. Database and library exceptions are not modelled.
- The rate limiter, the Express/socket.io wiring, the server start-up and
  the `validate` middleware are not modelled. None of the zod or AJV
  validators is called by the modelled routes.
- `ActivitiesRoute.BuildQuery`: `new Date(text)` is a parameter, and an
  invalid date (`NaN`) is not modelled.
- `ActivitiesRoute.ListActivities`: `Number(limit)` is modelled as an
  optional natural number. Negative, fractional and NaN limits are not
  modelled. The order of activities with equal `createdAt` is left open by
  the database, and the model fixes one such order.
- The post of an activity (`Activity.create` and the socket broadcast) is not
  modelled beyond `performedBy`.
- The `activities.js` route file imports a default export that
  `middleware/auth.js` does not provide. The model takes the routes as
  guarded by `requireAuth`.
- `Ajv.ValidateActivityCreate`, `Ajv.ValidateDepartmentCreate`: the contents
  of AJV's error objects are not modelled, only whether there are any. The
  `date-time` format is a parameter.
- `Zod.SafeParse`: zod's issue list and messages are not modelled, only
  success and the parsed output. `.email()` is a parameter. Unknown keys are
  stripped, as zod does.
- Strings are sequences of characters. `toLowerCase` and `\s` are modelled
  on ASCII only, and Unicode case mapping and Unicode whitespace are left
  out.
- Looking up a key such as `"__proto__"` or `"toString"` in a JavaScript
  object (`levels[name]`, `ACTIVITY_TYPES[key]`) is not modelled. Such a key
  is treated as any unknown key.
- `LoginPage.LoginForm.HandleLogin`: only the two answer shapes the login
  route produces are modelled. A success answer without a token is not
  modelled.
- `LiveFeed.FeedPage.LoadActivities`: an answer body that is not an array
  is not modelled.
- The `setTimeout` that clears the success message, the loading screens,
  rendering, and the user-management section (`UsersPage` is not part of
  this model) are not modelled.
- `CreateActivityPage.DetailsValue`: `JSON.parse` is a parameter.
- JSON numbers are integers, and floating point is not modelled.
- The user record's shape (`twoFA`, `otp`) is taken from what `auth.js`
  reads and writes. `backend/src/models/User.js` declares neither field, and
  under Mongoose's default strict mode `user.save()` would drop them. The
  model assumes they are saved, so `AuthFlows.OtpSkipsSecondFactor`,
  `AuthFlows.PasswordAloneTurnsOffSecondFactor`, `AuthFlows.SecondFactorSignIn`
  and the OTP and 2FA handlers describe `auth.js` as written.
- `Ajv.ValidateActivityCreate`, `Ajv.ActivityRules`: assume AJV 6, or AJV 8
  with `ajv-formats` registered, where `format: "date-time"` is a known
  format (a parameter here). With AJV 8 alone, strict mode makes
  `ajv.compile(activitySchema)` throw "unknown format", so every call throws
  instead of answering a verdict; the sources do not pin the version.
  `DepartmentSchema` has no format and is unaffected.
- `ApiClient.SendThroughGate`: a stored token that contains a space is not
  modelled. The server would verify only the part after the first space up
  to the next one; tokens the server signs never contain one.
- `Zod.RoleIsNeverDefaulted`: assumes zod 3, where `.optional()` answers an
  undefined value before the inner `.default("staff")` runs. Zod 4 applies
  the default inside an optional property; the sources do not pin the
  version.
- Non-string request values are not modelled. `express.json` and Express's
  extended query parser can deliver objects such as MongoDB operators
  (`{"$ne": ""}`). The handlers `AuthRoutes.AuthStore.Register`, `Login`,
  `RequestPasswordReset`, `ConfirmPasswordReset`, `RequestOtp`, `VerifyOtp`
  and `ActivitiesRoute.BuildQuery` take their body and query fields as
  strings. `AuthFlows.ResetTokenIsSingleUse`, and the fact that a reset needs
  the token, hold only for string inputs. An object token such as
  `{"$ne": ""}` is truthy, and `findOne({ token })` would then match any
  stored token.
- The `LiveFeed` component of `App.jsx` shares only its prepend with the
  pages (`LiveFeed.PrependNewest`). Its own initial load and its guard on the
  token and department are not modelled.
