/** The libraries the auth routes call for hashing, tokens and one-time
    passwords: bcrypt, jsonwebtoken (RFC 7519), speakeasy (TOTP, RFC 6238) and
    qrcode. Their algorithms are not part of this model. Each is a function of
    a `Toolkit`, fixed when the server starts (the signing key is
    process-wide), and `Sound` collects the only facts that lemmas rely on. */
module Crypto {
  import opened Values

  /** A user's `_id`. */
  type UserId = nat

  /** The payloads the auth routes sign. */
  datatype Claims =
    | Session(sub: UserId, role: string)    // { sub, role }, valid 8 hours
    | SecondFactorPending(sub: UserId)      // { sub, require2FA: true }, valid 5 minutes

  /** The role claim, `undefined` in a pending token. */
  function RoleClaim(c: Claims): Option<string>
  {
    match c
    case Session(_, role) => Some(role)
    case SecondFactorPending(_) => None
  }

  /** The `id` claim read by the activity routes: neither payload has one. */
  function IdClaim(c: Claims): Option<string>
  {
    None
  }

  datatype Toolkit = Toolkit(
    // bcrypt.hash(password, 12)
    hash: string -> string,
    // bcrypt.compare(password, passwordHash)
    compare: (string, string) -> bool,
    // jwt.sign(claims, JWT_SECRET, { expiresIn }) with the expiry as an absolute time in ms
    sign: (Claims, int) -> string,
    // jwt.verify(token, JWT_SECRET) at time `now` in ms; None where it throws
    verify: (string, int) -> Option<Claims>,
    // speakeasy.totp.verify({ secret, encoding: "base32", token: code }) at time `now`
    totp: (string, Option<string>, int) -> bool,
    // qrcode.toDataURL of the otpauth URL for an account label and a secret
    enrollmentQr: (string, string) -> string
  )

  /** What the libraries promise: a hash matches its own password; a signed
      token is a non-empty compact serialisation (base64url parts joined by
      dots, so no spaces); and it verifies to its payload until it expires,
      and not after. */
  ghost predicate Sound(kit: Toolkit)
  {
    && (forall pw :: kit.compare(pw, kit.hash(pw)))
    && (forall c, exp :: kit.sign(c, exp) != "" && ' ' !in kit.sign(c, exp))
    && (forall c, exp, now :: kit.verify(kit.sign(c, exp), now) == if now < exp then Some(c) else None)
  }
}
