/** The request gate (backend/src/middleware/auth.js): `requireAuth` reads the
    bearer token, verifies it and attaches the payload to the request;
    `requireRole` lets a request through when its payload's role is listed. */
module AuthMiddleware {
  import opened Values
  import opened Crypto
  import opened Headers

  /** What a middleware does with a request: call `next()` once, or answer. */
  datatype Outcome = Next | Reject(status: nat, error: string)

  /** The parts of an Express request the gate reads and writes. */
  class Request {
    /** `req.headers.authorization`. */
    var authorization: Option<string>
    /** `req.user`. */
    var user: Option<Claims>

    constructor (authorization: Option<string>)
      ensures this.authorization == authorization && user == None
    {
      this.authorization := authorization;
      user := None;
    }
  }

  /** `jwt.verify(header.split(" ")[1], JWT_SECRET)`, None where it throws
      (no second field, a bad signature, an expired token). */
  function Decode(kit: Toolkit, header: string, now: int): Option<Claims>
  {
    match BearerToken(header)
    case None => None
    case Some(token) => kit.verify(token, now)
  }

  /** `requireAuth`. */
  method RequireAuth(req: Request, kit: Toolkit, now: int) returns (outcome: Outcome)
    modifies req`user
    ensures !Filled(req.authorization) ==> outcome == Reject(401, "missing token") && req.user == old(req.user)
    ensures Filled(req.authorization) && Decode(kit, req.authorization.value, now).None? ==>
              outcome == Reject(401, "invalid token") && req.user == old(req.user)
    ensures Filled(req.authorization) && Decode(kit, req.authorization.value, now).Some? ==>
              outcome == Next && req.user == Decode(kit, req.authorization.value, now)
    ensures outcome == Next <==> Filled(req.authorization) && Decode(kit, req.authorization.value, now).Some?
  {
    var header := req.authorization;
    if !Filled(header) {
      return Reject(401, "missing token");
    }
    var decoded := Decode(kit, header.value, now);
    if decoded.None? {
      return Reject(401, "invalid token");
    }
    req.user := decoded;
    outcome := Next;
  }

  /** `requireRole(...roles)` applied to `req.user`. */
  function RequireRole(roles: seq<string>, user: Option<Claims>): (outcome: Outcome)
    ensures outcome == Next || outcome == Reject(403, "forbidden")
    ensures outcome == Next <==> user.Some? && RoleClaim(user.value).Some? && RoleClaim(user.value).value in roles
  {
    if user.None? || RoleClaim(user.value).None? || RoleClaim(user.value).value !in roles then
      Reject(403, "forbidden")
    else Next
  }

  /** With no roles listed, every request is forbidden. */
  lemma NoRolesForbidsAll(user: Option<Claims>)
    ensures RequireRole([], user) == Reject(403, "forbidden")
  {
  }

  /** A header without a space carries no token, so it is an invalid token. */
  lemma HeaderWithoutSpaceIsInvalid(kit: Toolkit, header: string, now: int)
    requires ' ' !in header
    ensures Decode(kit, header, now) == None
  {
    NoSpaceNoToken(header);
  }

  /** The header the client builds reaches `jwt.verify` with exactly the
      token the client stored. */
  lemma ClientHeaderReachesVerify(kit: Toolkit, token: string, now: int)
    requires ' ' !in token
    ensures Decode(kit, BearerHeader(token), now) == kit.verify(token, now)
  {
    BearerRoundTrip(token);
  }

  /** The 5-minute token that login hands out while the second factor is
      pending passes `requireAuth`, since no claim is inspected, but has no
      role, so `requireRole` refuses it whatever the roles. */
  lemma PendingTokenPassesAuthOnly(kit: Toolkit, sub: UserId, exp: int, now: int, roles: seq<string>)
    requires Sound(kit) && now < exp
    ensures Decode(kit, BearerHeader(kit.sign(SecondFactorPending(sub), exp)), now) == Some(SecondFactorPending(sub))
    ensures RequireRole(roles, Some(SecondFactorPending(sub))) == Reject(403, "forbidden")
  {
    BearerRoundTrip(kit.sign(SecondFactorPending(sub), exp));
  }

  /** A full token passes `requireRole` exactly when its role is listed. */
  lemma SessionTokenRole(kit: Toolkit, sub: UserId, role: string, exp: int, now: int, roles: seq<string>)
    requires Sound(kit) && now < exp
    ensures Decode(kit, BearerHeader(kit.sign(Session(sub, role), exp)), now) == Some(Session(sub, role))
    ensures RequireRole(roles, Some(Session(sub, role))) == Next <==> role in roles
  {
    BearerRoundTrip(kit.sign(Session(sub, role), exp));
  }

  /** An expired token is refused even in a well-formed header. */
  lemma ExpiredTokenIsInvalid(kit: Toolkit, c: Claims, exp: int, now: int)
    requires Sound(kit) && exp <= now
    ensures Decode(kit, BearerHeader(kit.sign(c, exp)), now) == None
  {
    BearerRoundTrip(kit.sign(c, exp));
  }
}
