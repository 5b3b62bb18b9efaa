/**
 * The access gate (auth.js): the claims an access token carries, the `verifyToken`
 * middleware that reads the bearer token, and the `verifyAdmin` role check. The token library's
 * `sign` and `verify` are parameters of the functions that use them.
 */
module Auth {
  import opened Records

  /** What the token library reports about a token: its decoded claims, or the error message. */
  datatype Verified = Decoded(claims: Claims) | Rejected(message: string)

  /** A middleware's decision: pass on with the request identity, or answer with a failure. */
  datatype Gate = Next(user: Claims) | Deny(failure: Failure)

  const NO_TOKEN := Failure(401, "Failed. No token.")

  /** The length of the `"Bearer "` prefix that `verifyToken` cuts off. */
  const PREFIX_LENGTH := 7

  /** `createAccessToken`'s payload: the user's id, email and admin flag, and nothing else. */
  function TokenClaims(u: User): (c: Claims)
    ensures c.id == u.id && c.email == u.email && c.isAdmin == u.isAdmin
  {
    Claims(u.id, u.email, u.isAdmin)
  }

  /** `createAccessToken`: the user's claims signed by `sign`. */
  function CreateAccessToken(u: User, sign: Claims -> string): string
  {
    sign(TokenClaims(u))
  }

  /** `token.slice(7, token.length)`: the header without its first seven characters, "" when it is shorter. */
  function TokenOf(header: string): (t: string)
    ensures |header| >= PREFIX_LENGTH ==> header == header[..PREFIX_LENGTH] + t
    ensures |header| < PREFIX_LENGTH ==> t == ""
  {
    if |header| >= PREFIX_LENGTH then header[PREFIX_LENGTH..] else ""
  }

  /** The slice takes off exactly a `"Bearer "` prefix. */
  lemma StripsBearer(t: string)
    ensures TokenOf("Bearer " + t) == t
  {
    assert ("Bearer " + t)[PREFIX_LENGTH..] == t;
  }

  /**
   * `verifyToken`: no Authorization header is 401; otherwise the sliced token is verified, a
   * failure answering 500 with the library's message and a success passing on its claims.
   */
  function VerifyToken(header: Option<string>, verify: string -> Verified): (g: Gate)
    ensures header.None? ==> g == Deny(NO_TOKEN)
    ensures header.Some? ==>
      match verify(TokenOf(header.value))
      case Decoded(claims) => g == Next(claims)
      case Rejected(message) => g == Deny(Failure(500, message))
  {
    if header.None? then Deny(NO_TOKEN)
    else
      match verify(TokenOf(header.value))
      case Decoded(claims) => Next(claims)
      case Rejected(message) => Deny(Failure(500, message))
  }

  /** A missing header is refused without consulting the token library at all. */
  lemma MissingHeaderNeverVerifies(verify1: string -> Verified, verify2: string -> Verified)
    ensures VerifyToken(None, verify1) == VerifyToken(None, verify2) == Deny(NO_TOKEN)
  {
  }

  /** A bad token is a 500, never the 401 of a missing header. */
  lemma BadTokenIsNot401(header: string, verify: string -> Verified)
    requires verify(TokenOf(header)).Rejected?
    ensures VerifyToken(Some(header), verify).Deny?
    ensures VerifyToken(Some(header), verify).failure.status == 500
  {
  }

  /**
   * Round trip: when `verify` undoes `sign`, the header `"Bearer " + token` of a freshly created
   * token lets the request through with exactly that user's claims.
   */
  lemma CreatedTokenVerifies(u: User, sign: Claims -> string, verify: string -> Verified)
    requires forall c :: verify(sign(c)) == Decoded(c)
    ensures VerifyToken(Some("Bearer " + CreateAccessToken(u, sign)), verify) == Next(TokenClaims(u))
  {
    StripsBearer(CreateAccessToken(u, sign));
  }

  /** `verifyAdmin`: an admin passes on, anyone else is answered 403. */
  function VerifyAdmin(user: Claims): (g: Gate)
    ensures g.Next? <==> user.isAdmin
    ensures g.Next? ==> g.user == user
    ensures g.Deny? ==> g.failure == ACCESS_FORBIDDEN
  {
    if user.isAdmin then Next(user) else Deny(ACCESS_FORBIDDEN)
  }

  /** An admin-only route: `verifyToken` first, then `verifyAdmin` on the decoded claims. */
  function AdminGate(header: Option<string>, verify: string -> Verified): Gate
  {
    match VerifyToken(header, verify)
    case Deny(failure) => Deny(failure)
    case Next(user) => VerifyAdmin(user)
  }

  /**
   * The admin routes answer 401 to a request without a token before any role check, pass a
   * request only when its verified claims are an admin's, and otherwise keep the token's failure.
   */
  lemma AdminGateOrder(header: Option<string>, verify: string -> Verified)
    ensures header.None? ==> AdminGate(header, verify) == Deny(NO_TOKEN)
    ensures AdminGate(header, verify).Next? <==>
      VerifyToken(header, verify).Next? && VerifyToken(header, verify).user.isAdmin
    ensures VerifyToken(header, verify).Deny? ==> AdminGate(header, verify) == VerifyToken(header, verify)
  {
  }
}
