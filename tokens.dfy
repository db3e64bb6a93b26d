/**
  The access-token checks shared by the user service's HTTP middleware and
  its gRPC `UserDetail` handler: verify the JWT, reject an expired one, and
  read the user id it carries. Signature checking, claim decoding and UUID
  parsing are library calls and are parameters here.
*/
module Tokens {
  import opened Wrappers

  /** A user id, in its canonical text form. */
  type Uuid = string

  /** The claims of a verified token: expiry in Unix seconds and the payload (a user id). */
  datatype Claims = Claims(expiresAt: int, data: string)

  const NanosPerSecond: int := 1_000_000_000

  /**
    `!time.Unix(expiresAt, 0).After(now)`: the expiry instant is not strictly
    later than now (given in nanoseconds since the epoch).
  */
  predicate Expired(c: Claims, nowNanos: int)
  {
    !(c.expiresAt * NanosPerSecond > nowNanos)
  }

  /**
    A token is expired at exactly its expiry second, and once expired it
    stays expired; before its expiry second it is live.
  */
  lemma ExpiryBoundary(c: Claims, nowNanos: int, later: int)
    requires nowNanos <= later
    ensures c.expiresAt * NanosPerSecond == nowNanos ==> Expired(c, nowNanos)
    ensures Expired(c, nowNanos) ==> Expired(c, later)
    ensures nowNanos < c.expiresAt * NanosPerSecond ==> !Expired(c, nowNanos)
  {
  }

  /** Which check a token failed. */
  datatype TokenError = BadSignature | TokenExpired | BadSubject

  /**
    Verify, then the expiry, then the payload as a UUID; the first failing
    check decides the error.
  */
  function CheckToken(token: string, verify: string -> Option<Claims>, nowNanos: int,
                      parseUuid: string -> Option<Uuid>): (r: Result<Uuid, TokenError>)
    ensures verify(token).None? ==> r == Err(BadSignature)
    ensures verify(token).Some? && Expired(verify(token).value, nowNanos) ==> r == Err(TokenExpired)
    ensures r.Ok? <==> && verify(token).Some?
                       && !Expired(verify(token).value, nowNanos)
                       && parseUuid(verify(token).value.data).Some?
    ensures r.Ok? ==> Some(r.value) == parseUuid(verify(token).value.data)
  {
    match verify(token)
    case None => Err(BadSignature)
    case Some(claims) =>
      if Expired(claims, nowNanos) then Err(TokenExpired)
      else match parseUuid(claims.data)
        case None => Err(BadSubject)
        case Some(id) => Ok(id)
  }
}
