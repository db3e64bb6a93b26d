/**
  The shared-secret check both gRPC services run before any handler: the
  caller sends "authorization: Bearer <secret>" in the call metadata (the
  Bearer form of section 2.1 of RFC 6750). The transcode worker reads the
  secret from its environment, the user service compares with a constant.
*/
module SharedSecret {
  import opened Wrappers
  import opened GoStrings
  import opened Http

  const BearerPrefix: string := "Bearer "

  /**
    `valid`: the first "authorization" value, with one leading "Bearer "
    removed if present, must equal the secret. So "Bearer <secret>" passes,
    and so does the bare secret unless the secret itself starts with "Bearer ".
  */
  function Valid(authorization: seq<string>, secret: string): (ok: bool)
    ensures |authorization| == 0 ==> !ok
    ensures |authorization| >= 1 ==>
      (ok <==> authorization[0] == BearerPrefix + secret
               || (authorization[0] == secret && !(BearerPrefix <= secret)))
  {
    if |authorization| < 1 then false
    else
      var a := authorization[0];
      assert BearerPrefix <= BearerPrefix + secret;
      assert (BearerPrefix + secret)[|BearerPrefix|..] == secret;
      TrimPrefix(a, BearerPrefix) == secret
  }

  /** What the interceptor decides before any handler runs. */
  datatype Gate = Admit | Reject(code: Code, message: string)

  /**
    `ensureValidToken`: no metadata is InvalidArgument, a bad token is
    Unauthenticated, and the call is admitted exactly when the token is valid.
  */
  function EnsureValidToken(md: Option<Metadata>, secret: string): (g: Gate)
    ensures md.None? ==> g == Reject(InvalidArgument, "missing metadata")
    ensures md.Some? && !Valid(Values(md.value, "authorization"), secret) ==>
      g == Reject(Unauthenticated, "invalid token")
    ensures g.Admit? <==> md.Some? && Valid(Values(md.value, "authorization"), secret)
  {
    if md.None? then Reject(InvalidArgument, "missing metadata")
    else if !Valid(Values(md.value, "authorization"), secret) then Reject(Unauthenticated, "invalid token")
    else Admit
  }
}
