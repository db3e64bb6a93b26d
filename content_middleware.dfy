/**
  The content service's HTTP authentication middleware: a bearer header,
  then the user behind the token through the identity cache. A malformed
  header is 403; a failed lookup is 500.
*/
module ContentMiddleware {
  import opened Wrappers
  import opened Http
  import opened BearerHeader
  import opened Gin
  import opened IdentityCache

  /** The answer a request gets before any lookup, if it gets one. */
  function HeaderVerdict(header: string): (w: Option<Written>)
    ensures w.None? <==> header != "" && BearerToken(header).Some?
    ensures w.Some? ==> w.value.status == StatusForbidden
  {
    if header == "" then Some(Written(StatusForbidden, "Authentication required"))
    else if BearerToken(header).None? then Some(Written(StatusForbidden, "Invalid authentication format"))
    else None
  }

  /**
    `JWTAuth`: with a malformed header nothing else happens (no cache read,
    no user-service call); otherwise the lookup decides: its failure is 500
    and aborts, its user is stored under "user" and the next handler runs.
  */
  method JwtAuth(ctx: Context<User>, cache: Cache, header: string, now: int, getReached: bool,
                 rpc: Option<UserDetailResponse>, setOk: bool)
    modifies ctx, cache
    ensures HeaderVerdict(header).Some? ==>
      && ctx.State() == old(ctx.State()).(written := HeaderVerdict(header), aborted := true)
      && cache.State() == old(cache.State())
    ensures HeaderVerdict(header).None? ==>
      var l := GetUserDetailSpec(old(cache.State()), BearerToken(header).value, now, getReached, rpc, setOk);
      && cache.State() == l.st
      && (l.result.Err? ==> ctx.State() == old(ctx.State()).(written := Some(Written(StatusInternalServerError, "Something went wrong")),
                                                             aborted := true))
      && (l.result.Ok? ==> ctx.State() == old(ctx.State()).(keys := old(ctx.keys)["user" := UserValue(l.result.value)],
                                                            nextCalled := true))
  {
    if header == "" {
      ctx.Json(StatusForbidden, "Authentication required");
      ctx.Abort();
      return;
    }
    var authToken := BearerToken(header);
    if authToken.None? {
      ctx.Json(StatusForbidden, "Invalid authentication format");
      ctx.Abort();
      return;
    }
    var user := GetUserDetail(cache, authToken.value, now, getReached, rpc, setOk);
    if user.Err? {
      ctx.Json(StatusInternalServerError, "Something went wrong");
      ctx.Abort();
      return;
    }
    ctx.Set("user", UserValue(user.value));
    ctx.Next();
  }
}
