/**
  The user service's HTTP authentication middleware: a bearer header, a
  verified and unexpired access token naming an existing account, and only
  then the account is stored under "user" and the request goes on. Every
  failure answers 403 and aborts.
*/
module UserMiddleware {
  import opened Wrappers
  import opened Http
  import opened Tokens
  import opened UserStore
  import opened UserView
  import opened BearerHeader
  import opened Gin

  /** What the middleware decides for one request. */
  datatype Verdict = Pass(user: User) | Deny(status: int, message: string)

  /** The checks in order, the first failing one deciding the answer. */
  function JwtAuthVerdict(header: string, verify: string -> Option<Claims>, nowNanos: int,
                          parseUuid: string -> Option<Uuid>, rows: seq<UserRow>, lookupOk: bool): (v: Verdict)
    ensures header == "" ==> v == Deny(StatusForbidden, "Authentication required")
    ensures header != "" && BearerToken(header).None? ==> v == Deny(StatusForbidden, "Invalid authentication format")
    ensures v.Deny? ==> v.status == StatusForbidden
    ensures v.Pass? <==> && header != "" && BearerToken(header).Some?
                         && CheckToken(BearerToken(header).value, verify, nowNanos, parseUuid).Ok?
                         && lookupOk
                         && FindById(rows, CheckToken(BearerToken(header).value, verify, nowNanos, parseUuid).value).Some?
    ensures v.Pass? ==>
      var id := CheckToken(BearerToken(header).value, verify, nowNanos, parseUuid).value;
      v.user == DatabaseUserToUser(rows[FindById(rows, id).value])
  {
    if header == "" then Deny(StatusForbidden, "Authentication required")
    else match BearerToken(header)
      case None => Deny(StatusForbidden, "Invalid authentication format")
      case Some(token) =>
        match CheckToken(token, verify, nowNanos, parseUuid)
        case Err(BadSignature) => Deny(StatusForbidden, "Invalid authentication token")
        case Err(TokenExpired) => Deny(StatusForbidden, "Authentication token is expired")
        case Err(BadSubject) => Deny(StatusForbidden, "Invalid authentication token")
        case Ok(id) =>
          var i := FindById(rows, id);
          if !lookupOk || i.None? then Deny(StatusForbidden, "Something went wrong")
          else Pass(DatabaseUserToUser(rows[i.value]))
  }

  /**
    A request passes exactly when its header is "Bearer " and a space-free
    token that verifies, is live and names a stored account; the account
    passed on is the one whose id the token carries.
  */
  lemma PassExactly(header: string, token: string, verify: string -> Option<Claims>, nowNanos: int,
                    parseUuid: string -> Option<Uuid>, rows: seq<UserRow>, lookupOk: bool)
    requires header == Scheme + " " + token && ' ' !in token
    ensures JwtAuthVerdict(header, verify, nowNanos, parseUuid, rows, lookupOk).Pass? <==>
              && CheckToken(token, verify, nowNanos, parseUuid).Ok? && lookupOk
              && FindById(rows, CheckToken(token, verify, nowNanos, parseUuid).value).Some?
    ensures JwtAuthVerdict(header, verify, nowNanos, parseUuid, rows, lookupOk).Pass? ==>
              JwtAuthVerdict(header, verify, nowNanos, parseUuid, rows, lookupOk).user.id
              == CheckToken(token, verify, nowNanos, parseUuid).value
  {
    BearerTokenExactly(header, token);
  }

  /**
    `JWTAuth`: on success "user" is set and the next handler runs; on any
    failure the response is written, the chain aborted, and neither "user"
    nor the next handler is touched.
  */
  method JwtAuth(ctx: Context<User>, db: UserDb, header: string, verify: string -> Option<Claims>, nowNanos: int,
                 parseUuid: string -> Option<Uuid>, lookupOk: bool)
    modifies ctx
    ensures var v := JwtAuthVerdict(header, verify, nowNanos, parseUuid, db.rows, lookupOk);
      && (v.Pass? ==> ctx.State() == old(ctx.State()).(keys := old(ctx.keys)["user" := UserValue(v.user)],
                                                        nextCalled := true))
      && (v.Deny? ==> ctx.State() == old(ctx.State()).(written := Some(Written(v.status, v.message)),
                                                        aborted := true))
  {
    if header == "" {
      ctx.Json(StatusForbidden, "Authentication required");
      ctx.Abort();
      return;
    }
    var authToken := BearerToken(header);
    if authToken.None? {
      ctx.Json(StatusForbidden, "Invalid authentication format");
      ctx.Abort();
      return;
    }
    var checked := CheckToken(authToken.value, verify, nowNanos, parseUuid);
    if checked.Err? {
      var message := if checked.error == TokenExpired then "Authentication token is expired"
                     else "Invalid authentication token";
      ctx.Json(StatusForbidden, message);
      ctx.Abort();
      return;
    }
    var dbUser := db.GetUserById(checked.value, lookupOk);
    if dbUser.None? {
      ctx.Json(StatusForbidden, "Something went wrong");
      ctx.Abort();
      return;
    }
    ctx.Set("user", UserValue(DatabaseUserToUser(dbUser.value)));
    ctx.Next();
  }
}
