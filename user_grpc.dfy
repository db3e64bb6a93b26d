/**
  The user service's gRPC side: the same shared-secret interceptor as the
  transcode worker, with the secret fixed in the code, in front of
  `UserDetail`, which turns an access token into the account it belongs to.
*/
module UserGrpc {
  import opened Wrappers
  import opened Http
  import opened SharedSecret
  import opened Tokens
  import opened UserStore

  /** The secret this service compares with. */
  const AuthKey: string := "secret-auth-key"

  /** Callers in the Bearer form are admitted exactly when they send this constant. */
  lemma BearerCallersNeedTheConstant(k: string, md: Metadata)
    requires md == map["authorization" := [BearerPrefix + k]]
    ensures EnsureValidToken(Some(md), AuthKey).Admit? <==> k == AuthKey
  {
    assert Values(md, "authorization") == [BearerPrefix + k];
    assert !(BearerPrefix <= AuthKey) by {
      assert AuthKey[0] != BearerPrefix[0];
    }
  }

  datatype UserDetailRequest = UserDetailRequest(token: string)
  datatype UserDetailResponse = UserDetailResponse(id: Uuid, name: string, email: string)

  /**
    `UserDetail`: a failed database connection ends the process; then the
    token checks, each failure being PermissionDenied; then the lookup by
    id, whose failure is Internal. Only the account the token names is
    returned, never another.
  */
  function UserDetail(connected: bool, req: UserDetailRequest, verify: string -> Option<Claims>, nowNanos: int,
                      parseUuid: string -> Option<Uuid>, rows: seq<UserRow>, lookupOk: bool)
    : (r: RpcReply<UserDetailResponse>)
    ensures !connected <==> r.Crashed?
    ensures connected && CheckToken(req.token, verify, nowNanos, parseUuid).Err? ==> r.RpcError? && r.code == PermissionDenied
    ensures r.RpcOk? <==> && connected && CheckToken(req.token, verify, nowNanos, parseUuid).Ok?
                          && lookupOk && FindById(rows, CheckToken(req.token, verify, nowNanos, parseUuid).value).Some?
    ensures r.RpcOk? ==>
      var id := CheckToken(req.token, verify, nowNanos, parseUuid).value;
      exists i :: 0 <= i < |rows| && rows[i].id == id
        && r.value == UserDetailResponse(rows[i].id, rows[i].name, rows[i].email)
    ensures r.RpcError? && r.code == Internal ==> connected && CheckToken(req.token, verify, nowNanos, parseUuid).Ok?
    ensures connected && CheckToken(req.token, verify, nowNanos, parseUuid).Ok?
            && (!lookupOk || FindById(rows, CheckToken(req.token, verify, nowNanos, parseUuid).value).None?) ==>
      r == RpcError(Internal, "something went wrong")
  {
    if !connected then Crashed
    else match CheckToken(req.token, verify, nowNanos, parseUuid)
      case Err(BadSignature) => RpcError(PermissionDenied, "invalid token")
      case Err(TokenExpired) => RpcError(PermissionDenied, "token is expired")
      case Err(BadSubject) => RpcError(PermissionDenied, "invalid token")
      case Ok(id) =>
        var i := FindById(rows, id);
        if !lookupOk || i.None? then RpcError(Internal, "something went wrong")
        else
          var u := rows[i.value];
          RpcOk(UserDetailResponse(u.id, u.name, u.email))
  }

  /**
    A token whose expiry second is now is refused as expired, even though
    its signature and subject are good and the account exists.
  */
  lemma ExpiringNowIsRefused(req: UserDetailRequest, verify: string -> Option<Claims>, nowNanos: int,
                             parseUuid: string -> Option<Uuid>, rows: seq<UserRow>, lookupOk: bool)
    requires verify(req.token).Some? && verify(req.token).value.expiresAt * NanosPerSecond == nowNanos
    ensures UserDetail(true, req, verify, nowNanos, parseUuid, rows, lookupOk)
            == RpcError(PermissionDenied, "token is expired")
  {
    ExpiryBoundary(verify(req.token).value, nowNanos, nowNanos);
  }

  /** One inbound call: the interceptor, then `UserDetail` only when it admits the call. */
  function Serve(md: Option<Metadata>, connected: bool, req: UserDetailRequest, verify: string -> Option<Claims>,
                 nowNanos: int, parseUuid: string -> Option<Uuid>, rows: seq<UserRow>, lookupOk: bool)
    : (r: RpcReply<UserDetailResponse>)
    ensures EnsureValidToken(md, AuthKey).Reject? ==>
      r == RpcError(EnsureValidToken(md, AuthKey).code, EnsureValidToken(md, AuthKey).message)
    ensures r.RpcOk? ==> md.Some? && Valid(Values(md.value, "authorization"), AuthKey)
    ensures EnsureValidToken(md, AuthKey).Admit? ==> r == UserDetail(connected, req, verify, nowNanos, parseUuid, rows, lookupOk)
  {
    match EnsureValidToken(md, AuthKey)
    case Reject(code, message) => RpcError(code, message)
    case Admit => UserDetail(connected, req, verify, nowNanos, parseUuid, rows, lookupOk)
  }
}
