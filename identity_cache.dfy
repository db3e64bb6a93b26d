/**
  The content service's view of the caller: the user record behind an
  access token, read through a key/value cache keyed by the token itself
  and filled from the user service's `UserDetail` call on a miss.
*/
module IdentityCache {
  import opened Wrappers

  /** The content service's user record. */
  datatype User = User(id: string, name: string, email: string)

  /** The user service's answer to `UserDetail`. */
  datatype UserDetailResponse = UserDetailResponse(id: string, name: string, email: string)

  /**
    Cached bytes, abstracted by what decoding them gives: bytes that decode to
    a user (its encoding, but also other JSON text such as reordered keys), or
    bytes that fail to decode.
  */
  datatype Blob = UserJson(user: User) | OtherBytes(raw: seq<bv8>)

  /** `UserToByte`: the JSON encoding. */
  function UserToByte(u: User): Blob
  {
    UserJson(u)
  }

  /** `ByteToUser`: the decoded user, or an error. */
  function ByteToUser(b: Blob): Option<User>
  {
    if b.UserJson? then Some(b.user) else None
  }

  /** Decoding an encoding gives the user back. */
  lemma DecodeEncode(u: User)
    ensures ByteToUser(UserToByte(u)) == Some(u)
  {
  }

  /** The cache entry lifetime, one hour, in seconds. */
  const TtlSeconds: int := 3600

  /** A cached value and the second it expires at. */
  datatype Entry = Entry(value: Blob, expiresAt: int)

  /** The cache contents and the `UserDetail` calls made so far (the tokens sent). */
  datatype CacheState = CacheState(entries: map<string, Entry>, rpcCalls: seq<string>)

  /** An entry is visible before its expiry second. */
  predicate Live(entries: map<string, Entry>, key: string, now: int)
  {
    key in entries && now < entries[key].expiresAt
  }

  /** Why a lookup failed. */
  datatype LookupError = RpcFailed | CacheWriteFailed

  /** What one `GetUserDetail` call returns and the state after it. */
  datatype Lookup = Lookup(result: Result<User, LookupError>, st: CacheState)

  /**
    `GetUserDetail`: a live entry that decodes is the answer; otherwise the
    user service is asked, and its answer is cached for an hour under the
    token before it is returned. A read error counts as a miss.
  */
  function GetUserDetailSpec(st: CacheState, token: string, now: int, getReached: bool,
                             rpc: Option<UserDetailResponse>, setOk: bool): (l: Lookup)
    ensures getReached && Live(st.entries, token, now) && ByteToUser(st.entries[token].value).Some? ==>
      l == Lookup(Ok(ByteToUser(st.entries[token].value).value), st)
    ensures l.st.rpcCalls == st.rpcCalls || l.st.rpcCalls == st.rpcCalls + [token]
    ensures l.result.Err? ==> l.st.entries == st.entries
  {
    var cached := if getReached && Live(st.entries, token, now) then ByteToUser(st.entries[token].value) else None;
    if cached.Some? then Lookup(Ok(cached.value), st)
    else
      var st1 := st.(rpcCalls := st.rpcCalls + [token]);
      match rpc
      case None => Lookup(Err(RpcFailed), st1)
      case Some(resp) =>
        var user := User(resp.id, resp.name, resp.email);
        if !setOk then Lookup(Err(CacheWriteFailed), st1)
        else Lookup(Ok(user), st1.(entries := st.entries[token := Entry(UserToByte(user), now + TtlSeconds)]))
  }

  /**
    A miss (or an undecodable entry, or a failed read) calls the user service
    exactly once with the token. Its failure is returned and nothing is
    cached; its answer is returned field for field, after being cached for
    an hour under the token; a failed cache write fails the whole call.
  */
  lemma MissGoesToUserService(st: CacheState, token: string, now: int, getReached: bool,
                              rpc: Option<UserDetailResponse>, setOk: bool)
    requires !(getReached && Live(st.entries, token, now) && ByteToUser(st.entries[token].value).Some?)
    ensures var l := GetUserDetailSpec(st, token, now, getReached, rpc, setOk);
      && l.st.rpcCalls == st.rpcCalls + [token]
      && (rpc.None? ==> l.result == Err(RpcFailed) && l.st.entries == st.entries)
      && (rpc.Some? && !setOk ==> l.result == Err(CacheWriteFailed))
      && (rpc.Some? && setOk ==>
            var u := User(rpc.value.id, rpc.value.name, rpc.value.email);
            && l.result == Ok(u)
            && l.st.entries == st.entries[token := Entry(UserToByte(u), now + TtlSeconds)])
  {
  }

  /**
    The cache does its job: after a lookup that went to the user service
    and succeeded, the same token within the hour is answered from the cache
    with the same user, and the user service is not called again.
  */
  lemma SecondLookupHits(st: CacheState, token: string, now: int, getReached: bool,
                         rpc: Option<UserDetailResponse>, later: int, rpc2: Option<UserDetailResponse>, setOk2: bool)
    requires !(getReached && Live(st.entries, token, now) && ByteToUser(st.entries[token].value).Some?)
    requires GetUserDetailSpec(st, token, now, getReached, rpc, true).result.Ok?
    requires now <= later < now + TtlSeconds
    ensures var first := GetUserDetailSpec(st, token, now, getReached, rpc, true);
      var second := GetUserDetailSpec(first.st, token, later, true, rpc2, setOk2);
      second.result == first.result && second.st == first.st
  {
    var first := GetUserDetailSpec(st, token, now, getReached, rpc, true);
    MissGoesToUserService(st, token, now, getReached, rpc, true);
    DecodeEncode(first.result.value);
  }

  /** The cache connection and the user-service client. */
  class Cache {
    var entries: map<string, Entry>
    var rpcCalls: seq<string>

    function State(): CacheState
      reads this
    {
      CacheState(entries, rpcCalls)
    }

    constructor (entries: map<string, Entry>)
      ensures State() == CacheState(entries, [])
    {
      this.entries := entries;
      rpcCalls := [];
    }

    /** `conn.Get(ctx, key).Bytes()`: the live value, or an error (missing, expired or unreachable). */
    method Get(key: string, now: int, reached: bool) returns (b: Option<Blob>)
      ensures b == if reached && Live(entries, key, now) then Some(entries[key].value) else None
    {
      b := if reached && Live(entries, key, now) then Some(entries[key].value) else None;
    }

    /** `conn.Set(ctx, key, value, ttl)`. */
    method Set(key: string, value: Blob, now: int, ttl: int, succeeds: bool) returns (ok: bool)
      modifies this
      ensures ok == succeeds
      ensures State() == old(State()).(entries := if succeeds then old(entries)[key := Entry(value, now + ttl)]
                                                   else old(entries))
    {
      if succeeds {
        entries := entries[key := Entry(value, now + ttl)];
      }
      ok := succeeds;
    }

    /** `fetchUserDetail`: one `UserDetail` call carrying the token; its answer is a parameter. */
    method FetchUserDetail(token: string, answer: Option<UserDetailResponse>) returns (r: Option<UserDetailResponse>)
      modifies this
      ensures r == answer
      ensures State() == old(State()).(rpcCalls := old(rpcCalls) + [token])
    {
      rpcCalls := rpcCalls + [token];
      r := answer;
    }
  }

  /** `GetUserDetail`, proved to behave as `GetUserDetailSpec` says. */
  method GetUserDetail(c: Cache, token: string, now: int, getReached: bool,
                       rpc: Option<UserDetailResponse>, setOk: bool) returns (r: Result<User, LookupError>)
    modifies c
    ensures Lookup(r, c.State()) == GetUserDetailSpec(old(c.State()), token, now, getReached, rpc, setOk)
  {
    var userByte := c.Get(token, now, getReached);
    if userByte.Some? {
      var user := ByteToUser(userByte.value);
      if user.Some? {
        return Ok(user.value);
      }
    }
    var grpcResponse := c.FetchUserDetail(token, rpc);
    if grpcResponse.None? {
      return Err(RpcFailed);
    }
    var user := User(grpcResponse.value.id, grpcResponse.value.name, grpcResponse.value.email);
    var encoded := UserToByte(user);
    var ok := c.Set(token, encoded, now, TtlSeconds, setOk);
    if !ok {
      return Err(CacheWriteFailed);
    }
    r := Ok(user);
  }
}
