/**
  Account creation and sign-in in the user service's HTTP API. Sign-up
  lower-cases the address, validates the password, refuses a taken address,
  and creates the account in a transaction that is committed only once the
  account's tokens exist.
*/
module UserAuth {
  import opened Wrappers
  import opened GoStrings
  import opened Http
  import opened Tokens
  import opened UserStore

  /** The access and refresh tokens handed to a signed-in client. */
  datatype TokenPair = TokenPair(access: string, refresh: string)

  /** The body of a sign-up or login request. */
  datatype Credentials = Credentials(email: string, password: string)

  /**
    The request binding: a well-formed body whose address is present and
    passes the binder's address check, and whose password is present.
  */
  predicate Bound(body: Option<Credentials>, validEmail: string -> bool)
  {
    body.Some? && body.value.email != "" && validEmail(body.value.email) && body.value.password != ""
  }

  /** A reply and the users table after it. */
  datatype Handled = Handled(reply: Reply<TokenPair>, rows: seq<UserRow>)

  /**
    `SignUp`, step by step. The foreign outcomes are parameters: the
    password validator, the hash, the address lookup, the transaction's
    begin, insert and commit, the fresh id, the clock and the token issuer.
  */
  function SignUpSpec(rows: seq<UserRow>, body: Option<Credentials>, validEmail: string -> bool,
                      passwordProblem: (string, string) -> Option<string>, hashed: Option<Hash>, lookupOk: bool,
                      beginOk: bool, newId: Uuid, now: int, createOk: bool,
                      generate: Uuid -> Option<TokenPair>, commitOk: bool): (h: Handled)
    ensures h.reply.Data? ==> h.reply.status == StatusCreated
    ensures !h.reply.Data? ==> h.rows == rows
    ensures !Bound(body, validEmail) ==> h == Handled(Message(StatusBadRequest, "Error while parsing the request data"), rows)
    ensures Bound(body, validEmail) && passwordProblem(body.value.password, ToLower(body.value.email)).Some? ==>
      h == Handled(Message(StatusBadRequest, passwordProblem(body.value.password, ToLower(body.value.email)).value), rows)
    ensures Bound(body, validEmail) && passwordProblem(body.value.password, ToLower(body.value.email)).None?
            && hashed.None? ==>
      h == Handled(Message(StatusInternalServerError, "Something went wrong"), rows)
  {
    if !Bound(body, validEmail) then Handled(Message(StatusBadRequest, "Error while parsing the request data"), rows)
    else
      var params := body.value;
      var email := ToLower(params.email);
      if passwordProblem(params.password, email).Some? then
        Handled(Message(StatusBadRequest, passwordProblem(params.password, email).value), rows)
      else if hashed.None? then Handled(Message(StatusInternalServerError, "Something went wrong"), rows)
      else if lookupOk && FindByEmail(rows, email).Some? then
        Handled(Message(StatusForbidden, "User with this email address already exists"), rows)
      else if !beginOk then Handled(Exit, rows)
      else if !createOk then Handled(Message(StatusInternalServerError, "Something went wrong"), rows)
      else if generate(newId).None? then Handled(Message(StatusInternalServerError, "Something went wrong"), rows)
      else if !commitOk then Handled(Exit, rows)
      else Handled(Data(StatusCreated, "Account created successfully!", generate(newId).value),
                   rows + [UserRow(newId, "", email, hashed.value, now, now)])
  }

  /**
    An account is created exactly when every step succeeds, tokens included:
    then one row is added, with the lower-cased address, the hash, no name
    and equal creation and modification times, and the reply carries the
    tokens issued for its id. In every other case the table is unchanged.
  */
  lemma SignUpCreatesExactlyOnSuccess(rows: seq<UserRow>, body: Option<Credentials>, validEmail: string -> bool,
                                      passwordProblem: (string, string) -> Option<string>, hashed: Option<Hash>,
                                      lookupOk: bool, beginOk: bool, newId: Uuid, now: int, createOk: bool,
                                      generate: Uuid -> Option<TokenPair>, commitOk: bool)
    ensures var h := SignUpSpec(rows, body, validEmail, passwordProblem, hashed, lookupOk, beginOk, newId, now,
                                createOk, generate, commitOk);
      && (h.reply.Data? <==>
            && Bound(body, validEmail) && passwordProblem(body.value.password, ToLower(body.value.email)).None?
            && hashed.Some? && !(lookupOk && FindByEmail(rows, ToLower(body.value.email)).Some?)
            && beginOk && createOk && generate(newId).Some? && commitOk)
      && (h.reply.Data? ==>
            && h.reply.data == generate(newId).value
            && h.rows == rows + [UserRow(newId, "", ToLower(body.value.email), hashed.value, now, now)]
            && h.rows[|rows|].createdAt == h.rows[|rows|].modifiedAt
            && IsLower(h.rows[|rows|].email))
  {
    var h := SignUpSpec(rows, body, validEmail, passwordProblem, hashed, lookupOk, beginOk, newId, now,
                        createOk, generate, commitOk);
    if h.reply.Data? {
      var email := ToLower(body.value.email);
      assert h.rows == rows + [UserRow(newId, "", email, hashed.value, now, now)];
      assert IsLower(email) by { ToLowerIsLower(body.value.email); }
    }
  }

  /** With an answering lookup, a taken address (in any letter case) is refused with 403. */
  lemma SignUpRefusesTakenAddress(rows: seq<UserRow>, creds: Credentials, validEmail: string -> bool,
                                  passwordProblem: (string, string) -> Option<string>, hashed: Option<Hash>,
                                  beginOk: bool, newId: Uuid, now: int, createOk: bool,
                                  generate: Uuid -> Option<TokenPair>, commitOk: bool)
    requires Bound(Some(creds), validEmail) && passwordProblem(creds.password, ToLower(creds.email)).None? && hashed.Some?
    requires exists i :: 0 <= i < |rows| && rows[i].email == ToLower(creds.email)
    ensures SignUpSpec(rows, Some(creds), validEmail, passwordProblem, hashed, true, beginOk, newId, now, createOk,
                       generate, commitOk)
            == Handled(Message(StatusForbidden, "User with this email address already exists"), rows)
  {
  }

  /** With an answering lookup and a fresh id, sign-up keeps addresses lower-case and unique. */
  lemma SignUpKeepsGoodTable(rows: seq<UserRow>, body: Option<Credentials>, validEmail: string -> bool,
                             passwordProblem: (string, string) -> Option<string>, hashed: Option<Hash>,
                             beginOk: bool, newId: Uuid, now: int, createOk: bool,
                             generate: Uuid -> Option<TokenPair>, commitOk: bool)
    requires GoodTable(rows) && FindById(rows, newId).None?
    ensures GoodTable(SignUpSpec(rows, body, validEmail, passwordProblem, hashed, true, beginOk, newId, now, createOk,
                                 generate, commitOk).rows)
  {
    var h := SignUpSpec(rows, body, validEmail, passwordProblem, hashed, true, beginOk, newId, now, createOk,
                        generate, commitOk);
    if h.reply.Data? {
      var email := ToLower(body.value.email);
      ToLowerIsLower(body.value.email);
      AppendKeepsGood(rows, UserRow(newId, "", email, hashed.value, now, now));
    }
  }

  /**
    `SignUp`, proved to behave as `SignUpSpec` says. The deferred rollback
    runs on every path after the transaction began, so once it began
    nothing stays staged.
  */
  method SignUp(db: UserDb, body: Option<Credentials>, validEmail: string -> bool,
                passwordProblem: (string, string) -> Option<string>, hashed: Option<Hash>, lookupOk: bool,
                beginOk: bool, newId: Uuid, now: int, createOk: bool,
                generate: Uuid -> Option<TokenPair>, commitOk: bool)
    returns (reply: Reply<TokenPair>)
    modifies db
    ensures Handled(reply, db.rows) == SignUpSpec(old(db.rows), body, validEmail, passwordProblem, hashed, lookupOk,
                                                  beginOk, newId, now, createOk, generate, commitOk)
    ensures (!db.inTx && db.staged == []) || (db.inTx == old(db.inTx) && db.staged == old(db.staged))
  {
    if !Bound(body, validEmail) {
      return Message(StatusBadRequest, "Error while parsing the request data");
    }
    var params := body.value;
    var email := ToLower(params.email);
    var problem := passwordProblem(params.password, email);
    if problem.Some? {
      return Message(StatusBadRequest, problem.value);
    }
    if hashed.None? {
      return Message(StatusInternalServerError, "Something went wrong");
    }
    var existing := db.GetUserByEmail(email, lookupOk);
    if existing.Some? {
      return Message(StatusForbidden, "User with this email address already exists");
    }
    var ok := db.Begin(beginOk);
    if !ok {
      return Exit;
    }
    var dbUser := db.CreateUser(UserRow(newId, "", email, hashed.value, now, now), createOk);
    if dbUser.None? {
      db.Rollback();
      return Message(StatusInternalServerError, "Something went wrong");
    }
    var tokens := generate(dbUser.value.id);
    if tokens.None? {
      db.Rollback();
      return Message(StatusInternalServerError, "Something went wrong");
    }
    ok := db.Commit(commitOk);
    if !ok {
      db.Rollback();
      return Exit;
    }
    db.Rollback();
    reply := Data(StatusCreated, "Account created successfully!", tokens.value);
  }

  /**
    `Login`: the account is looked up by the lower-cased address; a missing
    account, and a password that does not match its hash, are both 400;
    tokens are issued for that account's id.
  */
  function Login(rows: seq<UserRow>, body: Option<Credentials>, validEmail: string -> bool, lookupOk: bool,
                 matches: (string, Hash) -> bool, generate: Uuid -> Option<TokenPair>): (r: Reply<TokenPair>)
    ensures r.Data? <==>
      && Bound(body, validEmail) && lookupOk && FindByEmail(rows, ToLower(body.value.email)).Some?
      && matches(body.value.password, rows[FindByEmail(rows, ToLower(body.value.email)).value].password)
      && generate(rows[FindByEmail(rows, ToLower(body.value.email)).value].id).Some?
    ensures r.Data? ==>
      var row := rows[FindByEmail(rows, ToLower(body.value.email)).value];
      && row.email == ToLower(body.value.email)
      && r == Data(StatusOK, "Logged in Successfully!", generate(row.id).value)
    ensures !Bound(body, validEmail) ==> r == Message(StatusBadRequest, "Error while parsing the request data")
    ensures Bound(body, validEmail) && (!lookupOk || FindByEmail(rows, ToLower(body.value.email)).None?) ==>
      r == Message(StatusBadRequest, "User does not exists, Please check your credentials")
    ensures Bound(body, validEmail) && lookupOk && FindByEmail(rows, ToLower(body.value.email)).Some?
            && !matches(body.value.password, rows[FindByEmail(rows, ToLower(body.value.email)).value].password) ==>
      r == Message(StatusBadRequest, "Invalid password")
    ensures Bound(body, validEmail) && lookupOk && FindByEmail(rows, ToLower(body.value.email)).Some?
            && matches(body.value.password, rows[FindByEmail(rows, ToLower(body.value.email)).value].password)
            && generate(rows[FindByEmail(rows, ToLower(body.value.email)).value].id).None? ==>
      r == Message(StatusInternalServerError, "Something went wrong")
  {
    if !Bound(body, validEmail) then Message(StatusBadRequest, "Error while parsing the request data")
    else
      var params := body.value;
      var i := FindByEmail(rows, ToLower(params.email));
      if !lookupOk || i.None? then Message(StatusBadRequest, "User does not exists, Please check your credentials")
      else
        var user := rows[i.value];
        if !matches(params.password, user.password) then Message(StatusBadRequest, "Invalid password")
        else match generate(user.id)
          case None => Message(StatusInternalServerError, "Something went wrong")
          case Some(tokens) => Data(StatusOK, "Logged in Successfully!", tokens)
  }

  /**
    Login ignores letter case in the address: an address and its lower-cased
    form get the same answer, given that the binder accepts both or neither.
  */
  lemma LoginIgnoresCase(rows: seq<UserRow>, creds: Credentials, validEmail: string -> bool, lookupOk: bool,
                         matches: (string, Hash) -> bool, generate: Uuid -> Option<TokenPair>)
    requires validEmail(creds.email) == validEmail(ToLower(creds.email))
    ensures Login(rows, Some(creds), validEmail, lookupOk, matches, generate)
            == Login(rows, Some(creds.(email := ToLower(creds.email))), validEmail, lookupOk, matches, generate)
  {
    ToLowerIsLower(creds.email);
    assert |ToLower(creds.email)| == |creds.email|;
  }
}
