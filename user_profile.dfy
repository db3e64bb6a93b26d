/**
  The signed-in user's own account in the user service's HTTP API: read the
  profile, change name and e-mail, change the password.
  The account comes from the request context, where the authentication
  middleware stored it.
*/
module UserProfile {
  import opened Wrappers
  import opened GoStrings
  import opened Http
  import opened Tokens
  import opened UserStore
  import opened UserView
  import opened Gin

  /** `getUserFromCtx`: the account stored under "user", or why there is none. */
  function GetUserFromCtx(keys: map<string, Value<User>>): (r: Result<User, string>)
    ensures "user" !in keys ==> r == Err("authentication required")
    ensures "user" in keys && !keys["user"].UserValue? ==> r == Err("invalid user")
    ensures r.Ok? <==> "user" in keys && keys["user"].UserValue?
    ensures r.Ok? ==> keys["user"] == UserValue(r.value)
  {
    if "user" !in keys then Err("authentication required")
    else match keys["user"]
      case UserValue(u) => Ok(u)
      case OtherValue(_) => Err("invalid user")
  }

  /** `getUserProfile`: the account from the context, or 403 with the reason. */
  function GetUserProfile(keys: map<string, Value<User>>): (r: Reply<User>)
    ensures r.Data? <==> GetUserFromCtx(keys).Ok?
    ensures r.Data? ==> r.status == StatusOK && r.data == GetUserFromCtx(keys).value
    ensures r.Message? ==> r == Message(StatusForbidden, GetUserFromCtx(keys).error)
  {
    match GetUserFromCtx(keys)
    case Err(e) => Message(StatusForbidden, e)
    case Ok(u) => Data(StatusOK, "", u)
  }

  // ---------------------------------------------------------------------
  // Profile update

  /** The request body of a profile update; either field may be "" (not given). */
  datatype ProfileParams = ProfileParams(email: string, name: string)

  /** A handler's reply together with the users table after it. */
  datatype Handled = Handled(reply: Reply<User>, rows: seq<UserRow>)

  /**
    `updateUserProfile`, step by step: the context user; the body; at least
    one field; blanks filled from the current account; the validator on the
    address as given; the uniqueness lookup, only for a changed address;
    the update, whose failure ends the process.
  */
  function UpdateProfileSpec(rows: seq<UserRow>, keys: map<string, Value<User>>, body: Option<ProfileParams>,
                             validEmail: string -> bool, lookupOk: bool, now: int, updateOk: bool): (h: Handled)
    ensures h.reply.Data? ==> h.reply.status == StatusOK
    ensures !h.reply.Data? ==> h.rows == rows
    ensures GetUserFromCtx(keys).Err? ==> h == Handled(Message(StatusForbidden, GetUserFromCtx(keys).error), rows)
    ensures GetUserFromCtx(keys).Ok? && body.None? ==>
      h == Handled(Message(StatusBadRequest, "Error while parsing the request data"), rows)
    ensures GetUserFromCtx(keys).Ok? && body.Some? && (body.value.name != "" || body.value.email != "")
            && !validEmail(if body.value.email == "" then GetUserFromCtx(keys).value.email else body.value.email) ==>
      h == Handled(Message(StatusBadRequest, "Invalid email address"), rows)
  {
    match GetUserFromCtx(keys)
    case Err(e) => Handled(Message(StatusForbidden, e), rows)
    case Ok(user) =>
      if body.None? then Handled(Message(StatusBadRequest, "Error while parsing the request data"), rows)
      else
        var params := body.value;
        if params.name == "" && params.email == "" then Handled(Message(StatusBadRequest, "Invalid request data"), rows)
        else
          var name := if params.name == "" then user.name else params.name;
          var isEmailChanged := params.email != "";
          var given := if params.email == "" then user.email else params.email;
          var email := ToLower(given);
          if !validEmail(given) then Handled(Message(StatusBadRequest, "Invalid email address"), rows)
          else if isEmailChanged && email != user.email && lookupOk && FindByEmail(rows, email).Some? then
            Handled(Message(StatusInternalServerError, "User with this email address already exists"), rows)
          else
            var i := FindById(rows, user.id);
            if !updateOk || i.None? then Handled(Exit, rows)
            else
              var row := rows[i.value].(name := name, email := email, modifiedAt := now);
              Handled(Data(StatusOK, "Profile details updated successfully!", DatabaseUserToUser(row)),
                      rows[i.value := row])
  }

  /**
    A request with neither field is refused with 400 before the table is
    consulted: the reply is the same whatever the table holds, and the
    table is unchanged.
  */
  lemma EmptyUpdateTouchesNothing(rows1: seq<UserRow>, rows2: seq<UserRow>, keys: map<string, Value<User>>,
                                  validEmail: string -> bool, lookupOk: bool, now: int, updateOk: bool)
    requires GetUserFromCtx(keys).Ok?
    ensures var h1 := UpdateProfileSpec(rows1, keys, Some(ProfileParams("", "")), validEmail, lookupOk, now, updateOk);
      var h2 := UpdateProfileSpec(rows2, keys, Some(ProfileParams("", "")), validEmail, lookupOk, now, updateOk);
      && h1.reply == Message(StatusBadRequest, "Invalid request data")
      && h1.reply == h2.reply && h1.rows == rows1
  {
  }

  /**
    A successful update changes only the signed-in account's row: its name
    is the one given (or kept when blank), its address is the lower-cased
    one given (or kept when blank), and the reply shows that row.
  */
  lemma UpdateWritesOwnRow(rows: seq<UserRow>, keys: map<string, Value<User>>, params: ProfileParams,
                           validEmail: string -> bool, lookupOk: bool, now: int, updateOk: bool)
    requires UpdateProfileSpec(rows, keys, Some(params), validEmail, lookupOk, now, updateOk).reply.Data?
    ensures var user := GetUserFromCtx(keys).value;
      var h := UpdateProfileSpec(rows, keys, Some(params), validEmail, lookupOk, now, updateOk);
      && FindById(rows, user.id).Some?
      && var i := FindById(rows, user.id).value;
      && |h.rows| == |rows|
      && (forall j :: 0 <= j < |rows| && j != i ==> h.rows[j] == rows[j])
      && h.rows[i].id == rows[i].id && h.rows[i].password == rows[i].password
      && h.rows[i].name == (if params.name == "" then user.name else params.name)
      && h.rows[i].email == ToLower(if params.email == "" then user.email else params.email)
      && validEmail(if params.email == "" then user.email else params.email)
      && h.reply.data == DatabaseUserToUser(h.rows[i])
  {
  }

  /**
    A changed address already held by a stored account is refused with 500
    before any write, whoever holds it.
  */
  lemma UpdateRefusesTakenAddress(rows: seq<UserRow>, keys: map<string, Value<User>>, params: ProfileParams,
                                  validEmail: string -> bool, now: int, updateOk: bool)
    requires GetUserFromCtx(keys).Ok?
    requires params.email != "" && validEmail(params.email)
    requires ToLower(params.email) != GetUserFromCtx(keys).value.email
    requires FindByEmail(rows, ToLower(params.email)).Some?
    ensures UpdateProfileSpec(rows, keys, Some(params), validEmail, true, now, updateOk)
            == Handled(Message(StatusInternalServerError, "User with this email address already exists"), rows)
  {
  }

  /**
    With no address given, the uniqueness lookup is skipped: the outcome is
    the same whether or not it would have answered.
  */
  lemma UnchangedAddressSkipsLookup(rows: seq<UserRow>, keys: map<string, Value<User>>, params: ProfileParams,
                                    validEmail: string -> bool, now: int, updateOk: bool)
    requires params.email == ""
    ensures UpdateProfileSpec(rows, keys, Some(params), validEmail, true, now, updateOk)
            == UpdateProfileSpec(rows, keys, Some(params), validEmail, false, now, updateOk)
  {
  }

  /**
    When the context holds the account as stored and the uniqueness lookup
    gets an answer, an update keeps every address lower-case and unique.
  */
  lemma UpdateKeepsGoodTable(rows: seq<UserRow>, keys: map<string, Value<User>>, body: Option<ProfileParams>,
                             validEmail: string -> bool, now: int, updateOk: bool)
    requires GoodTable(rows)
    requires GetUserFromCtx(keys).Ok?
    requires var u := GetUserFromCtx(keys).value;
      FindById(rows, u.id).Some? && DatabaseUserToUser(rows[FindById(rows, u.id).value]) == u
    ensures GoodTable(UpdateProfileSpec(rows, keys, body, validEmail, true, now, updateOk).rows)
  {
    var h := UpdateProfileSpec(rows, keys, body, validEmail, true, now, updateOk);
    if h.reply.Data? {
      var u := GetUserFromCtx(keys).value;
      var i := FindById(rows, u.id).value;
      var params := body.value;
      var given := if params.email == "" then u.email else params.email;
      ToLowerIsLower(given);
      ToLowerIsLower(u.email);
      var row := rows[i].(name := if params.name == "" then u.name else params.name,
                          email := ToLower(given), modifiedAt := now);
      assert h.rows == rows[i := row];
      ReplaceKeepsGood(rows, i, row);
    }
  }

  /** `updateUserProfile`, proved to behave as `UpdateProfileSpec` says. */
  method UpdateUserProfile(db: UserDb, keys: map<string, Value<User>>, body: Option<ProfileParams>,
                           validEmail: string -> bool, lookupOk: bool, now: int, updateOk: bool)
    returns (reply: Reply<User>)
    modifies db
    ensures Handled(reply, db.rows) == UpdateProfileSpec(old(db.rows), keys, body, validEmail, lookupOk, now, updateOk)
    ensures db.staged == old(db.staged) && db.inTx == old(db.inTx)
  {
    var user := GetUserFromCtx(keys);
    if user.Err? {
      return Message(StatusForbidden, user.error);
    }
    if body.None? {
      return Message(StatusBadRequest, "Error while parsing the request data");
    }
    var params := body.value;
    if params.name == "" && params.email == "" {
      return Message(StatusBadRequest, "Invalid request data");
    }
    if params.name == "" {
      params := params.(name := user.value.name);
    }
    var isEmailChanged := true;
    if params.email == "" {
      params := params.(email := user.value.email);
      isEmailChanged := false;
    }
    var email := ToLower(params.email);
    if !validEmail(params.email) {
      return Message(StatusBadRequest, "Invalid email address");
    }
    if isEmailChanged && email != user.value.email {
      var existing := db.GetUserByEmail(email, lookupOk);
      if existing.Some? {
        return Message(StatusInternalServerError, "User with this email address already exists");
      }
    }
    var dbUser := db.UpdateUserDetails(user.value.id, params.name, email, now, updateOk);
    if dbUser.None? {
      return Exit;
    }
    reply := Data(StatusOK, "Profile details updated successfully!", DatabaseUserToUser(dbUser.value));
  }

  // ---------------------------------------------------------------------
  // Password change

  /** The request body of a password change; both fields are required (non-empty). */
  datatype PasswordParams = PasswordParams(oldPassword: string, newPassword: string)

  /**
    `changePassword`, step by step: the context user; the body; the stored
    account (its absence ends the process); the old password; old and new
    must differ; the validator on the new password and the stored address;
    the hash; the update, whose failure ends the process.
  */
  function ChangePasswordSpec(rows: seq<UserRow>, keys: map<string, Value<User>>, body: Option<PasswordParams>,
                              lookupOk: bool, matches: (string, Hash) -> bool,
                              passwordProblem: (string, string) -> Option<string>,
                              hashed: Option<Hash>, now: int, updateOk: bool): (h: Handled)
    ensures !(h.reply.Message? && h.reply.status == StatusOK) ==> h.rows == rows
    ensures GetUserFromCtx(keys).Err? ==> h == Handled(Message(StatusForbidden, GetUserFromCtx(keys).error), rows)
    ensures GetUserFromCtx(keys).Ok? && (body.None? || body.value.oldPassword == "" || body.value.newPassword == "") ==>
      h == Handled(Message(StatusBadRequest, "Error while parsing the request data"), rows)
    ensures GetUserFromCtx(keys).Ok? && body.Some? && body.value.oldPassword != "" && body.value.newPassword != ""
            && (!lookupOk || FindById(rows, GetUserFromCtx(keys).value.id).None?) ==>
      h == Handled(Exit, rows)
    ensures GetUserFromCtx(keys).Ok? && body.Some? && body.value.oldPassword != "" && body.value.newPassword != ""
            && lookupOk && FindById(rows, GetUserFromCtx(keys).value.id).Some?
            && !matches(body.value.oldPassword, rows[FindById(rows, GetUserFromCtx(keys).value.id).value].password) ==>
      h == Handled(Message(StatusBadRequest, "Invalid old password, Please try again."), rows)
    ensures GetUserFromCtx(keys).Ok? && body.Some? && body.value.oldPassword != "" && body.value.newPassword != ""
            && lookupOk && FindById(rows, GetUserFromCtx(keys).value.id).Some?
            && matches(body.value.oldPassword, rows[FindById(rows, GetUserFromCtx(keys).value.id).value].password)
            && body.value.oldPassword == body.value.newPassword ==>
      h == Handled(Message(StatusBadRequest, "New password should not be same as old password"), rows)
  {
    match GetUserFromCtx(keys)
    case Err(e) => Handled(Message(StatusForbidden, e), rows)
    case Ok(user) =>
      if body.None? || body.value.oldPassword == "" || body.value.newPassword == "" then
        Handled(Message(StatusBadRequest, "Error while parsing the request data"), rows)
      else
        var params := body.value;
        var i := FindById(rows, user.id);
        if !lookupOk || i.None? then Handled(Exit, rows)
        else
          var dbUser := rows[i.value];
          if !matches(params.oldPassword, dbUser.password) then
            Handled(Message(StatusBadRequest, "Invalid old password, Please try again."), rows)
          else if params.oldPassword == params.newPassword then
            Handled(Message(StatusBadRequest, "New password should not be same as old password"), rows)
          else if passwordProblem(params.newPassword, dbUser.email).Some? then
            Handled(Message(StatusBadRequest, passwordProblem(params.newPassword, dbUser.email).value), rows)
          else if hashed.None? then
            Handled(Message(StatusBadRequest, "Something went wrong"), rows)
          else if !updateOk then Handled(Exit, rows)
          else Handled(Message(StatusOK, "Password changed successfully!"),
                       rows[i.value := dbUser.(password := hashed.value, modifiedAt := now)])
  }

  /**
    The password changes only when the old one matches the stored hash, the
    new one differs from it and passes the validator for the stored address;
    then only that account's hash and modification time change.
  */
  lemma PasswordChangeRules(rows: seq<UserRow>, keys: map<string, Value<User>>, params: PasswordParams,
                            lookupOk: bool, matches: (string, Hash) -> bool,
                            passwordProblem: (string, string) -> Option<string>,
                            hashed: Option<Hash>, now: int, updateOk: bool)
    requires ChangePasswordSpec(rows, keys, Some(params), lookupOk, matches, passwordProblem, hashed, now, updateOk).reply
             == Message(StatusOK, "Password changed successfully!")
    ensures var user := GetUserFromCtx(keys).value;
      var h := ChangePasswordSpec(rows, keys, Some(params), lookupOk, matches, passwordProblem, hashed, now, updateOk);
      && FindById(rows, user.id).Some?
      && var i := FindById(rows, user.id).value;
      && matches(params.oldPassword, rows[i].password)
      && params.oldPassword != params.newPassword
      && passwordProblem(params.newPassword, rows[i].email).None?
      && h.rows == rows[i := rows[i].(password := hashed.value, modifiedAt := now)]
  {
  }

  /** `changePassword`, proved to behave as `ChangePasswordSpec` says. */
  method ChangePassword(db: UserDb, keys: map<string, Value<User>>, body: Option<PasswordParams>,
                        lookupOk: bool, matches: (string, Hash) -> bool,
                        passwordProblem: (string, string) -> Option<string>,
                        hashed: Option<Hash>, now: int, updateOk: bool)
    returns (reply: Reply<User>)
    modifies db
    ensures Handled(reply, db.rows) ==
      ChangePasswordSpec(old(db.rows), keys, body, lookupOk, matches, passwordProblem, hashed, now, updateOk)
  {
    var user := GetUserFromCtx(keys);
    if user.Err? {
      return Message(StatusForbidden, user.error);
    }
    if body.None? || body.value.oldPassword == "" || body.value.newPassword == "" {
      return Message(StatusBadRequest, "Error while parsing the request data");
    }
    var params := body.value;
    var dbUser := db.GetUserById(user.value.id, lookupOk);
    if dbUser.None? {
      return Exit;
    }
    if !matches(params.oldPassword, dbUser.value.password) {
      return Message(StatusBadRequest, "Invalid old password, Please try again.");
    }
    if params.oldPassword == params.newPassword {
      return Message(StatusBadRequest, "New password should not be same as old password");
    }
    var problem := passwordProblem(params.newPassword, dbUser.value.email);
    if problem.Some? {
      return Message(StatusBadRequest, problem.value);
    }
    if hashed.None? {
      return Message(StatusBadRequest, "Something went wrong");
    }
    var ok := db.UpdateUserPassword(dbUser.value.id, hashed.value, now, updateOk);
    if !ok {
      return Exit;
    }
    reply := Message(StatusOK, "Password changed successfully!");
  }
}
