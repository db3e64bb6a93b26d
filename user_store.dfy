/**
  The users table as the user services see it through their generated
  queries: one row per account, looked up by id or by e-mail address. Each
  query is one atomic step that may fail; account creation goes through a
  transaction whose inserts only become visible on commit.
*/
module UserStore {
  import opened Wrappers
  import opened GoStrings
  import opened Tokens

  type Hash = string

  /** A row of the users table. `name` is "" when the column is NULL. */
  datatype UserRow = UserRow(
    id: Uuid,
    name: string,
    email: string,
    password: Hash,
    createdAt: int,
    modifiedAt: int)

  /** Position of the row with this e-mail address, if any (the first, should there be several). */
  function FindByEmail(rows: seq<UserRow>, email: string): (r: Option<nat>)
    ensures r.Some? ==> r.value < |rows| && rows[r.value].email == email
    ensures r.None? <==> forall i :: 0 <= i < |rows| ==> rows[i].email != email
  {
    if |rows| == 0 then None
    else if rows[0].email == email then Some(0)
    else match FindByEmail(rows[1..], email)
      case None => None
      case Some(i) => Some(i + 1)
  }

  /** Position of the row with this id, if any. */
  function FindById(rows: seq<UserRow>, id: Uuid): (r: Option<nat>)
    ensures r.Some? ==> r.value < |rows| && rows[r.value].id == id
    ensures r.None? <==> forall i :: 0 <= i < |rows| ==> rows[i].id != id
  {
    if |rows| == 0 then None
    else if rows[0].id == id then Some(0)
    else match FindById(rows[1..], id)
      case None => None
      case Some(i) => Some(i + 1)
  }

  /** Every stored address is lower-case. */
  predicate LowerEmails(rows: seq<UserRow>)
  {
    forall i :: 0 <= i < |rows| ==> IsLower(rows[i].email)
  }

  /** No two accounts share an address. */
  predicate UniqueEmails(rows: seq<UserRow>)
  {
    forall i, j :: 0 <= i < j < |rows| ==> rows[i].email != rows[j].email
  }

  /** No two accounts share an id. */
  predicate UniqueIds(rows: seq<UserRow>)
  {
    forall i, j :: 0 <= i < j < |rows| ==> rows[i].id != rows[j].id
  }

  /** The table invariant the account rules aim to keep. */
  predicate GoodTable(rows: seq<UserRow>)
  {
    LowerEmails(rows) && UniqueEmails(rows) && UniqueIds(rows)
  }

  /** Appending an account whose address and id are new keeps the invariant. */
  lemma AppendKeepsGood(rows: seq<UserRow>, row: UserRow)
    requires GoodTable(rows) && IsLower(row.email)
    requires FindByEmail(rows, row.email).None? && FindById(rows, row.id).None?
    ensures GoodTable(rows + [row])
  {
  }

  /**
    Replacing the row at `i` by one with the same id and an address that is
    lower-case and either its own or free keeps the invariant.
  */
  lemma ReplaceKeepsGood(rows: seq<UserRow>, i: nat, row: UserRow)
    requires GoodTable(rows) && i < |rows| && row.id == rows[i].id && IsLower(row.email)
    requires row.email == rows[i].email || FindByEmail(rows, row.email).None?
    ensures GoodTable(rows[i := row])
  {
  }

  /** The database connection: committed rows, and the inserts of an open transaction. */
  class UserDb {
    var rows: seq<UserRow>
    var staged: seq<UserRow>
    var inTx: bool

    constructor (rows: seq<UserRow>)
      ensures this.rows == rows && staged == [] && !inTx
    {
      this.rows := rows;
      staged := [];
      inTx := false;
    }

    /** `GetUserByEmailDB`: the row, or an error when it is missing or the query fails. */
    method GetUserByEmail(email: string, reached: bool) returns (u: Option<UserRow>)
      ensures u.Some? <==> reached && FindByEmail(rows, email).Some?
      ensures u.Some? ==> u.value == rows[FindByEmail(rows, email).value]
    {
      var i := FindByEmail(rows, email);
      u := if reached && i.Some? then Some(rows[i.value]) else None;
    }

    /** `GetUserByIDFromDB`: the row, or an error when it is missing or the query fails. */
    method GetUserById(id: Uuid, reached: bool) returns (u: Option<UserRow>)
      ensures u.Some? <==> reached && FindById(rows, id).Some?
      ensures u.Some? ==> u.value == rows[FindById(rows, id).value]
    {
      var i := FindById(rows, id);
      u := if reached && i.Some? then Some(rows[i.value]) else None;
    }

    /**
      `UpdateUserDetailDB`: in its own transaction, sets name, e-mail and
      modification time of the row with this id and returns the new row;
      a missing row or a failed query changes nothing.
    */
    method UpdateUserDetails(id: Uuid, name: string, email: string, modifiedAt: int, succeeds: bool)
      returns (u: Option<UserRow>)
      modifies this
      ensures staged == old(staged) && inTx == old(inTx)
      ensures u.Some? <==> succeeds && FindById(old(rows), id).Some?
      ensures u.None? ==> rows == old(rows)
      ensures u.Some? ==>
        var i := FindById(old(rows), id).value;
        && u.value == old(rows)[i].(name := name, email := email, modifiedAt := modifiedAt)
        && rows == old(rows)[i := u.value]
    {
      var i := FindById(rows, id);
      if !succeeds || i.None? {
        return None;
      }
      var row := rows[i.value].(name := name, email := email, modifiedAt := modifiedAt);
      rows := rows[i.value := row];
      u := Some(row);
    }

    /**
      `UpdateUserPasswordDB`: in its own transaction, sets the password hash
      and modification time of the row with this id. Updating no row is not
      an error.
    */
    method UpdateUserPassword(id: Uuid, password: Hash, modifiedAt: int, succeeds: bool)
      returns (ok: bool)
      modifies this
      ensures ok == succeeds && staged == old(staged) && inTx == old(inTx)
      ensures rows == if succeeds && FindById(old(rows), id).Some?
                      then old(rows)[FindById(old(rows), id).value :=
                             old(rows)[FindById(old(rows), id).value].(password := password, modifiedAt := modifiedAt)]
                      else old(rows)
    {
      var i := FindById(rows, id);
      if succeeds && i.Some? {
        rows := rows[i.value := rows[i.value].(password := password, modifiedAt := modifiedAt)];
      }
      ok := succeeds;
    }

    /** `DB.Begin`: opens a fresh transaction with nothing staged. */
    method Begin(succeeds: bool) returns (ok: bool)
      modifies this
      ensures ok == succeeds && inTx == succeeds && staged == [] && rows == old(rows)
    {
      inTx := succeeds;
      staged := [];
      ok := succeeds;
    }

    /** `qtx.CreateUser` inside the open transaction: the row is staged, not yet visible. */
    method CreateUser(row: UserRow, succeeds: bool) returns (u: Option<UserRow>)
      requires inTx
      modifies this
      ensures u == if succeeds then Some(row) else None
      ensures rows == old(rows) && inTx
      ensures staged == if succeeds then old(staged) + [row] else old(staged)
    {
      if succeeds {
        staged := staged + [row];
        return Some(row);
      }
      return None;
    }

    /** `tx.Commit`: the staged rows become visible together, or not at all. */
    method Commit(succeeds: bool) returns (ok: bool)
      requires inTx
      modifies this
      ensures ok == succeeds && !inTx && staged == []
      ensures rows == if succeeds then old(rows) + old(staged) else old(rows)
    {
      if succeeds {
        rows := rows + staged;
      }
      staged := [];
      inTx := false;
      ok := succeeds;
    }

    /** `tx.Rollback` (deferred): discards whatever is still staged; a no-op after a commit. */
    method Rollback()
      modifies this
      ensures rows == old(rows) && staged == [] && !inTx
    {
      staged := [];
      inTx := false;
    }
  }
}
