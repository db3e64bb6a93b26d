/** The account as the user service's HTTP API shows it: id, name and e-mail, nothing else. */
module UserView {
  import opened Tokens
  import opened UserStore

  datatype User = User(id: Uuid, name: string, email: string)

  /** `databaseUserToUser`: the three public columns; the password hash and timestamps are dropped. */
  function DatabaseUserToUser(row: UserRow): (u: User)
    ensures u.id == row.id && u.name == row.name && u.email == row.email
  {
    User(row.id, row.name, row.email)
  }
}
