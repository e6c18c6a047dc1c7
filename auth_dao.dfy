/** dao/auth_dao.go: registration inserts one users row. The same statement
    is issued by dao/auth/users_dao.go. */
module AuthDao {
  import opened Wrappers
  import opened Sql
  import opened Schema
  import opened Model
  import opened UserTable

  class AuthDAO {
    const db: Store

    constructor (db: Store)
      ensures this.db == db
    {
      this.db := db;
    }

    /** RegisterUser: appends the row for `user`, stamped by the store with
        the current time; the store's error comes back unchanged. */
    method RegisterUser(user: User, failure: Option<nat>) returns (err: Option<Error>)
      modifies db`users, db`clock
      ensures db.clock == old(db.clock) + 1
      ensures err == ExecError(failure)
      ensures failure.Some? ==> db.users == old(db.users)
      ensures failure.None? ==> db.users == old(db.users) + [NewUserRow(user, old(db.clock))]
    {
      var now := db.Now();
      err := ExecError(failure);
      if err.None? {
        db.users := db.users + [NewUserRow(user, now)];
      }
    }
  }
}
