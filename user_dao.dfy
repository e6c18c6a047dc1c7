/** dao/user_dao.go: a user's profile, read and updated. */
module UserDao {
  import opened Wrappers
  import opened Sql
  import opened Schema
  import opened Model
  import opened UserTable

  class UserDAO {
    const db: Store

    constructor (db: Store)
      ensures this.db == db
    {
      this.db := db;
    }

    /** GetUser: the user's id, name, bio and profile image, or the store's
        error as is (sql.ErrNoRows for an unknown id). */
    method GetUser(userId: string, failure: Option<nat>) returns (r: Result<UserCard>)
      ensures r == GetUserResult(db.users, userId, failure)
    {
      if failure.Some? {
        return Err(DbError(failure.value));
      }
      var row := UserById(db.users, userId);
      if row.None? {
        return Err(NoRows);
      }
      return Ok(CardOf(row.value));
    }

    /** UpdateUser: rewrites name, bio and profile image of the rows with the
        user's id; the store's error comes back unchanged. */
    method UpdateUser(user: User, failure: Option<nat>) returns (err: Option<Error>)
      modifies db`users
      ensures err == ExecError(failure)
      ensures failure.Some? ==> db.users == old(db.users)
      ensures failure.None? ==> db.users == UpdateUserRows(old(db.users), user)
    {
      err := ExecError(failure);
      if err.None? {
        db.users := UpdateUserRows(db.users, user);
      }
    }
  }
}
