/**
 * The statements over the `users` table: the lookup by id, the profile update
 * of dao/user_dao.go and the registration insert of dao/auth_dao.go.
 */
module UserTable {
  import opened Wrappers
  import opened Relational
  import opened Sql
  import opened Schema
  import opened Model

  /** `SELECT ... FROM users WHERE user_id = ?` read with QueryRow. */
  function UserById(users: seq<UserRow>, id: string): (r: Option<UserRow>)
    ensures r.None? <==> forall x :: x in users ==> x.userId != id
    ensures r.Some? ==> r.value in users && r.value.userId == id
  {
    FirstWhere(users, (x: UserRow) => x.userId == id)
  }

  /** `UPDATE users SET name = ?, bio = ?, profile_img_url = ? WHERE
      user_id = ?`. Go strings are bound, so the bio and image are stored as
      values (an empty string included), never as NULL. No other column or
      row changes, and the id itself is kept. */
  function UpdateUserRows(users: seq<UserRow>, u: User): (r: seq<UserRow>)
    ensures |r| == |users|
    ensures forall i :: 0 <= i < |users| && users[i].userId == u.userId ==>
      r[i] == users[i].(name := u.name, bio := Some(u.bio), profileImgUrl := Some(u.profileImgUrl))
    ensures forall i :: 0 <= i < |users| && users[i].userId != u.userId ==> r[i] == users[i]
  {
    UpdateWhere(users, (x: UserRow) => x.userId == u.userId,
                (x: UserRow) => x.(name := u.name, bio := Some(u.bio), profileImgUrl := Some(u.profileImgUrl)))
  }

  /** What GetUser answers: the store's error, including sql.ErrNoRows for an
      unknown id, or the first row with the id. */
  function GetUserResult(users: seq<UserRow>, id: string, failure: Option<nat>): (r: Result<UserCard>)
    ensures failure.Some? ==> r == Err(DbError(failure.value))
    ensures failure.None? && UserById(users, id).None? ==> r == Err(NoRows)
    ensures r.Ok? <==> failure.None? && UserById(users, id).Some?
    ensures r.Ok? ==> r.value == CardOf(UserById(users, id).value)
  {
    if failure.Some? then Err(DbError(failure.value))
    else match UserById(users, id)
      case None => Err(NoRows)
      case Some(row) => Ok(CardOf(row))
  }

  /** Updating a registered user and reading them back gives the new name,
      bio and profile image under the same id. */
  lemma UpdateThenGet(users: seq<UserRow>, u: User)
    requires UserById(users, u.userId).Some?
    ensures GetUserResult(UpdateUserRows(users, u), u.userId, None) ==
      Ok(UserCard(u.userId, u.name, Some(u.bio), Some(u.profileImgUrl), None))
  {
    var after := UpdateUserRows(users, u);
    var k :| 0 <= k < |users| && users[k] == UserById(users, u.userId).value &&
             forall j :: 0 <= j < k ==> users[j].userId != u.userId;
    assert forall j :: 0 <= j < k ==> after[j] == users[j];
    assert after[k].userId == u.userId;
    var found := UserById(after, u.userId);
    var m :| 0 <= m < |after| && after[m] == found.value && forall j :: 0 <= j < m ==> after[j].userId != u.userId;
    assert m == k;
  }

  /** Updating an id with no row leaves the table unchanged. */
  lemma UpdateUnknownUser(users: seq<UserRow>, u: User)
    requires UserById(users, u.userId).None?
    ensures UpdateUserRows(users, u) == users
  {
    UpdateNoMatch(users, (x: UserRow) => x.userId == u.userId,
                  (x: UserRow) => x.(name := u.name, bio := Some(u.bio), profileImgUrl := Some(u.profileImgUrl)));
  }

  /** `INSERT INTO users (user_id, name, bio, profile_img_url)`: the row for
      `u`; `header_img_url` is NULL and `created_at` is the time of the insert. */
  function NewUserRow(u: User, t: nat): (r: UserRow)
    ensures r.userId == u.userId && r.name == u.name && r.bio == Some(u.bio) && r.profileImgUrl == Some(u.profileImgUrl)
    ensures r.headerImgUrl.None? && r.createdAt == t
  {
    UserRow(u.userId, u.name, Some(u.bio), Some(u.profileImgUrl), None, t)
  }

  /** Registering a new id and reading it back gives the registered name,
      bio and profile image. */
  lemma RegisterThenGet(users: seq<UserRow>, u: User, t: nat)
    requires UserById(users, u.userId).None?
    ensures GetUserResult(users + [NewUserRow(u, t)], u.userId, None) ==
      Ok(UserCard(u.userId, u.name, Some(u.bio), Some(u.profileImgUrl), None))
  {
    FirstWhereUnique(users + [NewUserRow(u, t)], (x: UserRow) => x.userId == u.userId, NewUserRow(u, t));
  }
}
