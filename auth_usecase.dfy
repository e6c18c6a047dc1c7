/** usecase/auth_usecase.go: registration checks in front of the auth DAO. */
module AuthUsecase {
  import opened Wrappers
  import opened Sql
  import opened Schema
  import opened Model
  import opened GoStrings
  import opened UserTable
  import opened AuthDao

  const MissingUserIdMessage: string := "user_id が無効: 必須項目"
  const BadNameMessage: string := "名前が無効: 必須項目で50文字以内である必要がある"
  const BadBioMessage: string := "自己紹介が無効: 160文字以内である必要がある"

  /** The checks RegisterUser runs, in order: id, then name (1 to 50 bytes),
      then bio (at most 160 bytes). */
  function RegistrationCheck(userId: string, name: string, bio: string): (e: Option<Error>)
    ensures e.None? <==> userId != "" && name != "" && Utf8Len(name) <= 50 && Utf8Len(bio) <= 160
    ensures userId == "" ==> e == Some(Message(MissingUserIdMessage))
    ensures userId != "" && (name == "" || Utf8Len(name) > 50) ==> e == Some(Message(BadNameMessage))
    ensures userId != "" && name != "" && Utf8Len(name) <= 50 && Utf8Len(bio) > 160 ==> e == Some(Message(BadBioMessage))
  {
    if userId == "" then Some(Message(MissingUserIdMessage))
    else if name == "" || Utf8Len(name) > 50 then Some(Message(BadNameMessage))
    else if Utf8Len(bio) > 160 then Some(Message(BadBioMessage))
    else None
  }

  class AuthUseCase {
    const authDao: AuthDAO

    constructor (authDao: AuthDAO)
      ensures this.authDao == authDao
    {
      this.authDao := authDao;
    }

    /** RegisterUser: a failed check returns "" and its error without touching
        the store; otherwise the user is inserted, and the result is the given
        id, or "" and the store's error. */
    method RegisterUser(userId: string, name: string, bio: string, profileImgUrl: string, failure: Option<nat>) returns (r: IdResult)
      modifies authDao.db`users, authDao.db`clock
      ensures RegistrationCheck(userId, name, bio).Some? ==>
        r == IdResult("", RegistrationCheck(userId, name, bio)) && unchanged(authDao.db)
      ensures RegistrationCheck(userId, name, bio).None? && failure.Some? ==>
        r == IdResult("", Some(DbError(failure.value))) && authDao.db.users == old(authDao.db.users)
      ensures RegistrationCheck(userId, name, bio).None? && failure.None? ==>
        r == IdResult(userId, None) &&
        authDao.db.users == old(authDao.db.users) + [NewUserRow(User(userId, name, bio, profileImgUrl), old(authDao.db.clock))]
    {
      var e := RegistrationCheck(userId, name, bio);
      if e.Some? {
        return IdResult("", e);
      }
      var user := User(userId, name, bio, profileImgUrl);
      var err := authDao.RegisterUser(user, failure);
      if err.Some? {
        return IdResult("", err);
      }
      return IdResult(user.userId, None);
    }
  }
}
