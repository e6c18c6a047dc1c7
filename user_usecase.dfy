/** usecase/user_usecase.go: the checks in front of the user DAO. The limits
    are on Go's `len`, the number of UTF-8 bytes. */
module UserUsecase {
  import opened Wrappers
  import opened Sql
  import opened Schema
  import opened Model
  import opened GoStrings
  import opened UserTable
  import opened UserDao

  const InvalidUserIdMessage: string := "user_id が無効です"
  const InvalidNameMessage: string := "名前が無効です"
  const InvalidBioMessage: string := "自己紹介が無効です"

  const MaxNameBytes: nat := 50
  const MaxBioBytes: nat := 160

  /** The check GetUser and GetUpdatedUser run: the id must not be empty. */
  function UserIdCheck(userId: string): (e: Option<Error>)
    ensures e.None? <==> userId != ""
    ensures e.Some? ==> e.value == Message(InvalidUserIdMessage)
  {
    if userId == "" then Some(Message(InvalidUserIdMessage)) else None
  }

  /** The checks UpdateProfile runs, in order: id, then name, then bio. The
      first one that fails decides the error. */
  function ProfileCheck(user: User): (e: Option<Error>)
    ensures e.None? <==> user.userId != "" && user.name != "" && Utf8Len(user.name) <= MaxNameBytes && Utf8Len(user.bio) <= MaxBioBytes
    ensures user.userId == "" ==> e == Some(Message(InvalidUserIdMessage))
    ensures user.userId != "" && (user.name == "" || Utf8Len(user.name) > MaxNameBytes) ==> e == Some(Message(InvalidNameMessage))
    ensures user.userId != "" && user.name != "" && Utf8Len(user.name) <= MaxNameBytes && Utf8Len(user.bio) > MaxBioBytes ==>
      e == Some(Message(InvalidBioMessage))
  {
    if user.userId == "" then Some(Message(InvalidUserIdMessage))
    else if user.name == "" || Utf8Len(user.name) > MaxNameBytes then Some(Message(InvalidNameMessage))
    else if Utf8Len(user.bio) > MaxBioBytes then Some(Message(InvalidBioMessage))
    else None
  }

  /** The name limit counts bytes: a name of seventeen kana or kanji (51
      bytes) is refused although it has far fewer than fifty characters,
      while fifty ASCII characters pass. */
  lemma NameLimitCountsBytes(user: User)
    requires user.userId != "" && Utf8Len(user.bio) <= MaxBioBytes
    requires |user.name| == 17 && forall i :: 0 <= i < |user.name| ==> 0x800 <= (user.name[i] as int) < 0x10000
    ensures ProfileCheck(user) == Some(Message(InvalidNameMessage))
  {
    Utf8LenThreeByte(user.name);
  }

  /** An ASCII name of one to fifty characters passes the name check. */
  lemma AsciiNameWithinLimit(user: User)
    requires user.userId != "" && Utf8Len(user.bio) <= MaxBioBytes
    requires 1 <= |user.name| <= 50 && forall i :: 0 <= i < |user.name| ==> (user.name[i] as int) < 0x80
    ensures ProfileCheck(user).None?
  {
    Utf8LenAscii(user.name);
  }

  class UserUseCase {
    const userDao: UserDAO

    constructor (userDao: UserDAO)
      ensures this.userDao == userDao
    {
      this.userDao := userDao;
    }

    /** GetUser: an empty id is refused without a lookup; otherwise the DAO's
        answer, unchanged. */
    method GetUser(userId: string, failure: Option<nat>) returns (r: Result<UserCard>)
      ensures UserIdCheck(userId).Some? ==> r == Err(UserIdCheck(userId).value)
      ensures UserIdCheck(userId).None? ==> r == GetUserResult(userDao.db.users, userId, failure)
    {
      var e := UserIdCheck(userId);
      if e.Some? {
        return Err(e.value);
      }
      r := userDao.GetUser(userId, failure);
    }

    /** UpdateProfile: the profile checks, then the DAO's update exactly when
        they all pass. */
    method UpdateProfile(user: User, failure: Option<nat>) returns (err: Option<Error>)
      modifies userDao.db`users
      ensures ProfileCheck(user).Some? ==> err == ProfileCheck(user) && unchanged(userDao.db)
      ensures ProfileCheck(user).None? ==> err == ExecError(failure)
      ensures ProfileCheck(user).None? && failure.Some? ==> userDao.db.users == old(userDao.db.users)
      ensures ProfileCheck(user).None? && failure.None? ==> userDao.db.users == UpdateUserRows(old(userDao.db.users), user)
    {
      err := ProfileCheck(user);
      if err.Some? {
        return;
      }
      err := userDao.UpdateUser(user, failure);
    }

    /** GetUpdatedUser: the same check and lookup as GetUser. */
    method GetUpdatedUser(userId: string, failure: Option<nat>) returns (r: Result<UserCard>)
      ensures UserIdCheck(userId).Some? ==> r == Err(UserIdCheck(userId).value)
      ensures UserIdCheck(userId).None? ==> r == GetUserResult(userDao.db.users, userId, failure)
    {
      var e := UserIdCheck(userId);
      if e.Some? {
        return Err(e.value);
      }
      r := userDao.GetUser(userId, failure);
    }
  }
}
