/** usecase/find_usecase.go: the empty-keyword check in front of the search. */
module FindUsecase {
  import opened Wrappers
  import opened Sql
  import opened Model
  import opened FindDao

  const EmptyKeyMessage: string := "[find_usecase.go] キーワードが空です"

  /** The check both searches run: the keyword must not be empty (the empty
      keyword would match everything, see FindDao.EmptyKeyFindsAllLive). */
  function KeyCheck(key: string): (e: Option<Error>)
    ensures e.None? <==> key != ""
    ensures e.Some? ==> e.value == Message(EmptyKeyMessage)
  {
    if key == "" then Some(Message(EmptyKeyMessage)) else None
  }

  class FindUseCase {
    const findDao: FindDAO

    constructor (findDao: FindDAO)
      ensures this.findDao == findDao
    {
      this.findDao := findDao;
    }

    /** FindUsers: "" is refused without a query; any other keyword gets the
        DAO's result, unchanged. */
    method FindUsers(key: string, fault: Fault) returns (r: Result<seq<UserCard>>)
      ensures key == "" ==> r == Err(Message(EmptyKeyMessage))
      ensures key != "" ==> r == Collect(FoundUserRows(findDao.db.users, key), FoundUserOf, fault)
    {
      var e := KeyCheck(key);
      if e.Some? {
        return Err(e.value);
      }
      r := findDao.FindUsersByKey(key, fault);
    }

    /** FindPosts: "" is refused without a query; any other keyword gets the
        DAO's result, unchanged. */
    method FindPosts(key: string, fault: Fault) returns (r: Result<seq<Post>>)
      ensures key == "" ==> r == Err(Message(EmptyKeyMessage))
      ensures key != "" ==> r == Collect(FoundPostRows(findDao.db.posts, key), FoundPostOf, fault)
    {
      var e := KeyCheck(key);
      if e.Some? {
        return Err(e.value);
      }
      r := findDao.FindPostsByKey(key, fault);
    }
  }
}
