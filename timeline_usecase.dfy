/** usecase/timeline_usecase.go: the empty-id check in front of the timeline
    DAO. The source calls FetchUserTimeline and FetchUserPosts, which the DAO
    does not define; the model calls GetUserTimeline and GetUserPosts. */
module TimelineUsecase {
  import opened Wrappers
  import opened Sql
  import opened Model
  import opened PostTable
  import opened TimelineDao

  const MissingAuthIdMessage: string := "[timeline_usecase.go] auth_id が無効: 必須項目"

  /** The check both queries run: the id must not be empty. */
  function AuthIdCheck(userId: string): (e: Option<Error>)
    ensures e.None? <==> userId != ""
    ensures e.Some? ==> e.value == Message(MissingAuthIdMessage)
  {
    if userId == "" then Some(Message(MissingAuthIdMessage)) else None
  }

  class TimelineUseCase {
    const timelineDao: TimelineDAO

    constructor (timelineDao: TimelineDAO)
      ensures this.timelineDao == timelineDao
    {
      this.timelineDao := timelineDao;
    }

    /** GetUserTimeline: "" is refused without a query; any other id gets the
        DAO's timeline, unchanged. */
    method GetUserTimeline(userId: string, fault: Fault) returns (r: Result<seq<LegacyPost>>)
      ensures userId == "" ==> r == Err(Message(MissingAuthIdMessage))
      ensures userId != "" ==> r == Collect(TimelineRows(timelineDao.db.posts, timelineDao.db.followers, userId), LegacyPostOf, fault)
    {
      var e := AuthIdCheck(userId);
      if e.Some? {
        return Err(e.value);
      }
      r := timelineDao.GetUserTimeline(userId, fault);
    }

    /** GetUserPosts: "" is refused without a query; any other id gets the
        DAO's post list, unchanged. */
    method GetUserPosts(userId: string, fault: Fault) returns (r: Result<seq<LegacyPost>>)
      ensures userId == "" ==> r == Err(Message(MissingAuthIdMessage))
      ensures userId != "" ==> r == Collect(UserPostRows(timelineDao.db.posts, userId), LegacyPostOf, fault)
    {
      var e := AuthIdCheck(userId);
      if e.Some? {
        return Err(e.value);
      }
      r := timelineDao.GetUserPosts(userId, fault);
    }
  }
}
