/** dao/timeline_dao.go: the home timeline and a user's own post list. */
module TimelineDao {
  import opened Wrappers
  import opened Relational
  import opened Sql
  import opened Schema
  import opened Model
  import opened PostTable
  import opened FollowTable

  /** The join condition of `posts p INNER JOIN followers f ON p.user_id =
      f.following_user_id WHERE f.user_id = u`. */
  function AuthorFollowedBy(u: string): (PostRow, FollowEdge) -> bool
  {
    (p: PostRow, e: FollowEdge) => e.followingUserId == p.userId && e.userId == u
  }

  /** The rows the timeline query selects for `u`: the live posts joined with
      `u`'s follow edges, newest first (TimelineRowsContents says which). */
  function TimelineRows(posts: seq<PostRow>, edges: seq<FollowEdge>, u: string): seq<PostRow>
  {
    SortDesc(JoinMatches(Filter(posts, Live), edges, AuthorFollowedBy(u)), PostCreatedAt)
  }

  /** The timeline of `u` holds exactly the live posts whose author `u`
      follows, each once per follow edge to that author, newest first. */
  lemma TimelineRowsContents(posts: seq<PostRow>, edges: seq<FollowEdge>, u: string, x: PostRow)
    ensures SortedDesc(TimelineRows(posts, edges, u), PostCreatedAt)
    ensures x in TimelineRows(posts, edges, u) <==> x in posts && Live(x) && Follows(edges, u, x.userId)
    ensures multiset(TimelineRows(posts, edges, u))[x] ==
      (if Live(x) then multiset(posts)[x] else 0) * Matches(x, edges, AuthorFollowedBy(u))
  {
    var joined := JoinMatches(Filter(posts, Live), edges, AuthorFollowedBy(u));
    JoinMatchesCount(Filter(posts, Live), edges, AuthorFollowedBy(u), x);
    SortDescMember(joined, PostCreatedAt, x);
  }

  /** The timeline does not show the requester's own posts unless the
      requester follows themself. */
  lemma TimelineOmitsOwnPosts(posts: seq<PostRow>, edges: seq<FollowEdge>, u: string, x: PostRow)
    requires !Follows(edges, u, u)
    requires x in TimelineRows(posts, edges, u)
    ensures x.userId != u
  {
    TimelineRowsContents(posts, edges, u, x);
  }

  /** A soft-deleted post is never on anyone's timeline. */
  lemma TimelineHidesDeleted(posts: seq<PostRow>, edges: seq<FollowEdge>, u: string, x: PostRow)
    requires !Live(x)
    ensures x !in TimelineRows(posts, edges, u)
  {
    TimelineRowsContents(posts, edges, u, x);
  }

  class TimelineDAO {
    const db: Store

    constructor (db: Store)
      ensures this.db == db
    {
      this.db := db;
    }

    /** GetUserTimeline: the posts of the users `userId` follows, newest
        first, a NULL parent read as "", or the error alone. */
    method GetUserTimeline(userId: string, fault: Fault) returns (r: Result<seq<LegacyPost>>)
      ensures r == Collect(TimelineRows(db.posts, db.followers, userId), LegacyPostOf, fault)
    {
      var rows := TimelineRows(db.posts, db.followers, userId);
      r := ScanRows(rows, LegacyPostOf, fault);
    }

    /** GetUserPosts: the live posts of `userId`, newest first, a NULL parent
        read as "", or the error alone. */
    method GetUserPosts(userId: string, fault: Fault) returns (r: Result<seq<LegacyPost>>)
      ensures r == Collect(UserPostRows(db.posts, userId), LegacyPostOf, fault)
    {
      var rows := UserPostRows(db.posts, userId);
      r := ScanRows(rows, LegacyPostOf, fault);
    }
  }
}
