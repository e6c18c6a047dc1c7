/** dao/gemini_dao.go: the queries behind the text-generation features
    (the generation call itself is not part of this model). */
module GeminiDao {
  import opened Wrappers
  import opened Relational
  import opened Sql
  import opened Schema
  import opened Model
  import opened PostTable
  import opened FollowTable

  /** The error GetPostContent reports when no live post has the id. */
  const NoPostMessage: string := "投稿が存在しません"

  /** The context UpdateIsBad wraps a store failure in. */
  const IsBadUpdateContext: string := "is_bad の更新に失敗しました"

  function ContentOf(r: PostRow): string
  {
    r.content
  }

  /** FetchUserPostContents: the contents of exactly `u`'s live posts, newest
      first, as the scan of `SELECT content ... ORDER BY created_at DESC`. */
  lemma UserContentsAreOwn(posts: seq<PostRow>, u: string, fault: Fault, c: string)
    requires Collect(UserPostRows(posts, u), ContentOf, fault).Ok?
    ensures c in Collect(UserPostRows(posts, u), ContentOf, fault).value <==>
      exists x :: x in posts && x.userId == u && Live(x) && x.content == c
  {
    UserPostRowsContents(posts, u);
    MapMember(UserPostRows(posts, u), ContentOf, c);
  }

  /** What GetPostContent answers: the content of the first live row with the
      id; a missing post and a deleted one get the same error. */
  function PostContentResult(rows: seq<PostRow>, id: string, failure: Option<nat>): (r: Result<string>)
    ensures failure.Some? ==> r == Err(DbError(failure.value))
    ensures failure.None? && (forall x :: x in rows && x.postId == id ==> !Live(x)) ==> r == Err(Message(NoPostMessage))
    ensures r.Ok? ==> exists x :: x in rows && x.postId == id && Live(x) && x.content == r.value
    ensures failure.None? && (exists x :: x in rows && x.postId == id && Live(x)) ==> r.Ok?
  {
    if failure.Some? then Err(DbError(failure.value))
    else match FirstWhere(rows, (x: PostRow) => x.postId == id && Live(x))
      case None => Err(Message(NoPostMessage))
      case Some(row) => Ok(row.content)
  }

  /** `UPDATE posts SET is_bad = ? WHERE post_id = ? AND deleted_at IS NULL`:
      only the live rows with that id change, and only in `is_bad`. */
  function SetIsBadRows(rows: seq<PostRow>, id: string, isBad: bool): (r: seq<PostRow>)
    ensures |r| == |rows|
    ensures forall i :: 0 <= i < |rows| && rows[i].postId == id && Live(rows[i]) ==> r[i] == rows[i].(isBad := isBad)
    ensures forall i :: 0 <= i < |rows| && (rows[i].postId != id || !Live(rows[i])) ==> r[i] == rows[i]
  {
    UpdateWhere(rows, (x: PostRow) => x.postId == id && Live(x), (x: PostRow) => x.(isBad := isBad))
  }

  /** `SELECT u.user_id, u.name, u.bio FROM users u WHERE u.user_id NOT IN
      (SELECT f.following_user_id FROM <edges> f WHERE f.user_id = ?) AND
      u.user_id != ? ORDER BY u.created_at DESC`, over the edge table given. */
  function UnfollowedRows(users: seq<UserRow>, edges: seq<FollowEdge>, a: string): seq<UserRow>
  {
    SortDesc(Filter(users, (x: UserRow) => !Follows(edges, a, x.userId) && x.userId != a), UserCreatedAt)
  }

  /** The recommendation candidates are exactly the users other than `a` whom
      `a` has no edge to, each as often as stored, newest first. */
  lemma UnfollowedRowsContents(users: seq<UserRow>, edges: seq<FollowEdge>, a: string)
    ensures SortedDesc(UnfollowedRows(users, edges, a), UserCreatedAt)
    ensures forall x :: x in UnfollowedRows(users, edges, a) <==> x in users && x.userId != a && !Follows(edges, a, x.userId)
    ensures forall x :: multiset(UnfollowedRows(users, edges, a))[x] ==
                        if x.userId != a && !Follows(edges, a, x.userId) then multiset(users)[x] else 0
  {
    var kept := Filter(users, (x: UserRow) => !Follows(edges, a, x.userId) && x.userId != a);
    forall x ensures x in UnfollowedRows(users, edges, a) <==> x in kept {
      SortDescMember(kept, UserCreatedAt, x);
    }
  }

  /** Once `a` follows `b`, `b` is no longer a candidate for `a`. */
  lemma FollowedNotRecommended(users: seq<UserRow>, edges: seq<FollowEdge>, a: string, b: string, t: nat)
    ensures forall x :: x in UnfollowedRows(users, AddEdge(edges, a, b, t), a) ==> x.userId != b
  {
    UnfollowedRowsContents(users, AddEdge(edges, a, b, t), a);
  }

  /** The user FetchUnfollowedUsers scans: id, name and a nullable bio. */
  function CandidateOf(r: UserRow): (u: UserCard)
    ensures u.userId == r.userId && u.name == r.name && u.bio == r.bio
    ensures u.profileImgUrl.None? && u.headerImgUrl.None?
  {
    UserCard(r.userId, r.name, r.bio, None, None)
  }

  /** Read against `follows`, as written, a user whom `a` followed with
      AddFollow (which writes `followers`) is still a candidate. */
  lemma UnfollowedAsWrittenIgnoresFollowers()
    ensures var users := [UserRow("b", "B", None, None, None, 0)];
            var followers := [FollowEdge("a", "b", 0)];
            Follows(followers, "a", "b") && users[0] in UnfollowedRows(users, [], "a")
  {
    var users := [UserRow("b", "B", None, None, None, 0)];
    UnfollowedRowsContents(users, [], "a");
    assert Follows([FollowEdge("a", "b", 0)], "a", "b") by {
      assert FollowEdge("a", "b", 0) in [FollowEdge("a", "b", 0)];
    }
  }

  class GeminiDAO {
    const db: Store

    constructor (db: Store)
      ensures this.db == db
    {
      this.db := db;
    }

    /** FetchUserPostContents: the contents of `userId`'s live posts, newest
        first, or the error alone. */
    method FetchUserPostContents(userId: string, fault: Fault) returns (r: Result<seq<string>>)
      ensures r == Collect(UserPostRows(db.posts, userId), ContentOf, fault)
    {
      var rows := UserPostRows(db.posts, userId);
      r := ScanRows(rows, ContentOf, fault);
    }

    /** GetPostContent: the content of the live post with that id, or
        "投稿が存在しません" when there is none. */
    method GetPostContent(postId: string, failure: Option<nat>) returns (r: Result<string>)
      ensures r == PostContentResult(db.posts, postId, failure)
    {
      if failure.Some? {
        return Err(DbError(failure.value));
      }
      var row := FirstWhere(db.posts, (x: PostRow) => x.postId == postId && Live(x));
      if row.None? {
        return Err(Message(NoPostMessage));
      }
      return Ok(row.value.content);
    }

    /** UpdateIsBad: sets the flag on the live row with that id; a store
        failure comes back wrapped, success as no error. */
    method UpdateIsBad(postId: string, isBad: bool, failure: Option<nat>) returns (err: Option<Error>)
      modifies db`posts
      ensures failure.Some? ==> err == Some(Wrapped(IsBadUpdateContext, DbError(failure.value))) && db.posts == old(db.posts)
      ensures failure.None? ==> err.None? && db.posts == SetIsBadRows(old(db.posts), postId, isBad)
    {
      var e := ExecError(failure);
      if e.Some? {
        return Some(Wrapped(IsBadUpdateContext, e.value));
      }
      db.posts := SetIsBadRows(db.posts, postId, isBad);
      return None;
    }

    /** FetchUnfollowedUsers as written: the `NOT IN` subquery reads the
        `follows` table, which no follow operation writes. */
    method FetchUnfollowedUsersAsWritten(authId: string, fault: Fault) returns (r: Result<seq<UserCard>>)
      ensures r == Collect(UnfollowedRows(db.users, db.follows, authId), CandidateOf, fault)
    {
      var rows := UnfollowedRows(db.users, db.follows, authId);
      r := ScanRows(rows, CandidateOf, fault);
    }

    /** FetchUnfollowedUsers over `followers`, the table AddFollow and
        RemoveFollow maintain: the users other than `authId` whom `authId`
        does not follow, newest first. */
    method FetchUnfollowedUsers(authId: string, fault: Fault) returns (r: Result<seq<UserCard>>)
      ensures r == Collect(UnfollowedRows(db.users, db.followers, authId), CandidateOf, fault)
    {
      var rows := UnfollowedRows(db.users, db.followers, authId);
      r := ScanRows(rows, CandidateOf, fault);
    }
  }
}
