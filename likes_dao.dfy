/** dao/like/likes_dao.go: the like DAO that usecase/like_usecase.go uses; it
    issues the same statements as dao/like_dao.go and scans each user directly. */
module LikesDao {
  import opened Wrappers
  import opened Relational
  import opened Sql
  import opened Schema
  import opened Model
  import opened LikeTable

  class LikesDAO {
    const db: Store

    constructor (db: Store)
      ensures this.db == db
    {
      this.db := db;
    }

    /** AddLike: inserts the edge (userId, postId) stamped with the current
        time; the store's error comes back unchanged. */
    method AddLike(userId: string, postId: string, failure: Option<nat>) returns (err: Option<Error>)
      modifies db`likes, db`clock
      ensures db.clock == old(db.clock) + 1
      ensures err == ExecError(failure)
      ensures failure.Some? ==> db.likes == old(db.likes)
      ensures failure.None? ==> db.likes == old(db.likes) + [LikeEdge(userId, postId, old(db.clock))]
    {
      var now := db.Now();
      err := ExecError(failure);
      if err.None? {
        db.likes := AddLikeEdge(db.likes, userId, postId, now);
      }
    }

    /** RemoveLike: deletes every (userId, postId) edge and no other; with no
        such edge nothing changes and no error is raised. */
    method RemoveLike(userId: string, postId: string, failure: Option<nat>) returns (err: Option<Error>)
      modifies db`likes
      ensures err == ExecError(failure)
      ensures failure.Some? ==> db.likes == old(db.likes)
      ensures failure.None? ==> db.likes == RemoveLikeEdges(old(db.likes), userId, postId)
    {
      err := ExecError(failure);
      if err.None? {
        db.likes := RemoveLikeEdges(db.likes, userId, postId);
      }
    }

    /** GetUsersByPostID: the users who like `postId`, or the error alone. */
    method GetUsersByPostID(postId: string, fault: Fault) returns (r: Result<seq<UserCard>>)
      ensures r == Collect(LikerRows(db.users, db.likes, postId), CardOf, fault)
    {
      var rows := LikerRows(db.users, db.likes, postId);
      r := ScanRows(rows, CardOf, fault);
    }
  }
}
