/** dao/follow/followers_dao.go: the follow DAO that dao/init_dao.go hands out;
    it issues the same statements as dao/follow_dao.go. */
module FollowersDao {
  import opened Wrappers
  import opened Relational
  import opened Sql
  import opened Schema
  import opened Model
  import opened FollowTable

  class FollowersDAO {
    const db: Store

    constructor (db: Store)
      ensures this.db == db
    {
      this.db := db;
    }

    /** AddFollow: inserts the edge (userId, followingUserId) stamped with the
        current time; the store's error comes back unchanged. */
    method AddFollow(userId: string, followingUserId: string, failure: Option<nat>) returns (err: Option<Error>)
      modifies db`followers, db`clock
      ensures db.clock == old(db.clock) + 1
      ensures err == ExecError(failure)
      ensures failure.Some? ==> db.followers == old(db.followers)
      ensures failure.None? ==> db.followers == old(db.followers) + [FollowEdge(userId, followingUserId, old(db.clock))]
    {
      var now := db.Now();
      err := ExecError(failure);
      if err.None? {
        db.followers := AddEdge(db.followers, userId, followingUserId, now);
      }
    }

    /** RemoveFollow: deletes every (userId, followingUserId) edge and no
        other; with no such edge nothing changes and no error is raised. */
    method RemoveFollow(userId: string, followingUserId: string, failure: Option<nat>) returns (err: Option<Error>)
      modifies db`followers
      ensures err == ExecError(failure)
      ensures failure.Some? ==> db.followers == old(db.followers)
      ensures failure.None? ==> db.followers == RemoveEdges(old(db.followers), userId, followingUserId)
    {
      err := ExecError(failure);
      if err.None? {
        db.followers := RemoveEdges(db.followers, userId, followingUserId);
      }
    }

    /** GetFollowers: the users who follow `userId`, or the error alone. */
    method GetFollowers(userId: string, fault: Fault) returns (r: Result<seq<UserCard>>)
      ensures r == Collect(FollowerRows(db.users, db.followers, userId), CardOf, fault)
    {
      var rows := FollowerRows(db.users, db.followers, userId);
      r := ScanRows(rows, CardOf, fault);
    }

    /** GetFollowing: the users `userId` follows, or the error alone. */
    method GetFollowing(userId: string, fault: Fault) returns (r: Result<seq<UserCard>>)
      ensures r == Collect(FollowingRows(db.users, db.followers, userId), CardOf, fault)
    {
      var rows := FollowingRows(db.users, db.followers, userId);
      r := ScanRows(rows, CardOf, fault);
    }
  }
}
