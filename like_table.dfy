/**
 * The statements over the `likes` table, shared by dao/like_dao.go and
 * dao/like/likes_dao.go, and the like relation they define.
 */
module LikeTable {
  import opened Relational
  import opened Sql
  import opened Schema

  /** `u` likes post `p`: some row of the table is the edge (u, p). */
  predicate Likes(likes: seq<LikeEdge>, u: string, p: string)
  {
    exists e :: e in likes && e.userId == u && e.postId == p
  }

  /** `INSERT INTO likes (user_id, post_id, created_at)`. */
  function AddLikeEdge(likes: seq<LikeEdge>, u: string, p: string, t: nat): (r: seq<LikeEdge>)
    ensures Likes(r, u, p)
    ensures forall x, y :: Likes(likes, x, y) ==> Likes(r, x, y)
    ensures forall x, y :: Likes(r, x, y) && (x != u || y != p) ==> Likes(likes, x, y)
  {
    var r := likes + [LikeEdge(u, p, t)];
    assert r[|likes|] in r;
    r
  }

  /** `DELETE FROM likes WHERE user_id = ? AND post_id = ?`: every (u, p)
      edge goes, every other edge stays as often as it was. */
  function RemoveLikeEdges(likes: seq<LikeEdge>, u: string, p: string): (r: seq<LikeEdge>)
    ensures !Likes(r, u, p)
    ensures forall x, y :: Likes(r, x, y) <==> Likes(likes, x, y) && (x != u || y != p)
    ensures forall e :: multiset(r)[e] == if e.userId == u && e.postId == p then 0 else multiset(likes)[e]
  {
    Filter(likes, (e: LikeEdge) => !(e.userId == u && e.postId == p))
  }

  /** Removing a like that is not there leaves the table exactly as it was. */
  lemma RemoveAbsentLike(likes: seq<LikeEdge>, u: string, p: string)
    requires !Likes(likes, u, p)
    ensures RemoveLikeEdges(likes, u, p) == likes
  {
    FilterAll(likes, (e: LikeEdge) => !(e.userId == u && e.postId == p));
  }

  /** The join condition of `users u INNER JOIN likes l ON u.user_id =
      l.user_id WHERE l.post_id = p`. */
  function LikerOn(p: string): (UserRow, LikeEdge) -> bool
  {
    (x: UserRow, e: LikeEdge) => e.userId == x.userId && e.postId == p
  }

  /** The user rows GetUsersByPostID(p) selects (LikerRowsContents says
      which). The posts table is not consulted, so a soft-deleted post still
      has its likers. */
  function LikerRows(users: seq<UserRow>, likes: seq<LikeEdge>, p: string): seq<UserRow>
  {
    JoinMatches(users, likes, LikerOn(p))
  }

  /** GetUsersByPostID(p) selects exactly the registered users with a like
      on `p`, each once per like (and per copy of its user row). */
  lemma LikerRowsContents(users: seq<UserRow>, likes: seq<LikeEdge>, p: string, x: UserRow)
    ensures x in LikerRows(users, likes, p) <==> x in users && Likes(likes, x.userId, p)
    ensures multiset(LikerRows(users, likes, p))[x] == multiset(users)[x] * Matches(x, likes, LikerOn(p))
  {
    JoinMatchesCount(users, likes, LikerOn(p), x);
  }

  /** After removing the like (u, p), `u` is not among the likers of `p`, and
      every other liker of `p` still is. */
  lemma RemoveThenNotLiker(users: seq<UserRow>, likes: seq<LikeEdge>, u: string, p: string, x: UserRow)
    requires x in users
    ensures x in LikerRows(users, RemoveLikeEdges(likes, u, p), p) <==> x.userId != u && x in LikerRows(users, likes, p)
  {
    LikerRowsContents(users, RemoveLikeEdges(likes, u, p), p, x);
    LikerRowsContents(users, likes, p, x);
  }

  /** A liker list as GetUsersByPostID returns it, each user scanned with
      `scan`: when the scan succeeds, a value is listed exactly when it is
      the scan of a registered user who likes `p`. */
  lemma LikerCards<V(!new)>(users: seq<UserRow>, likes: seq<LikeEdge>, p: string, scan: UserRow -> V, fault: Fault, c: V)
    requires Collect(LikerRows(users, likes, p), scan, fault).Ok?
    ensures c in Collect(LikerRows(users, likes, p), scan, fault).value <==>
      exists x :: x in users && Likes(likes, x.userId, p) && scan(x) == c
  {
    var rows := LikerRows(users, likes, p);
    assert Collect(rows, scan, fault).value == Map(rows, scan);
    MapMember(rows, scan, c);
    forall x ensures x in rows <==> x in users && Likes(likes, x.userId, p) {
      LikerRowsContents(users, likes, p, x);
    }
  }
}
