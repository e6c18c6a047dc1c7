/**
 * The statements over the `followers` table, shared by dao/follow_dao.go and
 * dao/follow/followers_dao.go, and the follow relation they define.
 */
module FollowTable {
  import opened Relational
  import opened Sql
  import opened Schema
  import opened Model

  /** `a` follows `b`: some row of the table is the edge (a, b). */
  predicate Follows(edges: seq<FollowEdge>, a: string, b: string)
  {
    exists e :: e in edges && e.userId == a && e.followingUserId == b
  }

  /** `INSERT INTO followers (user_id, following_user_id, created_at)`. */
  function AddEdge(edges: seq<FollowEdge>, a: string, b: string, t: nat): (r: seq<FollowEdge>)
    ensures Follows(r, a, b)
    ensures forall x, y :: Follows(edges, x, y) ==> Follows(r, x, y)
    ensures forall x, y :: Follows(r, x, y) && (x != a || y != b) ==> Follows(edges, x, y)
  {
    var r := edges + [FollowEdge(a, b, t)];
    assert r[|edges|] in r;
    r
  }

  /** `DELETE FROM followers WHERE user_id = ? AND following_user_id = ?`:
      every (a, b) edge goes, every other edge stays as often as it was. */
  function RemoveEdges(edges: seq<FollowEdge>, a: string, b: string): (r: seq<FollowEdge>)
    ensures !Follows(r, a, b)
    ensures forall x, y :: Follows(r, x, y) <==> Follows(edges, x, y) && (x != a || y != b)
    ensures forall e :: multiset(r)[e] == if e.userId == a && e.followingUserId == b then 0 else multiset(edges)[e]
  {
    Filter(edges, (e: FollowEdge) => !(e.userId == a && e.followingUserId == b))
  }

  /** Unfollowing someone not followed leaves the table exactly as it was. */
  lemma RemoveAbsentEdge(edges: seq<FollowEdge>, a: string, b: string)
    requires !Follows(edges, a, b)
    ensures RemoveEdges(edges, a, b) == edges
  {
    FilterAll(edges, (e: FollowEdge) => !(e.userId == a && e.followingUserId == b));
  }

  /** The join condition of `users u INNER JOIN followers f ON u.user_id =
      f.user_id WHERE f.following_user_id = v`. */
  function FollowerOn(v: string): (UserRow, FollowEdge) -> bool
  {
    (x: UserRow, e: FollowEdge) => e.userId == x.userId && e.followingUserId == v
  }

  /** The join condition of `users u INNER JOIN followers f ON u.user_id =
      f.following_user_id WHERE f.user_id = u`. */
  function FollowingOn(u: string): (UserRow, FollowEdge) -> bool
  {
    (x: UserRow, e: FollowEdge) => e.followingUserId == x.userId && e.userId == u
  }

  /** The user rows GetFollowers(v) selects (FollowerRowsContents says
      which). */
  function FollowerRows(users: seq<UserRow>, edges: seq<FollowEdge>, v: string): seq<UserRow>
  {
    JoinMatches(users, edges, FollowerOn(v))
  }

  /** The user rows GetFollowing(u) selects (FollowingRowsContents says
      which). */
  function FollowingRows(users: seq<UserRow>, edges: seq<FollowEdge>, u: string): seq<UserRow>
  {
    JoinMatches(users, edges, FollowingOn(u))
  }

  /** GetFollowers(v) selects exactly the registered users who follow `v`,
      each once per edge to `v` (and per copy of its user row). */
  lemma FollowerRowsContents(users: seq<UserRow>, edges: seq<FollowEdge>, v: string, x: UserRow)
    ensures x in FollowerRows(users, edges, v) <==> x in users && Follows(edges, x.userId, v)
    ensures multiset(FollowerRows(users, edges, v))[x] == multiset(users)[x] * Matches(x, edges, FollowerOn(v))
  {
    JoinMatchesCount(users, edges, FollowerOn(v), x);
  }

  /** GetFollowing(u) selects exactly the registered users `u` follows, each
      once per edge from `u` (and per copy of its user row). */
  lemma FollowingRowsContents(users: seq<UserRow>, edges: seq<FollowEdge>, u: string, x: UserRow)
    ensures x in FollowingRows(users, edges, u) <==> x in users && Follows(edges, u, x.userId)
    ensures multiset(FollowingRows(users, edges, u))[x] == multiset(users)[x] * Matches(x, edges, FollowingOn(u))
  {
    JoinMatchesCount(users, edges, FollowingOn(u), x);
  }

  /** Duality of the two joins: for registered users `u` and `v`, `u` is
      among the followers of `v` exactly when `v` is among those `u` follows. */
  lemma FollowerFollowingDuality(users: seq<UserRow>, edges: seq<FollowEdge>, u: UserRow, v: UserRow)
    requires u in users && v in users
    ensures (exists x :: x in FollowerRows(users, edges, v.userId) && x.userId == u.userId)
        <==> (exists y :: y in FollowingRows(users, edges, u.userId) && y.userId == v.userId)
  {
    FollowerRowsContents(users, edges, v.userId, u);
    FollowingRowsContents(users, edges, u.userId, v);
    if exists x :: x in FollowerRows(users, edges, v.userId) && x.userId == u.userId {
      var x :| x in FollowerRows(users, edges, v.userId) && x.userId == u.userId;
      FollowerRowsContents(users, edges, v.userId, x);
    }
    if exists y :: y in FollowingRows(users, edges, u.userId) && y.userId == v.userId {
      var y :| y in FollowingRows(users, edges, u.userId) && y.userId == v.userId;
      FollowingRowsContents(users, edges, u.userId, y);
    }
  }

  /** After `a` unfollows `b`, `a` is no longer among `b`'s followers, and
      every other follower of `b` still is. */
  lemma RemoveThenNotFollower(users: seq<UserRow>, edges: seq<FollowEdge>, a: string, b: string, x: UserRow)
    requires x in users
    ensures x in FollowerRows(users, RemoveEdges(edges, a, b), b) <==> x.userId != a && x in FollowerRows(users, edges, b)
  {
    FollowerRowsContents(users, RemoveEdges(edges, a, b), b, x);
    FollowerRowsContents(users, edges, b, x);
  }

  /** A follower list as GetFollowers returns it: when the scan succeeds, a
      card is listed exactly when it is the card of a registered user who
      follows `v`. */
  lemma FollowerCards(users: seq<UserRow>, edges: seq<FollowEdge>, v: string, fault: Fault, c: UserCard)
    requires Collect(FollowerRows(users, edges, v), CardOf, fault).Ok?
    ensures c in Collect(FollowerRows(users, edges, v), CardOf, fault).value <==>
      exists x :: x in users && Follows(edges, x.userId, v) && CardOf(x) == c
  {
    var rows := FollowerRows(users, edges, v);
    assert Collect(rows, CardOf, fault).value == Map(rows, CardOf);
    MapMember(rows, CardOf, c);
    forall x ensures x in rows <==> x in users && Follows(edges, x.userId, v) {
      FollowerRowsContents(users, edges, v, x);
    }
  }

  /** A following list as GetFollowing returns it: when the scan succeeds, a
      card is listed exactly when it is the card of a registered user whom
      `u` follows. */
  lemma FollowingCards(users: seq<UserRow>, edges: seq<FollowEdge>, u: string, fault: Fault, c: UserCard)
    requires Collect(FollowingRows(users, edges, u), CardOf, fault).Ok?
    ensures c in Collect(FollowingRows(users, edges, u), CardOf, fault).value <==>
      exists x :: x in users && Follows(edges, u, x.userId) && CardOf(x) == c
  {
    var rows := FollowingRows(users, edges, u);
    assert Collect(rows, CardOf, fault).value == Map(rows, CardOf);
    MapMember(rows, CardOf, c);
    forall x ensures x in rows <==> x in users && Follows(edges, u, x.userId) {
      FollowingRowsContents(users, edges, u, x);
    }
  }
}
