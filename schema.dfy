/**
 * The tables of the relational store and the store itself. Every table is a
 * sequence of rows in storage order; a nullable column is an `Option`.
 * Timestamps are readings of an abstract clock that only moves forward.
 */
module Schema {
  import opened Wrappers

  /** A row of `posts`. `deleted_at` set means the post is soft-deleted. */
  datatype PostRow = PostRow(
    postId: string,
    userId: string,
    content: string,
    imgUrl: Option<string>,
    createdAt: nat,
    editedAt: Option<nat>,
    parentPostId: Option<string>,
    deletedAt: Option<nat>,
    isBad: bool)

  /** A row of `users`. */
  datatype UserRow = UserRow(
    userId: string,
    name: string,
    bio: Option<string>,
    profileImgUrl: Option<string>,
    headerImgUrl: Option<string>,
    createdAt: nat)

  /** A row of `followers`: `userId` follows `followingUserId`. */
  datatype FollowEdge = FollowEdge(userId: string, followingUserId: string, createdAt: nat)

  /** A row of `likes`: `userId` likes `postId`. */
  datatype LikeEdge = LikeEdge(userId: string, postId: string, createdAt: nat)

  function PostCreatedAt(r: PostRow): nat { r.createdAt }

  function UserCreatedAt(r: UserRow): nat { r.createdAt }

  /** The database every DAO holds a handle to. `follows` is a table that a
      recommendation query reads; no statement modelled here writes it. */
  class Store {
    var posts: seq<PostRow>
    var users: seq<UserRow>
    var followers: seq<FollowEdge>
    var follows: seq<FollowEdge>
    var likes: seq<LikeEdge>
    var clock: nat

    constructor ()
      ensures posts == [] && users == [] && followers == [] && follows == [] && likes == []
      ensures clock == 0
    {
      posts, users, followers, follows, likes := [], [], [], [], [];
      clock := 0;
    }

    /** `time.Now()`: the current reading; every later reading is larger. */
    method Now() returns (t: nat)
      modifies this`clock
      ensures t == old(clock) && clock == old(clock) + 1
    {
      t := clock;
      clock := clock + 1;
    }
  }
}
