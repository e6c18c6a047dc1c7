/** dao/find_dao.go: keyword search over users and posts with SQL LIKE. */
module FindDao {
  import opened Wrappers
  import opened Relational
  import opened Sql
  import opened Schema
  import opened Model
  import opened GoStrings
  import opened PostTable

  /** The argument `"%" + key + "%"` both searches bind. */
  function KeyPattern(key: string): string
  {
    "%" + key + "%"
  }

  /** `name LIKE ? OR bio LIKE ?`; a NULL bio matches nothing. */
  predicate UserMatches(r: UserRow, key: string)
  {
    Like(r.name, KeyPattern(key)) || (r.bio.Some? && Like(r.bio.value, KeyPattern(key)))
  }

  /** `SELECT ... FROM users WHERE name LIKE ? OR bio LIKE ?`. */
  function FoundUserRows(users: seq<UserRow>, key: string): seq<UserRow>
  {
    Filter(users, (x: UserRow) => UserMatches(x, key))
  }

  /** `content LIKE ? AND deleted_at IS NULL`. */
  predicate PostMatches(r: PostRow, key: string)
  {
    Like(r.content, KeyPattern(key)) && Live(r)
  }

  /** `SELECT ... FROM posts WHERE content LIKE ? AND deleted_at IS NULL`. */
  function FoundPostRows(posts: seq<PostRow>, key: string): seq<PostRow>
  {
    Filter(posts, (x: PostRow) => PostMatches(x, key))
  }

  /** The user a search scans: all three nullable columns as pointers. */
  function FoundUserOf(r: UserRow): (u: UserCard)
    ensures u.userId == r.userId && u.name == r.name
    ensures u.bio == r.bio && u.profileImgUrl == r.profileImgUrl && u.headerImgUrl == r.headerImgUrl
  {
    UserCard(r.userId, r.name, r.bio, r.profileImgUrl, r.headerImgUrl)
  }

  /** The post a search scans; `is_bad` is not selected and so reads false. */
  function FoundPostOf(r: PostRow): (p: Post)
    ensures p.postId == r.postId && p.userId == r.userId && p.content == r.content && p.createdAt == r.createdAt
    ensures p.imgUrl == r.imgUrl && p.parentPostId == r.parentPostId && p.editedAt == r.editedAt
    ensures p.deletedAt.None? && !p.isBad
  {
    Post(r.postId, r.userId, r.content, r.imgUrl, r.createdAt, r.editedAt, None, r.parentPostId, false)
  }

  /** For a keyword without `%`, `_` or `\`, the user search finds exactly the
      users whose name or bio contains the keyword, each as often as stored;
      like every WHERE, it keeps storage order (Relational.FilterAppend). */
  lemma FoundUsersContents(users: seq<UserRow>, key: string, x: UserRow)
    requires NoWildcards(key)
    ensures x in FoundUserRows(users, key) <==>
      x in users && (Contains(x.name, key) || (x.bio.Some? && Contains(x.bio.value, key)))
    ensures multiset(FoundUserRows(users, key))[x] ==
      if Contains(x.name, key) || (x.bio.Some? && Contains(x.bio.value, key)) then multiset(users)[x] else 0
  {
    LikeInfix(x.name, key);
    if x.bio.Some? {
      LikeInfix(x.bio.value, key);
    }
  }

  /** For a keyword without `%`, `_` or `\`, the post search finds exactly the
      live posts whose content contains the keyword, each as often as stored;
      like every WHERE, it keeps storage order (Relational.FilterAppend). */
  lemma FoundPostsContents(posts: seq<PostRow>, key: string, x: PostRow)
    requires NoWildcards(key)
    ensures x in FoundPostRows(posts, key) <==> x in posts && Live(x) && Contains(x.content, key)
    ensures multiset(FoundPostRows(posts, key))[x] ==
      if Live(x) && Contains(x.content, key) then multiset(posts)[x] else 0
  {
    LikeInfix(x.content, key);
  }

  /** A soft-deleted post is never found, whatever its content and the key. */
  lemma FindHidesDeleted(posts: seq<PostRow>, key: string, x: PostRow)
    requires !Live(x)
    ensures x !in FoundPostRows(posts, key)
  {
  }

  /** The empty keyword matches every live post: the pattern is `%%`. */
  lemma EmptyKeyFindsAllLive(posts: seq<PostRow>)
    ensures FoundPostRows(posts, "") == Filter(posts, Live)
  {
    forall x: PostRow ensures PostMatches(x, "") == Live(x) {
      LikeEmptyKeyword(x.content);
    }
    FilterSamePredicate(posts, (x: PostRow) => PostMatches(x, ""), Live);
  }

  class FindDAO {
    const db: Store

    constructor (db: Store)
      ensures this.db == db
    {
      this.db := db;
    }

    /** FindUsersByKey: the matching users with NULL columns as nil, or the
        error alone. */
    method FindUsersByKey(key: string, fault: Fault) returns (r: Result<seq<UserCard>>)
      ensures r == Collect(FoundUserRows(db.users, key), FoundUserOf, fault)
    {
      var rows := FoundUserRows(db.users, key);
      r := ScanRows(rows, FoundUserOf, fault);
    }

    /** FindPostsByKey: the matching live posts with NULL columns as nil, or
        the error alone. */
    method FindPostsByKey(key: string, fault: Fault) returns (r: Result<seq<Post>>)
      ensures r == Collect(FoundPostRows(db.posts, key), FoundPostOf, fault)
    {
      var rows := FoundPostRows(db.posts, key);
      r := ScanRows(rows, FoundPostOf, fault);
    }
  }
}
