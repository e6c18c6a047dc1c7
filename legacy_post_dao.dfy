/** dao/post/posts_dao.go: the posts DAO written against model/models.go,
    where a post's parent id is a string and "" means none. */
module LegacyPostDao {
  import opened Wrappers
  import opened Relational
  import opened Sql
  import opened Schema
  import opened Model
  import opened PostTable

  /** The text GetPost reports for an id with no row. */
  const NotFoundMessage: string := "投稿が見つかりません"

  /** The text GetPost reports for a soft-deleted post. */
  const DeletedMessage: string := "投稿が削除されています"

  /** The row `INSERT INTO posts (post_id, user_id, content, img_url,
      created_at, parent_post_id)` stores: "" as parent becomes NULL; the
      columns not listed are NULL, and `is_bad` takes its default, false. */
  function NewLegacyRow(post: LegacyPost): (r: PostRow)
    ensures post.parentPostId == "" ==> r.parentPostId.None?
    ensures post.parentPostId != "" ==> r.parentPostId == Some(post.parentPostId)
    ensures r.postId == post.postId && r.userId == post.userId && r.content == post.content
    ensures r.imgUrl == post.imgUrl && r.createdAt == post.createdAt
    ensures r.editedAt.None? && r.deletedAt.None? && !r.isBad
  {
    var parentPostId := if post.parentPostId == "" then None else Some(post.parentPostId);
    PostRow(post.postId, post.userId, post.content, post.imgUrl, post.createdAt, None, parentPostId, None, false)
  }

  /** What GetPost answers for a table, an id and the store's behaviour. */
  function GetLegacyPostResult(rows: seq<PostRow>, id: string, failure: Option<nat>): (r: Result<LegacyPost>)
    ensures failure.Some? ==> r == Err(DbError(failure.value))
    ensures failure.None? && (forall x :: x in rows ==> x.postId != id) ==> r == Err(Message(NotFoundMessage))
    ensures failure.None? && RowById(rows, id).Some? && !Live(RowById(rows, id).value) ==> r == Err(Message(DeletedMessage))
    ensures r.Ok? <==> failure.None? && RowById(rows, id).Some? && Live(RowById(rows, id).value)
    ensures r.Ok? ==> r.value == LegacyPostOf(RowById(rows, id).value)
  {
    if failure.Some? then Err(DbError(failure.value))
    else match RowById(rows, id)
      case None => Err(Message(NotFoundMessage))
      case Some(row) => if row.deletedAt.Some? then Err(Message(DeletedMessage)) else Ok(LegacyPostOf(row))
  }

  /** A missing post and a deleted one get different errors. */
  lemma MissingAndDeletedDiffer(rows: seq<PostRow>, id: string, other: string)
    requires RowById(rows, id).Some? && !Live(RowById(rows, id).value)
    requires forall x :: x in rows ==> x.postId != other
    ensures GetLegacyPostResult(rows, id, None).Err? && GetLegacyPostResult(rows, other, None).Err?
    ensures GetLegacyPostResult(rows, id, None).error != GetLegacyPostResult(rows, other, None).error
  {
    assert NotFoundMessage[3] != DeletedMessage[3];
  }

  /** Creating a post under a fresh id and reading it back gives the post as
      created, its parent id included: "" goes in as NULL and comes back as "".
      The edit time reads as unset, since the insert does not store it. */
  lemma CreateThenGet(rows: seq<PostRow>, post: LegacyPost)
    requires forall x :: x in rows ==> x.postId != post.postId
    ensures GetLegacyPostResult(rows + [NewLegacyRow(post)], post.postId, None) == Ok(post.(editedAt := None, deletedAt := None))
  {
    var row := NewLegacyRow(post);
    FirstWhereUnique(rows + [row], (x: PostRow) => x.postId == post.postId, row);
    EmptyToNullRoundTrip(post.parentPostId);
  }

  class PostsDAO {
    const db: Store

    constructor (db: Store)
      ensures this.db == db
    {
      this.db := db;
    }

    /** CreatePost: stores one row for `post`, with a NULL parent when the
        parent id is "", and returns `post` unchanged; or returns the store's
        error and stores nothing. */
    method CreatePost(post: LegacyPost, failure: Option<nat>) returns (r: Result<LegacyPost>)
      modifies db`posts
      ensures failure.Some? ==> r == Err(DbError(failure.value)) && db.posts == old(db.posts)
      ensures failure.None? ==> r == Ok(post) && db.posts == old(db.posts) + [NewLegacyRow(post)]
    {
      var parentPostId: Option<string>;
      if post.parentPostId == "" {
        parentPostId := None;
      } else {
        parentPostId := Some(post.parentPostId);
      }
      var err := ExecError(failure);
      if err.Some? {
        return Err(err.value);
      }
      db.posts := db.posts + [PostRow(post.postId, post.userId, post.content, post.imgUrl, post.createdAt, None, parentPostId, None, false)];
      return Ok(post);
    }

    /** GetPost: "投稿が見つかりません" for an unknown id, the deletion message
        for a soft-deleted row, otherwise the row with a NULL parent as "". */
    method GetPost(postId: string, failure: Option<nat>) returns (r: Result<LegacyPost>)
      ensures r == GetLegacyPostResult(db.posts, postId, failure)
    {
      if failure.Some? {
        return Err(DbError(failure.value));
      }
      var row := RowById(db.posts, postId);
      if row.None? {
        return Err(Message(NotFoundMessage));
      }
      if row.value.deletedAt.Some? {
        return Err(Message(DeletedMessage));
      }
      var post := LegacyPost(row.value.postId, row.value.userId, row.value.content, row.value.imgUrl,
                             row.value.createdAt, None, None, "");
      if row.value.parentPostId.Some? {
        post := post.(parentPostId := row.value.parentPostId.value);
      }
      if row.value.editedAt.Some? {
        post := post.(editedAt := row.value.editedAt);
      }
      return Ok(post);
    }

    /** UpdatePost: reads the clock, then sets content, image and edit time on
        the live row with that id; a deleted or unknown id is a silent no-op. */
    method UpdatePost(post: LegacyPost, failure: Option<nat>) returns (err: Option<Error>)
      modifies db`posts, db`clock
      ensures db.clock == old(db.clock) + 1
      ensures err == ExecError(failure)
      ensures failure.Some? ==> db.posts == old(db.posts)
      ensures failure.None? ==> db.posts == EditRows(old(db.posts), post.postId, post.content, post.imgUrl, old(db.clock))
    {
      var editedAt := db.Now();
      err := ExecError(failure);
      if err.None? {
        db.posts := EditRows(db.posts, post.postId, post.content, post.imgUrl, editedAt);
      }
    }

    /** DeletePost: stamps `deleted_at` on every row with that id. */
    method DeletePost(postId: string, failure: Option<nat>) returns (err: Option<Error>)
      modifies db`posts, db`clock
      ensures db.clock == old(db.clock) + 1
      ensures err == ExecError(failure)
      ensures failure.Some? ==> db.posts == old(db.posts)
      ensures failure.None? ==> db.posts == SoftDeleteRows(old(db.posts), postId, old(db.clock))
    {
      var now := db.Now();
      err := ExecError(failure);
      if err.None? {
        db.posts := SoftDeleteRows(db.posts, postId, now);
      }
    }
  }
}
