/** dao/post_dao.go: the posts DAO that dao.PostDAO's callers use. */
module PostDao {
  import opened Wrappers
  import opened Relational
  import opened Sql
  import opened Schema
  import opened Model
  import opened PostTable

  /** An `INSERT INTO table (columns) VALUES (?, ...)` statement. */
  datatype Insert = Insert(table: string, columns: seq<string>, placeholders: nat)

  /** MySQL refuses to prepare an INSERT whose value list is not as long as its
      column list (error 1136, "Column count doesn't match value count"). */
  const WrongValueCount: nat := 1136

  function InsertError(stmt: Insert, failure: Option<nat>): (e: Option<Error>)
    ensures |stmt.columns| != stmt.placeholders ==> e == Some(DbError(WrongValueCount))
    ensures |stmt.columns| == stmt.placeholders ==> e == ExecError(failure)
  {
    if |stmt.columns| != stmt.placeholders then Some(DbError(WrongValueCount)) else ExecError(failure)
  }

  const PostColumns: seq<string> :=
    ["post_id", "user_id", "content", "img_url", "created_at", "parent_post_id", "is_bad"]

  /** The statement of dao/post_dao.go:22 as written: seven columns, six `?`. */
  const CreatePostInsertAsWritten: Insert := Insert("posts", PostColumns, 6)

  /** The statement with one `?` per column, as the seven arguments intend. */
  const CreatePostInsert: Insert := Insert("posts", PostColumns, 7)

  /** As written, the insert fails for every post, whatever the store does. */
  lemma CreatePostAsWrittenAlwaysFails(failure: Option<nat>)
    ensures InsertError(CreatePostInsertAsWritten, failure) == Some(DbError(WrongValueCount))
  {
  }

  /** With seven placeholders the insert fails only when the store does. */
  lemma CreatePostInsertRuns(failure: Option<nat>)
    ensures InsertError(CreatePostInsert, failure) == ExecError(failure)
  {
  }

  /** The row the insert stores for `post`: its own columns, NULL edit and
      deletion times, and `is_bad = false`. */
  function NewRow(post: Post): (r: PostRow)
    ensures r.postId == post.postId && r.userId == post.userId && r.content == post.content
    ensures r.imgUrl == post.imgUrl && r.createdAt == post.createdAt && r.parentPostId == post.parentPostId
    ensures r.editedAt.None? && r.deletedAt.None? && !r.isBad
  {
    PostRow(post.postId, post.userId, post.content, post.imgUrl, post.createdAt, None, post.parentPostId, None, false)
  }

  /** The text GetPost reports for a soft-deleted post. */
  const DeletedMessage: string := "投稿が削除されています"

  /** `SELECT ... FROM posts WHERE parent_post_id = ? AND deleted_at IS NULL`. */
  function ChildRows(rows: seq<PostRow>, parent: string): (r: seq<PostRow>)
    ensures forall x :: x in r <==> x in rows && x.parentPostId == Some(parent) && Live(x)
    ensures forall x :: multiset(r)[x] == if x.parentPostId == Some(parent) && Live(x) then multiset(rows)[x] else 0
  {
    Filter(rows, (x: PostRow) => x.parentPostId == Some(parent) && Live(x))
  }

  /** What GetPost answers for a table, an id and the store's behaviour. */
  function GetPostResult(rows: seq<PostRow>, id: string, failure: Option<nat>): (r: Result<Post>)
    ensures failure.Some? ==> r == Err(DbError(failure.value))
    ensures failure.None? && (forall x :: x in rows ==> x.postId != id) ==> r == Err(NoRows)
    ensures failure.None? && RowById(rows, id).Some? && !Live(RowById(rows, id).value) ==> r == Err(Message(DeletedMessage))
    ensures r.Ok? <==> failure.None? && RowById(rows, id).Some? && Live(RowById(rows, id).value)
    ensures r.Ok? ==> r.value == PostOf(RowById(rows, id).value)
  {
    if failure.Some? then Err(DbError(failure.value))
    else match RowById(rows, id)
      case None => Err(NoRows)
      case Some(row) => if row.deletedAt.Some? then Err(Message(DeletedMessage)) else Ok(PostOf(row))
  }

  /** The HTTP status controller/post_controller.go:56-61 answers for a
      failed lookup: 410 for the deletion message, 404 for anything else. */
  function GetPostStatus(e: Error): (status: nat)
    ensures status == 410 <==> e == Message(DeletedMessage)
    ensures status != 410 ==> status == 404
  {
    if e == Message(DeletedMessage) then 410 else 404
  }

  /** A deleted post and a missing post never get the same answer. */
  lemma GoneIsNotNotFound(rows: seq<PostRow>, id: string, other: string)
    requires RowById(rows, id).Some? && !Live(RowById(rows, id).value)
    requires forall x :: x in rows ==> x.postId != other
    ensures GetPostStatus(GetPostResult(rows, id, None).error) == 410
    ensures GetPostStatus(GetPostResult(rows, other, None).error) == 404
  {
  }

  /** Creating a post under a fresh id and reading it back gives the post as
      created, not flagged, with no edit time. */
  lemma CreateThenGet(rows: seq<PostRow>, post: Post)
    requires forall x :: x in rows ==> x.postId != post.postId
    ensures GetPostResult(rows + [NewRow(post)], post.postId, None) == Ok(post.(editedAt := None, deletedAt := None, isBad := false))
  {
    var row := NewRow(post);
    FirstWhereUnique(rows + [row], (x: PostRow) => x.postId == post.postId, row);
  }

  class PostDAO {
    const db: Store

    constructor (db: Store)
      ensures this.db == db
    {
      this.db := db;
    }

    /** CreatePost with the statement as written: the store refuses it and the
        table is left alone. */
    method CreatePostAsWritten(post: Post, failure: Option<nat>) returns (r: Result<Post>)
      ensures r == Err(DbError(WrongValueCount))
    {
      var e := InsertError(CreatePostInsertAsWritten, failure);
      CreatePostAsWrittenAlwaysFails(failure);
      r := Err(e.value);
    }

    /** CreatePost: stores one row for `post` with `is_bad = false` and returns
        `post` unchanged, or returns the store's error and stores nothing. */
    method CreatePost(post: Post, failure: Option<nat>) returns (r: Result<Post>)
      modifies db`posts
      ensures failure.Some? ==> r == Err(DbError(failure.value)) && db.posts == old(db.posts)
      ensures failure.None? ==> r == Ok(post) && db.posts == old(db.posts) + [NewRow(post)]
    {
      var e := InsertError(CreatePostInsert, failure);
      if e.Some? {
        return Err(e.value);
      }
      db.posts := db.posts + [NewRow(post)];
      return Ok(post);
    }

    /** GetPost: NoRows for an unknown id, the deletion message for a
        soft-deleted row, otherwise the row with NULL columns as nil. */
    method GetPost(postId: string, failure: Option<nat>) returns (r: Result<Post>)
      ensures r == GetPostResult(db.posts, postId, failure)
      ensures r.Ok? ==> exists x :: x in db.posts && x.postId == postId && Live(x) && r.value == PostOf(x)
    {
      if failure.Some? {
        return Err(DbError(failure.value));
      }
      var row := RowById(db.posts, postId);
      if row.None? {
        return Err(NoRows);
      }
      if row.value.deletedAt.Some? {
        return Err(Message(DeletedMessage));
      }
      return Ok(PostOf(row.value));
    }

    /** UpdatePost: reads the clock, then sets content, image and edit time on
        the live row with that id; a deleted or unknown id is a silent no-op. */
    method UpdatePost(post: Post, failure: Option<nat>) returns (err: Option<Error>)
      modifies db`posts, db`clock
      ensures db.clock == old(db.clock) + 1
      ensures err == ExecError(failure)
      ensures failure.Some? ==> db.posts == old(db.posts)
      ensures failure.None? ==> db.posts == EditRows(old(db.posts), post.postId, post.content, post.imgUrl, old(db.clock))
    {
      var editedAt := db.Now();
      err := ExecError(failure);
      if err.None? {
        db.posts := EditRows(db.posts, post.postId, post.content, post.imgUrl, editedAt);
      }
    }

    /** DeletePost: stamps `deleted_at` on every row with that id. */
    method DeletePost(postId: string, failure: Option<nat>) returns (err: Option<Error>)
      modifies db`posts, db`clock
      ensures db.clock == old(db.clock) + 1
      ensures err == ExecError(failure)
      ensures failure.Some? ==> db.posts == old(db.posts)
      ensures failure.None? ==> db.posts == SoftDeleteRows(old(db.posts), postId, old(db.clock))
    {
      var now := db.Now();
      err := ExecError(failure);
      if err.None? {
        db.posts := SoftDeleteRows(db.posts, postId, now);
      }
    }

    /** GetChildrenPosts: the live direct replies to `parentPostId`, each
        scanned with NULL columns as nil, or the error alone. */
    method GetChildrenPosts(parentPostId: string, fault: Fault) returns (r: Result<seq<Post>>)
      ensures r == Collect(ChildRows(db.posts, parentPostId), PostOf, fault)
    {
      var rows := ChildRows(db.posts, parentPostId);
      r := ScanRows(rows, PostOf, fault);
    }
  }
}
