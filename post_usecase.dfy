/** usecase/post_usecase.go: the checks in front of the posts DAO. */
module PostUsecase {
  import opened Wrappers
  import opened Sql
  import opened Schema
  import opened Model
  import opened PostTable
  import opened PostDao

  const EmptyContentMessage: string := "投稿内容が空です"
  const MissingParentMessage: string := "リプライ対象の投稿IDが指定されていません"

  /** The check CreatePost runs before anything else: the content must not
      be empty. */
  function CreateCheck(post: Post): (e: Option<Error>)
    ensures e.None? <==> post.content != ""
    ensures e.Some? ==> e.value == Message(EmptyContentMessage)
  {
    if post.content == "" then Some(Message(EmptyContentMessage)) else None
  }

  /** The check ReplyPost runs before anything else: a parent id must be
      given. A nil parent and an empty one both count as missing; the content
      is not checked. */
  function ReplyCheck(post: Post): (e: Option<Error>)
    ensures e.None? <==> post.parentPostId.Some? && post.parentPostId.value != ""
    ensures e.Some? ==> e.value == Message(MissingParentMessage)
  {
    if NullToEmpty(post.parentPostId) == "" then Some(Message(MissingParentMessage)) else None
  }

  /** A reply with empty content passes the reply check. */
  lemma ReplyAllowsEmptyContent(post: Post)
    requires post.content == "" && post.parentPostId.Some? && post.parentPostId.value != ""
    ensures ReplyCheck(post).None? && CreateCheck(post).Some?
  {
  }

  class PostUseCase {
    const postDao: PostDAO

    constructor (postDao: PostDAO)
      ensures this.postDao == postDao
    {
      this.postDao := postDao;
    }

    /** CreatePost: an empty content is refused before the store is touched;
        otherwise the post is stamped with the current time and created. */
    method CreatePost(post: Post, failure: Option<nat>) returns (r: Result<Post>)
      modifies postDao.db`posts, postDao.db`clock
      ensures CreateCheck(post).Some? ==> r == Err(CreateCheck(post).value) && unchanged(postDao.db)
      ensures CreateCheck(post).None? ==> postDao.db.clock == old(postDao.db.clock) + 1
      ensures CreateCheck(post).None? && failure.Some? ==> r == Err(DbError(failure.value)) && postDao.db.posts == old(postDao.db.posts)
      ensures CreateCheck(post).None? && failure.None? ==>
        r == Ok(post.(createdAt := old(postDao.db.clock))) &&
        postDao.db.posts == old(postDao.db.posts) + [NewRow(post.(createdAt := old(postDao.db.clock)))]
    {
      var e := CreateCheck(post);
      if e.Some? {
        return Err(e.value);
      }
      var now := postDao.db.Now();
      r := postDao.CreatePost(post.(createdAt := now), failure);
    }

    /** GetPost: the DAO's answer, unchanged. */
    method GetPost(postId: string, failure: Option<nat>) returns (r: Result<Post>)
      ensures r == GetPostResult(postDao.db.posts, postId, failure)
    {
      r := postDao.GetPost(postId, failure);
    }

    /** UpdatePost: the DAO's update and error, unchanged. */
    method UpdatePost(post: Post, failure: Option<nat>) returns (err: Option<Error>)
      modifies postDao.db`posts, postDao.db`clock
      ensures postDao.db.clock == old(postDao.db.clock) + 1
      ensures err == ExecError(failure)
      ensures failure.Some? ==> postDao.db.posts == old(postDao.db.posts)
      ensures failure.None? ==> postDao.db.posts == EditRows(old(postDao.db.posts), post.postId, post.content, post.imgUrl, old(postDao.db.clock))
    {
      err := postDao.UpdatePost(post, failure);
    }

    /** DeletePost: the DAO's soft delete and error, unchanged. */
    method DeletePost(postId: string, failure: Option<nat>) returns (err: Option<Error>)
      modifies postDao.db`posts, postDao.db`clock
      ensures postDao.db.clock == old(postDao.db.clock) + 1
      ensures err == ExecError(failure)
      ensures failure.Some? ==> postDao.db.posts == old(postDao.db.posts)
      ensures failure.None? ==> postDao.db.posts == SoftDeleteRows(old(postDao.db.posts), postId, old(postDao.db.clock))
    {
      err := postDao.DeletePost(postId, failure);
    }

    /** ReplyPost: a reply without a parent id is refused before the store is
        touched; otherwise it is stamped and created like any post, even with
        empty content. */
    method ReplyPost(post: Post, failure: Option<nat>) returns (r: Result<Post>)
      modifies postDao.db`posts, postDao.db`clock
      ensures ReplyCheck(post).Some? ==> r == Err(ReplyCheck(post).value) && unchanged(postDao.db)
      ensures ReplyCheck(post).None? ==> postDao.db.clock == old(postDao.db.clock) + 1
      ensures ReplyCheck(post).None? && failure.Some? ==> r == Err(DbError(failure.value)) && postDao.db.posts == old(postDao.db.posts)
      ensures ReplyCheck(post).None? && failure.None? ==>
        r == Ok(post.(createdAt := old(postDao.db.clock))) &&
        postDao.db.posts == old(postDao.db.posts) + [NewRow(post.(createdAt := old(postDao.db.clock)))]
    {
      var e := ReplyCheck(post);
      if e.Some? {
        return Err(e.value);
      }
      var now := postDao.db.Now();
      r := postDao.CreatePost(post.(createdAt := now), failure);
    }
  }
}
