/**
 * The values the data-access layer hands to its callers (model/models.go and
 * the revisions of model.Post and model.User that the DAOs are written for),
 * and the NULL conversions the scans perform.
 */
module Model {
  import opened Wrappers
  import opened Schema

  /** model.Post as dao/post_dao.go and dao/find_dao.go use it: the image URL,
      the parent id and the timestamps are pointers, nil for NULL. */
  datatype Post = Post(
    postId: string,
    userId: string,
    content: string,
    imgUrl: Option<string>,
    createdAt: nat,
    editedAt: Option<nat>,
    deletedAt: Option<nat>,
    parentPostId: Option<string>,
    isBad: bool)

  /** model.Post as dao/post/posts_dao.go and dao/timeline_dao.go read it:
      after model/models.go the parent id is a string, "" for none, and
      there is no moderation flag. The image column stays nullable; a NULL
      scanned into Go's string `ImgURL` is a scan error, covered by the
      failure input (`Fault` for a row loop, `failure` for a QueryRow). */
  datatype LegacyPost = LegacyPost(
    postId: string,
    userId: string,
    content: string,
    imgUrl: Option<string>,
    createdAt: nat,
    editedAt: Option<nat>,
    deletedAt: Option<nat>,
    parentPostId: string)

  /** model.User as model/models.go declares it: what a profile write carries. */
  datatype User = User(userId: string, name: string, bio: string, profileImgUrl: string)

  /** A user as the read queries return one; a column the query does not
      select is None. */
  datatype UserCard = UserCard(
    userId: string,
    name: string,
    bio: Option<string>,
    profileImgUrl: Option<string>,
    headerImgUrl: Option<string>)

  /** A NullString read into a string: NULL becomes "", anything else its value. */
  function NullToEmpty(o: Option<string>): (s: string)
    ensures o.None? ==> s == ""
    ensures o.Some? ==> s == o.value
  {
    if o.Some? then o.value else ""
  }

  /** A string written to a nullable column with "" standing for NULL. */
  function EmptyToNull(s: string): (o: Option<string>)
    ensures o.None? <==> s == ""
    ensures o.Some? ==> o.value == s
  {
    if s == "" then None else Some(s)
  }

  /** Writing a string with "" as NULL and reading it back gives the string. */
  lemma EmptyToNullRoundTrip(s: string)
    ensures NullToEmpty(EmptyToNull(s)) == s
  {
  }

  /** Reading a column as a string and writing it back restores it, unless it
      held "" (which comes back as NULL). */
  lemma NullToEmptyRoundTrip(o: Option<string>)
    requires o != Some("")
    ensures EmptyToNull(NullToEmpty(o)) == o
  {
  }

  /** The post a scan of every posts column yields (dao/post_dao.go); the
      deletion time is checked by the caller and never copied. */
  function PostOf(r: PostRow): Post
  {
    Post(r.postId, r.userId, r.content, r.imgUrl, r.createdAt, r.editedAt, None, r.parentPostId, r.isBad)
  }

  /** The post a scan of the columns of model/models.go yields, with a NULL
      parent read as "" (dao/post/posts_dao.go, dao/timeline_dao.go). */
  function LegacyPostOf(r: PostRow): LegacyPost
  {
    LegacyPost(r.postId, r.userId, r.content, r.imgUrl, r.createdAt, r.editedAt, None, NullToEmpty(r.parentPostId))
  }

  /** The user a scan of `user_id, name, bio, profile_img_url` yields. */
  function CardOf(r: UserRow): UserCard
  {
    UserCard(r.userId, r.name, r.bio, r.profileImgUrl, None)
  }
}
