# A verified model of the micro-blog backend's data and use-case layers

The system is a Go REST backend for a small Twitter-like service. It has
users, posts with replies and soft deletion, follow edges, likes and keyword
search. It also has features that ask a text-generation service (Gemini) to
write a bio, a name or a post continuation, to moderate a post, and to
recommend unfollowed users. This project models in Dafny:

- the data-access objects (DAOs) that run SQL over the `posts`, `users`,
  `followers` and `likes` tables;
- the use cases that check input before calling a DAO;
- the prompts the generation features build.

The project then proves what those operations promise.

How it is laid out:

- **The store** (`schema.dfy`) is one `Store` class. Every table is a `seq`
  of rows in storage order, and a nullable column is an `Option`. A clock
  stands for `time.Now()`.
- **Statements**: each SQL statement is a function from the table before to
  the table after, or to the rows selected. These live in `post_table.dfy`,
  `follow_table.dfy`, `like_table.dfy`, `user_table.dfy`, and the `...Rows`
  functions of the DAO files. They are built from the relational primitives
  in `relational.dfy`: filter, update-where, first-match, stable descending
  sort, and inner join with multiplicities. Each query's meaning is proved
  in a `...Contents` lemma: exactly which rows and how many times each, and
  for a query with `ORDER BY`, that its rows come in that order. A WHERE
  without `ORDER BY` keeps storage order (`Relational.FilterAppend`).
- **DAOs**: each DAO is a class holding a `Store`, with one method per Go
  method. A write `modifies` the table it changes and states the whole new
  table.
  - A failing statement is an input: `failure: Option<nat>` for
    `Exec`/`QueryRow`, and `Fault` for a query and its scan loop.
  - Every `for rows.Next()` loop is modelled once, as `Sql.ScanRows`. It is
    proved equal to `Sql.Collect`: either every scanned row in delivery
    order, or the first error alone.
- **Use cases** are classes holding their DAO. Their guards are functions
  whose contracts state exactly which inputs pass and which message each
  failure carries.
- **Go's `len`** counts UTF-8 bytes; it is modelled by `GoStrings.Utf8Len`.
- **SQL `LIKE`** is `GoStrings.Like`, with MySQL's default escape `\`. It is
  proved to be substring search for a keyword without `%`, `_` or `\`
  (`GoStrings.LikeInfix`). The keyword `\` is not such a search: its pattern
  `%\%` matches `a%` but not `a\` (`GoStrings.EscapedKeyword`).
- **The generation service** is a function parameter
  `generate: string -> Result<string>`. Each generation use case also
  returns the prompt it sent, or `None` when it never called the service.

Decisions where the program is ambiguous:

- **Two revisions of the value types.** model/models.go declares a post's
  parent as a string and a user's bio as a string. dao/post_dao.go,
  dao/find_dao.go and dao/gemini_dao.go are written against pointers.
  - `Model.Post` and `Model.UserCard` carry `Option`s.
  - `Model.LegacyPost` keeps the string parent that dao/post/posts_dao.go
    and dao/timeline_dao.go read.
  - A NULL scanned straight into a Go string is a scan error in Go. Here it
    is covered by the failure input (`Fault` for a row loop, `failure` for a
    QueryRow), not tied to the NULL.
- **Row order without `ORDER BY`** is storage order (join order for joins).
  Ties under `ORDER BY created_at DESC` keep storage order. SQL promises
  neither, so every list property is also stated as a multiset or membership
  fact.
- **Defaults.** `is_bad` is taken to default to false when the insert of
  dao/post/posts_dao.go omits it. `users.created_at` is taken to be set by
  the store at insert.
- **Characters versus bytes.** The messages at usecase/auth_usecase.go:25
  and usecase/user_register_usecase.go:20 say "50 characters", but `len`
  counts bytes. `UserUsecase.NameLimitCountsBytes` shows a 17-kanji name
  being refused.
- **Undefined DAO methods.** usecase/timeline_usecase.go:24 and :32 call
  `FetchUserTimeline` and `FetchUserPosts`, which the timeline DAO does not
  define. The model calls `GetUserTimeline` and `GetUserPosts`.
- **The timeline omits the requester's own posts**, because the join goes
  only through follow edges (`TimelineDao.TimelineOmitsOwnPosts`).
- **NULL helpers.** `sqlNullString` (dao/post_dao.go:26, 28, 87) and
  `nullableToPointer` (dao/post_dao.go:72-73, dao/find_dao.go:48-50 and
  91-92, dao/gemini_dao.go:141) are not defined in any file of this model. They are
  taken to map nil to NULL and back, copying a non-nil value unchanged, so a
  pointer to "" is stored as "" and not as NULL.
- **Duplicate insert statement.** dao/auth/users_dao.go issues the same
  statement as dao/auth_dao.go, so `AuthDao.AuthDAO.RegisterUser` stands for
  both.

## Model

| member | source | states |
|---|---|---|
| Sql.ExecError | dao/follow_dao.go:21-25 | a statement reports no error exactly when the store does not fail, and otherwise the store's own error |
| Sql.Fails | dao/gemini_dao.go:50-72 | Defines when a query and its scan loop end in an error: the query itself fails, or the scan of a row that is actually delivered fails |
| Sql.Collect | dao/gemini_dao.go:50-72 | a query and its scan loop fail exactly when the query fails or a delivered row's scan fails, with that error; otherwise every row, in order, scanned |
| Sql.ScanRows | dao/gemini_dao.go:61-72 | the `for rows.Next()` loop returns exactly `Collect`: all scanned rows in delivery order, or the first failure's error and no rows |
| Relational.Filter | dao/post_dao.go:109 | a WHERE keeps exactly the rows satisfying the condition, each as often as stored |
| Relational.FilterAppend | dao/find_dao.go:20-23 | a WHERE keeps storage order: the kept rows of an earlier part of a table come before the kept rows of a later part |
| Relational.Map | dao/follow_dao.go:44-53 | the scan loop's output has one value per delivered row, the scan of that row, at the same position |
| Relational.UpdateWhere | dao/post_dao.go:85 | an UPDATE changes exactly the rows matching its WHERE, by the SET, and keeps the row count |
| Relational.FirstWhere | dao/post_dao.go:44-47 | QueryRow reads the first matching row, or reports none exactly when no row matches |
| Relational.SortDesc | dao/timeline_dao.go:26 | ORDER BY ... DESC yields a descending order and the same multiset of rows |
| Relational.JoinMatches | dao/follow_dao.go:37 | an INNER JOIN lists a row exactly when it is stored and some edge matches it |
| Relational.JoinMatchesCount | dao/follow_dao.go:37 | an INNER JOIN lists each row as many times as it is stored times the number of edges it matches |
| GoStrings.Utf8Len | usecase/user_usecase.go:32 | Defines Go's `len` on a string: the sum of its characters' UTF-8 byte counts (bounded by Utf8LenAtLeast, Utf8LenAscii, Utf8LenThreeByte) |
| GoStrings.CharUtf8Len | usecase/user_usecase.go:32 | a character takes 1 to 4 UTF-8 bytes, and 1 exactly when it is ASCII |
| GoStrings.Utf8LenAtLeast | usecase/user_usecase.go:32 | Go's `len` lies between the character count and four times it |
| GoStrings.Utf8LenAscii | usecase/user_usecase.go:32 | Go's `len` equals the character count exactly when every character is ASCII |
| GoStrings.Utf8LenThreeByte | usecase/user_usecase.go:32 | every character from U+0800 to U+FFFF, kana and kanji among them, takes three bytes |
| GoStrings.Join | usecase/gemini_usecase.go:27 | Defines `strings.Join`: the parts in order with the separator between neighbours, "" for no parts (inverted by SplitJoin) |
| GoStrings.SplitJoin | usecase/gemini_usecase.go:27 | lines joined by "\n" split back into the same lines when none holds a newline |
| GoStrings.Like | dao/find_dao.go:23-24 | Defines MySQL `LIKE`: `%` matches any run, `_` any one character, `\` makes the next character literal, all else matches itself exactly (characterised by LikeInfix, EscapedKeyword, LikeEmptyKeyword) |
| GoStrings.LikeInfix | dao/find_dao.go:23-24 | `s LIKE "%"+k+"%"` holds exactly when `s` contains `k`, for `k` without `%`, `_` or `\` |
| GoStrings.EscapedKeyword | dao/find_dao.go:23-24 | the keyword `\` gives the pattern `%\%`, which matches `a%` and not `a\`: an escaped `%` is literal |
| GoStrings.LikeEmptyKeyword | dao/find_dao.go:24 | the empty keyword's pattern `%%` matches every string |
| Model.NullToEmpty | dao/post/posts_dao.go:76-80 | a NULL parent reads as "", any other value as itself |
| Model.EmptyToNull | dao/post/posts_dao.go:23-28 | "" is written as NULL, any other string as itself |
| Model.EmptyToNullRoundTrip | dao/post/posts_dao.go:23-28 | writing a parent id and reading it back gives the same string |
| Model.NullToEmptyRoundTrip | dao/post/posts_dao.go:76-80 | reading a column and writing it back restores it unless it held "" |
| Model.PostOf | dao/post_dao.go:47-76 | Defines the post a scan of every posts column yields: each column copied with NULLs as nil, and no deletion time, since the caller has already refused a deleted row |
| Model.LegacyPostOf | dao/timeline_dao.go:40-55 | Defines the post a scan of the model/models.go columns yields: each column copied, a NULL parent read as "" |
| Model.CardOf | dao/follow_dao.go:47 | Defines the user a scan of `user_id, name, bio, profile_img_url` yields: those four columns, NULLs as nil, and no header image |
| Schema.PostCreatedAt | dao/timeline_dao.go:26 | Defines the sort key of `ORDER BY p.created_at DESC`: a post row's `created_at` |
| Schema.UserCreatedAt | dao/gemini_dao.go:121 | Defines the sort key of `ORDER BY u.created_at DESC`: a user row's `created_at` |
| Schema.Store.constructor | dao/init_dao.go:49 | a newly opened store has every table empty and its clock at 0 |
| Schema.Store.Now | dao/post_dao.go:83 | `time.Now()` returns the current reading and advances the clock |
| PostTable.Live | dao/timeline_dao.go:66 | Defines `deleted_at IS NULL`: a row is live exactly when it has no deletion time |
| PostTable.RowById | dao/post_dao.go:44-46 | the lookup by id finds a row with that id, deleted or not, exactly when one exists |
| PostTable.EditRows | dao/post_dao.go:84-90 | the edit sets content, image and edit time on exactly the live rows with the id; nothing else changes |
| PostTable.EditSkipsDeleted | dao/post_dao.go:85 | editing an id with no live row leaves the table unchanged |
| PostTable.SoftDeleteRows | dao/post_dao.go:99 | the delete stamps `deleted_at` on every row with the id, deleted before or not, and changes nothing else |
| PostTable.SoftDeleteThenLookup | dao/post_dao.go:99 | after a delete the id's row is still found, and it is deleted |
| PostTable.UserPostRows | dao/timeline_dao.go:63-68 | Defines the user's post query: the live rows of the user, sorted newest first (UserPostRowsContents states which rows) |
| PostTable.UserPostRowsContents | dao/timeline_dao.go:63-68 | a user's post list is exactly that user's live posts, each as often as stored, newest first |
| PostDao.InsertError | dao/post_dao.go:21-30 | an INSERT whose placeholder count differs from its column count fails with MySQL error 1136; otherwise it fails as the store does |
| PostDao.CreatePostAsWrittenAlwaysFails | dao/post_dao.go:22 | the insert as written fails for every post and every store behaviour |
| PostDao.CreatePostInsertRuns | dao/post_dao.go:22-29 | with seven placeholders the insert fails only when the store fails |
| PostDao.NewRow | dao/post_dao.go:21-30 | the stored row copies the post's columns, with no edit or deletion time and `is_bad` false |
| PostDao.ChildRows | dao/post_dao.go:108-111 | the child query selects exactly the live rows whose parent is the id, each as often as stored |
| PostDao.GetPostResult | dao/post_dao.go:39-79 | lookup: the store's error; NoRows for an unknown id; the deletion message for a deleted row; otherwise the row with NULLs as nil, exactly when a live row exists |
| PostDao.GetPostStatus | controller/post_controller.go:55-62 | the deletion message maps to 410 and every other failure to 404 |
| PostDao.GoneIsNotNotFound | controller/post_controller.go:55-62 | a deleted post answers 410 and a missing one 404 |
| PostDao.CreateThenGet | dao/post_dao.go:20-79 | a post created under a fresh id reads back as created, unflagged, with no edit time |
| PostDao.PostDAO.constructor | dao/post_dao.go:15-17 | the DAO holds the given store |
| PostDao.PostDAO.CreatePostAsWritten | dao/post_dao.go:20-36 | CreatePost as written always returns error 1136 |
| PostDao.PostDAO.CreatePost | dao/post_dao.go:20-36 | CreatePost appends exactly the post's row and returns the post, or returns the store's error and stores nothing |
| PostDao.PostDAO.GetPost | dao/post_dao.go:39-79 | GetPost answers `GetPostResult`; a success is the scan of a stored live row with the id |
| PostDao.PostDAO.UpdatePost | dao/post_dao.go:82-95 | UpdatePost reads the clock, and sets the edit on the live row with the id exactly when the store does not fail |
| PostDao.PostDAO.DeletePost | dao/post_dao.go:98-104 | DeletePost reads the clock, and soft-deletes every row with the id exactly when the store does not fail |
| PostDao.PostDAO.GetChildrenPosts | dao/post_dao.go:107-148 | the live direct replies, scanned with NULLs as nil, or the error alone |
| LegacyPostDao.NewLegacyRow | dao/post/posts_dao.go:23-33 | a "" parent is stored as NULL and any other parent as itself; the unlisted columns are NULL or false |
| LegacyPostDao.GetLegacyPostResult | dao/post/posts_dao.go:42-88 | lookup: the store's error; "投稿が見つかりません" for an unknown id; the deletion message for a deleted row; otherwise the row with a NULL parent as "" |
| LegacyPostDao.MissingAndDeletedDiffer | dao/post/posts_dao.go:62-73 | a missing post and a deleted post get different errors |
| LegacyPostDao.CreateThenGet | dao/post/posts_dao.go:22-88 | a post created under a fresh id reads back with the same parent string, "" included |
| LegacyPostDao.PostsDAO.constructor | dao/post/posts_dao.go:17-19 | the DAO holds the given store |
| LegacyPostDao.PostsDAO.CreatePost | dao/post/posts_dao.go:22-39 | CreatePost appends exactly the post's row, with a "" parent as NULL, or returns the store's error and stores nothing |
| LegacyPostDao.PostsDAO.GetPost | dao/post/posts_dao.go:42-88 | GetPost answers `GetLegacyPostResult` |
| LegacyPostDao.PostsDAO.UpdatePost | dao/post/posts_dao.go:91-99 | UpdatePost reads the clock and edits only the live row with the id, unless the store fails |
| LegacyPostDao.PostsDAO.DeletePost | dao/post/posts_dao.go:102-108 | DeletePost reads the clock and soft-deletes every row with the id, unless the store fails |
| FollowTable.Follows | dao/follow_dao.go:21 | Defines the follow relation: `a` follows `b` exactly when some `followers` row is the edge (a, b) |
| FollowTable.AddEdge | dao/follow_dao.go:21 | after the insert `a` follows `b`, and every other follow relation is as before |
| FollowTable.RemoveEdges | dao/follow_dao.go:29 | after the delete `a` no longer follows `b`; every other edge stays, as often as it was |
| FollowTable.RemoveAbsentEdge | dao/follow_dao.go:29 | unfollowing someone not followed leaves the table exactly as it was |
| FollowTable.FollowerOn | dao/follow_dao.go:37 | Defines the join condition `u.user_id = f.user_id AND f.following_user_id = v` |
| FollowTable.FollowingOn | dao/follow_dao.go:57 | Defines the join condition `u.user_id = f.following_user_id AND f.user_id = u` |
| FollowTable.FollowerRows | dao/follow_dao.go:37 | Defines the follower query as the inner join of `users` and `followers` on FollowerOn (FollowerRowsContents states which rows) |
| FollowTable.FollowingRows | dao/follow_dao.go:57 | Defines the following query as the inner join of `users` and `followers` on FollowingOn (FollowingRowsContents states which rows) |
| FollowTable.FollowerRowsContents | dao/follow_dao.go:37 | the follower query lists exactly the registered users who follow `v`, once per edge |
| FollowTable.FollowingRowsContents | dao/follow_dao.go:57 | the following query lists exactly the registered users `u` follows, once per edge |
| FollowTable.FollowerFollowingDuality | dao/follow_dao.go:37-57 | `u` is among `v`'s followers exactly when `v` is among those `u` follows |
| FollowTable.RemoveThenNotFollower | dao/follow_dao.go:28-54 | after `a` unfollows `b`, `a` is not among `b`'s followers and every other follower still is |
| FollowTable.FollowerCards | dao/follow_dao.go:36-54 | a successful follower list holds a card exactly when it is the card of a registered follower |
| FollowTable.FollowingCards | dao/follow_dao.go:56-74 | a successful following list holds a card exactly when it is the card of a followed registered user |
| FollowDao.FollowDAO.constructor | dao/follow_dao.go:16-18 | the DAO holds the given store |
| FollowDao.FollowDAO.AddFollow | dao/follow_dao.go:20-26 | AddFollow reads the clock and appends the stamped edge, unless the store fails |
| FollowDao.FollowDAO.RemoveFollow | dao/follow_dao.go:28-34 | RemoveFollow deletes exactly the pair's edges, unless the store fails |
| FollowDao.FollowDAO.GetFollowers | dao/follow_dao.go:36-54 | the scan of the follower join, or the error alone |
| FollowDao.FollowDAO.GetFollowing | dao/follow_dao.go:56-74 | the scan of the following join, or the error alone |
| FollowersDao.FollowersDAO.constructor | dao/follow/followers_dao.go:16-18 | the DAO holds the given store |
| FollowersDao.FollowersDAO.AddFollow | dao/follow/followers_dao.go:21-30 | as FollowDAO.AddFollow |
| FollowersDao.FollowersDAO.RemoveFollow | dao/follow/followers_dao.go:33-42 | as FollowDAO.RemoveFollow |
| FollowersDao.FollowersDAO.GetFollowers | dao/follow/followers_dao.go:45-69 | as FollowDAO.GetFollowers |
| FollowersDao.FollowersDAO.GetFollowing | dao/follow/followers_dao.go:72-96 | as FollowDAO.GetFollowing |
| LikeTable.Likes | dao/like_dao.go:20 | Defines the like relation: `u` likes `p` exactly when some `likes` row is the edge (u, p) |
| LikeTable.AddLikeEdge | dao/like_dao.go:20 | after the insert `u` likes `p`, and every other like is as before |
| LikeTable.RemoveLikeEdges | dao/like_dao.go:29 | after the delete `u` no longer likes `p`; every other like stays, as often as it was |
| LikeTable.RemoveAbsentLike | dao/like_dao.go:29 | removing a like that is not there leaves the table unchanged |
| LikeTable.LikerOn | dao/like_dao.go:38 | Defines the join condition `u.user_id = l.user_id AND l.post_id = p` |
| LikeTable.LikerRows | dao/like_dao.go:38 | Defines the liker query as the inner join of `users` and `likes` on LikerOn, without the posts table (LikerRowsContents states which rows) |
| LikeTable.LikerRowsContents | dao/like_dao.go:38 | the liker query lists exactly the registered users who like `p`, once per like |
| LikeTable.RemoveThenNotLiker | dao/like_dao.go:28-38 | after the like (u, p) is removed, `u` is not a liker of `p` and every other liker still is |
| LikeTable.LikerCards | dao/like_dao.go:37-71 | a successful liker list holds a value exactly when it is the scan of a registered liker |
| LikeDao.LikeDAO.constructor | dao/like_dao.go:14-16 | the DAO holds the given store |
| LikeDao.LikeDAO.AddLike | dao/like_dao.go:19-25 | AddLike reads the clock and appends the stamped like, unless the store fails |
| LikeDao.LikeDAO.RemoveLike | dao/like_dao.go:28-34 | RemoveLike deletes exactly the pair's likes, unless the store fails |
| LikeDao.LikeDAO.GetUsersByPostID | dao/like_dao.go:37-71 | the scan of the liker join with NULLs as nil, or the error alone |
| LikesDao.LikesDAO.constructor | dao/like/likes_dao.go:16-18 | the DAO holds the given store |
| LikesDao.LikesDAO.AddLike | dao/like/likes_dao.go:21-30 | as LikeDAO.AddLike |
| LikesDao.LikesDAO.RemoveLike | dao/like/likes_dao.go:33-42 | as LikeDAO.RemoveLike |
| LikesDao.LikesDAO.GetUsersByPostID | dao/like/likes_dao.go:45-69 | as LikeDAO.GetUsersByPostID |
| TimelineDao.AuthorFollowedBy | dao/timeline_dao.go:24-25 | Defines the join condition `p.user_id = f.following_user_id AND f.user_id = u` |
| TimelineDao.TimelineRows | dao/timeline_dao.go:21-26 | Defines the timeline query: live posts joined with `u`'s follow edges on AuthorFollowedBy, sorted newest first (TimelineRowsContents states which rows) |
| TimelineDao.TimelineRowsContents | dao/timeline_dao.go:21-28 | the timeline is exactly the live posts by authors `u` follows, once per follow edge, newest first |
| TimelineDao.TimelineOmitsOwnPosts | dao/timeline_dao.go:24-25 | without a self-edge, none of `u`'s own posts is on `u`'s timeline |
| TimelineDao.TimelineHidesDeleted | dao/timeline_dao.go:25 | a soft-deleted post is on no timeline |
| TimelineDao.TimelineDAO.constructor | dao/timeline_dao.go:15-17 | the DAO holds the given store |
| TimelineDao.TimelineDAO.GetUserTimeline | dao/timeline_dao.go:20-59 | the timeline rows scanned with a NULL parent as "", or the error alone |
| TimelineDao.TimelineDAO.GetUserPosts | dao/timeline_dao.go:62-100 | the user's live posts, newest first, with a NULL parent as "", or the error alone |
| FindDao.KeyPattern | dao/find_dao.go:24 | Defines the bound argument `"%"+key+"%"` |
| FindDao.UserMatches | dao/find_dao.go:23 | Defines `name LIKE ? OR bio LIKE ?`, where a NULL bio matches nothing |
| FindDao.FoundUserRows | dao/find_dao.go:20-23 | Defines the user search as the WHERE UserMatches over `users` (FoundUsersContents states which rows) |
| FindDao.PostMatches | dao/find_dao.go:62 | Defines `content LIKE ? AND deleted_at IS NULL` |
| FindDao.FoundPostRows | dao/find_dao.go:59-62 | Defines the post search as the WHERE PostMatches over `posts` (FoundPostsContents states which rows) |
| FindDao.FoundUserOf | dao/find_dao.go:37-50 | a found user carries id, name and all three nullable columns |
| FindDao.FoundPostOf | dao/find_dao.go:77-95 | a found post carries the selected columns, no deletion time, and `is_bad` false because it is not selected |
| FindDao.FoundUsersContents | dao/find_dao.go:20-24 | for a keyword without `%`, `_` or `\`, the user search finds exactly the users whose name, or non-NULL bio, contains it |
| FindDao.FoundPostsContents | dao/find_dao.go:59-63 | for a keyword without `%`, `_` or `\`, the post search finds exactly the live posts whose content contains it |
| FindDao.FindHidesDeleted | dao/find_dao.go:62 | a soft-deleted post is never found |
| FindDao.EmptyKeyFindsAllLive | dao/find_dao.go:62-63 | the empty keyword finds every live post |
| FindDao.FindDAO.constructor | dao/find_dao.go:14-16 | the DAO holds the given store |
| FindDao.FindDAO.FindUsersByKey | dao/find_dao.go:19-55 | the scan of the matching users, or the error alone |
| FindDao.FindDAO.FindPostsByKey | dao/find_dao.go:58-100 | the scan of the matching live posts, or the error alone |
| GeminiDao.ContentOf | dao/gemini_dao.go:65 | Defines the scan `rows.Scan(&content)`: a row's content column |
| GeminiDao.UserContentsAreOwn | dao/gemini_dao.go:50-54 | the fetched history holds a text exactly when it is the content of one of the user's live posts |
| GeminiDao.PostContentResult | dao/gemini_dao.go:76-94 | the content of a live post with the id; "投稿が存在しません" whenever none is live, missing and deleted alike; or the store's error |
| GeminiDao.SetIsBadRows | dao/gemini_dao.go:98-102 | the moderation update sets `is_bad` on exactly the live rows with the id and changes nothing else |
| GeminiDao.UnfollowedRows | dao/gemini_dao.go:113-121 | Defines the candidate query over a given edge table: users other than `a` not followed by `a`, sorted newest first (UnfollowedRowsContents states which rows) |
| GeminiDao.UnfollowedRowsContents | dao/gemini_dao.go:113-122 | the candidates are exactly the users other than `a` whom `a` does not follow, each as often as stored, newest first |
| GeminiDao.FollowedNotRecommended | dao/gemini_dao.go:113-122 | once `a` follows `b`, `b` is no candidate for `a` |
| GeminiDao.CandidateOf | dao/gemini_dao.go:135-141 | a candidate carries id, name and bio, with a NULL bio as nil, and no image URLs |
| GeminiDao.UnfollowedAsWrittenIgnoresFollowers | dao/gemini_dao.go:116-119 | reading `follows`, a user `a` followed through AddFollow is still recommended to `a` |
| GeminiDao.GeminiDAO.constructor | dao/gemini_dao.go:22-24 | the DAO holds the given store |
| GeminiDao.GeminiDAO.FetchUserPostContents | dao/gemini_dao.go:49-73 | the contents of the user's live posts, newest first, or the error alone |
| GeminiDao.GeminiDAO.GetPostContent | dao/gemini_dao.go:76-94 | GetPostContent answers `PostContentResult` |
| GeminiDao.GeminiDAO.UpdateIsBad | dao/gemini_dao.go:97-109 | UpdateIsBad sets the flag on the live row with the id and reports no error, or wraps the store's error and changes nothing |
| GeminiDao.GeminiDAO.FetchUnfollowedUsersAsWritten | dao/gemini_dao.go:112-146 | the candidate query as written, over the `follows` table |
| GeminiDao.GeminiDAO.FetchUnfollowedUsers | dao/gemini_dao.go:112-146 | the candidate query over `followers`: the scanned candidates, or the error alone |
| UserTable.UserById | dao/user_dao.go:21 | the lookup finds a row with the id exactly when one exists |
| UserTable.UpdateUserRows | dao/user_dao.go:35 | the profile update sets name, bio and image on exactly the rows with the id and changes nothing else |
| UserTable.GetUserResult | dao/user_dao.go:19-32 | the store's error, NoRows for an unknown id, or the card of the row with the id |
| UserTable.UpdateThenGet | dao/user_dao.go:19-40 | updating a registered user and reading them back gives the new profile |
| UserTable.UpdateUnknownUser | dao/user_dao.go:35 | updating an unknown id changes nothing |
| UserTable.NewUserRow | dao/auth_dao.go:20-21 | the registered row carries id, name, bio and image, no header, and the insert time |
| UserTable.RegisterThenGet | dao/auth_dao.go:19-26 | a user registered under a new id reads back with the given profile |
| UserDao.UserDAO.constructor | dao/user_dao.go:15-17 | the DAO holds the given store |
| UserDao.UserDAO.GetUser | dao/user_dao.go:19-32 | GetUser answers `GetUserResult` |
| UserDao.UserDAO.UpdateUser | dao/user_dao.go:34-40 | UpdateUser applies the profile update, unless the store fails |
| AuthDao.AuthDAO.constructor | dao/auth_dao.go:15-17 | the DAO holds the given store |
| AuthDao.AuthDAO.RegisterUser | dao/auth_dao.go:19-26 | RegisterUser appends the user's row stamped with the clock, unless the store fails |
| PostUsecase.CreateCheck | usecase/post_usecase.go:22-24 | a post passes exactly when its content is non-empty; otherwise "投稿内容が空です" |
| PostUsecase.ReplyCheck | usecase/post_usecase.go:46-48 | a reply passes exactly when it names a non-empty parent; otherwise "リプライ対象の投稿IDが指定されていません" |
| PostUsecase.ReplyAllowsEmptyContent | usecase/post_usecase.go:45-51 | a reply with empty content passes although a post with it would not |
| PostUsecase.PostUseCase.constructor | usecase/post_usecase.go:16-18 | the use case holds the given DAO |
| PostUsecase.PostUseCase.CreatePost | usecase/post_usecase.go:21-27 | a refused post leaves the store untouched; otherwise the post is stamped with the clock and created through the corrected insert |
| PostUsecase.PostUseCase.GetPost | usecase/post_usecase.go:30-32 | the DAO's answer |
| PostUsecase.PostUseCase.UpdatePost | usecase/post_usecase.go:35-37 | the DAO's update |
| PostUsecase.PostUseCase.DeletePost | usecase/post_usecase.go:40-42 | the DAO's soft delete |
| PostUsecase.PostUseCase.ReplyPost | usecase/post_usecase.go:45-51 | a reply without a parent leaves the store untouched; otherwise it is stamped and created through the corrected insert |
| UserUsecase.UserIdCheck | usecase/user_usecase.go:21-23 | an id passes exactly when it is non-empty |
| UserUsecase.ProfileCheck | usecase/user_usecase.go:29-37 | a profile passes exactly when the id is set, the name has 1 to 50 bytes and the bio at most 160; the first failing check chooses the message |
| UserUsecase.NameLimitCountsBytes | usecase/user_usecase.go:32-33 | seventeen kanji are refused as a name |
| UserUsecase.AsciiNameWithinLimit | usecase/user_usecase.go:32 | an ASCII name of 1 to 50 characters passes |
| UserUsecase.UserUseCase.constructor | usecase/user_usecase.go:15-17 | the use case holds the given DAO |
| UserUsecase.UserUseCase.GetUser | usecase/user_usecase.go:20-25 | an empty id is refused without a lookup; otherwise the DAO's answer |
| UserUsecase.UserUseCase.UpdateProfile | usecase/user_usecase.go:28-39 | a refused profile leaves the store untouched; otherwise the DAO's update |
| UserUsecase.UserUseCase.GetUpdatedUser | usecase/user_usecase.go:42-47 | as GetUser |
| AuthUsecase.RegistrationCheck | usecase/auth_usecase.go:21-29 | registration passes exactly when the id is set, the name has 1 to 50 bytes and the bio at most 160; each failure carries its message |
| AuthUsecase.AuthUseCase.constructor | usecase/auth_usecase.go:15-17 | the use case holds the given DAO |
| AuthUsecase.AuthUseCase.RegisterUser | usecase/auth_usecase.go:19-43 | a refused registration returns "" and leaves the store untouched; otherwise the row is inserted and the id returned, or "" and the store's error |
| FindUsecase.KeyCheck | usecase/find_usecase.go:20-22 | a keyword passes exactly when it is non-empty |
| FindUsecase.FindUseCase.constructor | usecase/find_usecase.go:14-16 | the use case holds the given DAO |
| FindUsecase.FindUseCase.FindUsers | usecase/find_usecase.go:19-24 | "" is refused; any other keyword gets the DAO's search |
| FindUsecase.FindUseCase.FindPosts | usecase/find_usecase.go:27-32 | "" is refused; any other keyword gets the DAO's search |
| TimelineUsecase.AuthIdCheck | usecase/timeline_usecase.go:21-23 | an id passes exactly when it is non-empty |
| TimelineUsecase.TimelineUseCase.constructor | usecase/timeline_usecase.go:15-17 | the use case holds the given DAO |
| TimelineUsecase.TimelineUseCase.GetUserTimeline | usecase/timeline_usecase.go:20-25 | "" is refused; any other id gets the DAO's timeline |
| TimelineUsecase.TimelineUseCase.GetUserPosts | usecase/timeline_usecase.go:28-33 | "" is refused; any other id gets the DAO's post list |
| UserRegisterUsecase.Execute | usecase/user_register_usecase.go:17-38 | the name check, then the age check (20 to 80 inclusive), then the DAO; the id on success, "" with the first error otherwise |
| UserRegisterUsecase.RefusedInputSkipsDao | usecase/user_register_usecase.go:19-24 | a refused input gets an error whatever the DAO would do |
| UserRegisterUsecase.BoundaryAgesAccepted | usecase/user_register_usecase.go:22 | ages 20 and 80 are accepted |
| UserRegisterUsecase.MessagesMentionTheirField | usecase/user_register_usecase_test.go:77-79 | each message contains the text the test looks for |
| UserRegisterUsecase.LongNameRefused | usecase/user_register_usecase.go:19-20 | a name of more than 50 characters is always refused |
| UserRegisterUsecase.RegisterValidCase | usecase/user_register_usecase_test.go:43 | the valid case returns its id and no error |
| UserRegisterUsecase.RegisterEmptyNameCase | usecase/user_register_usecase_test.go:46 | the empty name gets an "invalid name" error |
| UserRegisterUsecase.RegisterLongNameCase | usecase/user_register_usecase_test.go:49 | the 67-character test name gets an "invalid name" error |
| UserRegisterUsecase.RegisterAgeCases | usecase/user_register_usecase_test.go:52-55 | ages 19 and 81 get an "invalid age" error |
| GeminiUsecase.InstructionPart | usecase/gemini_usecase.go:28-30 | the instruction section is present exactly for a non-empty instruction, and is " 追加の指示: " followed by it |
| GeminiUsecase.HistoryPrompt | usecase/gemini_usecase.go:26-30 | the prompt starts with the template and the history header, and ends with the instruction section when there is one |
| GeminiUsecase.BioPrompt | usecase/gemini_usecase.go:26-30 | the bio prompt starts with the bio template and the history header |
| GeminiUsecase.NamePrompt | usecase/gemini_usecase.go:42-46 | the name prompt starts with the name template and the history header |
| GeminiUsecase.HistoryRecoverable | usecase/gemini_usecase.go:27 | the history after the header splits back into the fetched posts, in fetch order |
| GeminiUsecase.InstructionOnlyAppends | usecase/gemini_usecase.go:28-30 | an instruction appends its section and changes nothing before it |
| GeminiUsecase.DraftPart | usecase/gemini_usecase.go:65-68 | the draft section is present exactly for a non-empty draft, and ends with the draft |
| GeminiUsecase.ContinuationHead | usecase/gemini_usecase.go:59-61 | Defines the fixed part of the continuation prompt: template, past-history header, the joined history and the politeness line |
| GeminiUsecase.ContinuationPrompt | usecase/gemini_usecase.go:59-68 | the prompt starts with template, history and politeness line; it ends with the draft when there is one, else with the instruction section |
| GeminiUsecase.ContinuationSectionOrder | usecase/gemini_usecase.go:62-68 | the draft section always follows the instruction section, and neither changes what precedes it |
| GeminiUsecase.BadPostPrompt | usecase/gemini_usecase.go:82 | the moderation prompt is the YES/NO question followed by exactly the post's content |
| GeminiUsecase.NullableToString | usecase/gemini_usecase.go:127-132 | a bio reads as itself and NULL as "N/A" |
| GeminiUsecase.NullBioLooksLikeNA | usecase/gemini_usecase.go:127-132 | a NULL bio and the bio "N/A" cannot be told apart in the prompt |
| GeminiUsecase.UserLineText | usecase/gemini_usecase.go:104 | Defines a candidate's line without its newline: `- ID: %s, 名前: %s, 自己紹介: %s` with id, name and NullableToString of the bio |
| GeminiUsecase.UserLine | usecase/gemini_usecase.go:104 | Defines a candidate's line: UserLineText followed by a newline |
| GeminiUsecase.UserLines | usecase/gemini_usecase.go:102-105 | Defines the candidate list: the candidates' lines concatenated in order, "" for none (split back by UserLinesSplit) |
| GeminiUsecase.UserLinesSplit | usecase/gemini_usecase.go:102-105 | the candidate list splits into one line per candidate, in order |
| GeminiUsecase.UserInfo | usecase/gemini_usecase.go:102-105 | the loop builds exactly the candidate list |
| GeminiUsecase.RecommendInstruction | usecase/gemini_usecase.go:110-112 | the instruction line is present exactly for a non-empty instruction |
| GeminiUsecase.RecommendPrompt | usecase/gemini_usecase.go:108-113 | the prompt starts with the request and the candidate list, and always ends with the closing line |
| GeminiUsecase.RecommendInstructionPlaced | usecase/gemini_usecase.go:108-113 | after the candidate list the prompt holds exactly the optional instruction line, then the closing line; a non-empty instruction appears there, as " 追加の指示: " plus it and a newline |
| GeminiUsecase.RecommendListsCandidates | usecase/gemini_usecase.go:102-113 | the candidate block of the prompt holds one line per candidate, in order |
| GeminiUsecase.GeminiUseCase.constructor | usecase/gemini_usecase.go:15-17 | the use case holds the given DAO |
| GeminiUsecase.GeminiUseCase.GenerateBio | usecase/gemini_usecase.go:20-33 | a failed fetch is wrapped and the service is never called; otherwise the bio prompt is sent, even for an empty history, and the reply returned as is |
| GeminiUsecase.GeminiUseCase.GenerateName | usecase/gemini_usecase.go:36-49 | as GenerateBio, with the name prompt |
| GeminiUsecase.GeminiUseCase.GenerateTweetContinuation | usecase/gemini_usecase.go:52-71 | as GenerateBio, with the continuation prompt |
| GeminiUsecase.GeminiUseCase.CheckIfPostIsBad | usecase/gemini_usecase.go:74-86 | a failed content fetch is wrapped and the service is never called; otherwise the moderation prompt is sent |
| GeminiUsecase.GeminiUseCase.UpdateIsBad | usecase/gemini_usecase.go:89-91 | the DAO's moderation update |
| GeminiUsecase.GeminiUseCase.RecommendUsers | usecase/gemini_usecase.go:94-124 | a failed fetch is wrapped and the service is never called; otherwise the recommendation prompt over the corrected candidate query is sent, and a service failure is wrapped too |

## Left out

- PostUsecase.PostUseCase.CreatePost: calls the corrected `PostDao.PostDAO.CreatePost`. As written (usecase/post_usecase.go:26, dao/post_dao.go:22), every post that passes the check reads the clock and then fails with the insert error 1136, storing nothing (see Findings).
- PostUsecase.PostUseCase.ReplyPost: the same; as written (usecase/post_usecase.go:50), every reply that names a parent reads the clock and then fails with error 1136.
- GeminiUsecase.GeminiUseCase.RecommendUsers: calls the corrected `GeminiDao.GeminiDAO.FetchUnfollowedUsers`, which reads `followers`. As written (usecase/gemini_usecase.go:96, dao/gemini_dao.go:118), the candidates come from `follows`, so users followed through AddFollow stay in the prompt (see Findings).
- HTTP handling (controller/*.go, main.go) is not part of this model: routing, JSON decoding and encoding, and status codes. The one exception is the 404/410 choice for a failed post lookup.
- The database connection (dao/init_dao.go) is not part of this model. Each statement is atomic, and there is no concurrency or transaction interleaving.
- `GenerateResponseFromPrompt` is a network client. It is the parameter `generate`, whose reply may be any text or any error, the client's own messages included. A reply (`*genai.Part`) is its text.
- Logging (`log.Printf`, including the one in RecommendUsers) is left out.
- Time is an abstract, strictly increasing clock. There are no time zones or time precision.
- The registration DAO behind usecase/user_register_usecase.go is known only by its interface. It is the parameter `registerUser`.
- usecase/follow_usecase.go, usecase/like_usecase.go and usecase/user_search_usecase.go are one-line pass-throughs and are not part of this model.
- Sql.Collect: a scan failure is an input (`Fault`). It is not derived from a NULL column met by a Go string field.
- Sql.ScanRows: the Go loops never check `rows.Err()` after `for rows.Next()` (for example dao/gemini_dao.go:61-72, dao/follow_dao.go:45-53). An error during iteration would end the loop early and return the rows read so far with a nil error. `Collect` has no such outcome: database/sql iteration errors are not part of this model.
- FindDao.FoundUsersContents: `LIKE` compares characters exactly, where a case-insensitive collation would match more rows. A keyword holding `%`, `_` or the escape `\` is modelled by `Like`, escape included, but not characterised.
- FindDao.FoundPostsContents: the same exact comparison, and the same restriction to keywords without `%`, `_` or `\`.
- Relational.SortDesc: breaks ties in storage order, where SQL leaves them unspecified. `ORDER BY` without a tie-breaker promises only what the `...Contents` lemmas state.
- GeminiUsecase.ContinuationPrompt: its ensures pins only both ends of the prompt. The order of the middle sections is stated by ContinuationSectionOrder.
- GeminiUsecase.UserLinesSplit: requires the ids, names and bios to hold no newline. A newline inside a field would split a candidate's line.
- GeminiUsecase.HistoryRecoverable: requires a non-empty history whose posts hold no newline. An empty history joins to "", which splits into one empty line.

## Findings

| source | as written | input that shows it | evidently intended | confidence | as-written member | corrected member |
|---|---|---|---|---|---|---|
| dao/post_dao.go:22 | The INSERT names seven columns but has six `?` placeholders, while seven arguments are passed. MySQL rejects it with error 1136, so CreatePost never stores a post (`PostDao.CreatePostAsWrittenAlwaysFails`). | any post, for example post_id "p1", user_id "u1", content "hi" | seven placeholders, so the post is stored with `is_bad` false (`PostDao.CreateThenGet`) | high; not executed | PostDao.PostDAO.CreatePostAsWritten | PostDao.PostDAO.CreatePost |
| dao/gemini_dao.go:118 | The recommendation query excludes the users found in a `follows` table, but AddFollow and RemoveFollow write `followers`. A followed user therefore stays a candidate (`GeminiDao.UnfollowedAsWrittenIgnoresFollowers`). | users [b]; AddFollow(a, b) stores (a, b) in `followers`; `follows` is empty; b is still recommended to a | read `followers`, so followed users are never recommended (`GeminiDao.UnfollowedRowsContents`, `GeminiDao.FollowedNotRecommended`) | medium; not executed | GeminiDao.GeminiDAO.FetchUnfollowedUsersAsWritten | GeminiDao.GeminiDAO.FetchUnfollowedUsers |
