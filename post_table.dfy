/**
 * The statements over the `posts` table that more than one DAO issues, as
 * functions from the table before to the table (or the rows) after.
 */
module PostTable {
  import opened Wrappers
  import opened Relational
  import opened Schema

  /** The rows `deleted_at IS NULL` keeps. */
  predicate Live(r: PostRow)
  {
    r.deletedAt.None?
  }

  /** `SELECT ... FROM posts WHERE post_id = ?` read with QueryRow: the first
      row with that id, deleted or not. */
  function RowById(rows: seq<PostRow>, id: string): (r: Option<PostRow>)
    ensures r.None? <==> forall x :: x in rows ==> x.postId != id
    ensures r.Some? ==> r.value in rows && r.value.postId == id
  {
    FirstWhere(rows, (x: PostRow) => x.postId == id)
  }

  /** `UPDATE posts SET content = ?, img_url = ?, edited_at = ?
      WHERE post_id = ? AND deleted_at IS NULL`. Only a live row with that id
      changes, and only in those three columns; no row is added or removed. */
  function EditRows(rows: seq<PostRow>, id: string, content: string, imgUrl: Option<string>, t: nat): (r: seq<PostRow>)
    ensures |r| == |rows|
    ensures forall i :: 0 <= i < |rows| && rows[i].postId == id && Live(rows[i]) ==>
      r[i] == rows[i].(content := content, imgUrl := imgUrl, editedAt := Some(t))
    ensures forall i :: 0 <= i < |rows| && (rows[i].postId != id || !Live(rows[i])) ==> r[i] == rows[i]
  {
    UpdateWhere(rows, (x: PostRow) => x.postId == id && Live(x),
                (x: PostRow) => x.(content := content, imgUrl := imgUrl, editedAt := Some(t)))
  }

  /** Editing an id whose rows are all deleted, or that has no row, changes
      nothing. */
  lemma EditSkipsDeleted(rows: seq<PostRow>, id: string, content: string, imgUrl: Option<string>, t: nat)
    requires forall x :: x in rows && x.postId == id ==> !Live(x)
    ensures EditRows(rows, id, content, imgUrl, t) == rows
  {
    var r := EditRows(rows, id, content, imgUrl, t);
    forall i | 0 <= i < |rows| ensures r[i] == rows[i] {
      assert rows[i] in rows;
    }
  }

  /** `UPDATE posts SET deleted_at = ? WHERE post_id = ?`: every row with that
      id gets the deletion time, whether or not it was deleted before; all
      other columns and rows stay, and no row is removed. */
  function SoftDeleteRows(rows: seq<PostRow>, id: string, t: nat): (r: seq<PostRow>)
    ensures |r| == |rows|
    ensures forall i :: 0 <= i < |rows| && rows[i].postId == id ==> r[i] == rows[i].(deletedAt := Some(t))
    ensures forall i :: 0 <= i < |rows| && rows[i].postId != id ==> r[i] == rows[i]
  {
    UpdateWhere(rows, (x: PostRow) => x.postId == id, (x: PostRow) => x.(deletedAt := Some(t)))
  }

  /** After a soft delete, the id's first row is there and deleted. */
  lemma SoftDeleteThenLookup(rows: seq<PostRow>, id: string, t: nat)
    requires exists x :: x in rows && x.postId == id
    ensures var r := RowById(SoftDeleteRows(rows, id, t), id); r.Some? && !Live(r.value)
  {
    var x :| x in rows && x.postId == id;
    var i :| 0 <= i < |rows| && rows[i] == x;
    assert SoftDeleteRows(rows, id, t)[i].postId == id;
  }

  /** `SELECT ... FROM posts WHERE user_id = ? AND deleted_at IS NULL
      ORDER BY created_at DESC` (UserPostRowsContents says which rows). */
  function UserPostRows(rows: seq<PostRow>, u: string): seq<PostRow>
  {
    SortDesc(Filter(rows, (x: PostRow) => x.userId == u && Live(x)), PostCreatedAt)
  }

  /** A user's post list holds exactly the live posts of `u`, each as often as
      it is stored, newest first. */
  lemma UserPostRowsContents(rows: seq<PostRow>, u: string)
    ensures SortedDesc(UserPostRows(rows, u), PostCreatedAt)
    ensures forall x :: x in UserPostRows(rows, u) <==> x in rows && x.userId == u && Live(x)
    ensures forall x :: multiset(UserPostRows(rows, u))[x] == if x.userId == u && Live(x) then multiset(rows)[x] else 0
  {
    var mine := Filter(rows, (x: PostRow) => x.userId == u && Live(x));
    forall x ensures x in UserPostRows(rows, u) <==> x in mine {
      SortDescMember(mine, PostCreatedAt, x);
    }
  }
}
