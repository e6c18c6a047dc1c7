/**
 * The relational operations the SQL statements of the data-access layer are
 * built from, over tables kept as sequences of rows in storage order:
 * WHERE (Filter), projection (Map), UPDATE ... WHERE (UpdateWhere), a
 * single-row lookup (FirstWhere) and ORDER BY ... DESC (SortDesc).
 */
module Relational {
  import opened Wrappers

  /** `SELECT * WHERE p`: the rows of `s` that satisfy `p`, in storage order. */
  function Filter<T(!new)>(s: seq<T>, p: T -> bool): (r: seq<T>)
    ensures |r| <= |s|
    ensures forall x :: x in r <==> x in s && p(x)
    ensures forall x :: multiset(r)[x] == if p(x) then multiset(s)[x] else 0
  {
    if s == [] then []
    else
      assert s == [s[0]] + s[1..];
      (if p(s[0]) then [s[0]] else []) + Filter(s[1..], p)
  }

  /** A WHERE keeps storage order: the kept rows of an earlier part of the
      table come before the kept rows of a later part. */
  lemma {:induction false} FilterAppend<T(!new)>(a: seq<T>, b: seq<T>, p: T -> bool)
    ensures Filter(a + b, p) == Filter(a, p) + Filter(b, p)
  {
    if a == [] {
      assert a + b == b;
    } else {
      assert (a + b)[0] == a[0];
      assert (a + b)[1..] == a[1..] + b;
      FilterAppend(a[1..], b, p);
    }
  }

  /** A WHERE clause every row satisfies keeps the whole table, in order. */
  lemma {:induction false} FilterAll<T(!new)>(s: seq<T>, p: T -> bool)
    requires forall x :: x in s ==> p(x)
    ensures Filter(s, p) == s
  {
    if s != [] {
      assert s == [s[0]] + s[1..];
      FilterAll(s[1..], p);
    }
  }

  /** Two WHERE clauses that agree on every row select the same rows. */
  lemma {:induction false} FilterSamePredicate<T(!new)>(s: seq<T>, p: T -> bool, q: T -> bool)
    requires forall x :: p(x) == q(x)
    ensures Filter(s, p) == Filter(s, q)
  {
    if s != [] {
      FilterSamePredicate(s[1..], p, q);
    }
  }

  /** Projection: `f` applied to every row, in order. */
  function Map<T, U>(s: seq<T>, f: T -> U): (r: seq<U>)
    ensures |r| == |s|
    ensures forall i :: 0 <= i < |s| ==> r[i] == f(s[i])
  {
    seq(|s|, i requires 0 <= i < |s| => f(s[i]))
  }

  lemma MapMember<T, U>(s: seq<T>, f: T -> U, y: U)
    ensures y in Map(s, f) <==> exists x :: x in s && f(x) == y
  {
    if y in Map(s, f) {
      var i :| 0 <= i < |Map(s, f)| && Map(s, f)[i] == y;
      assert s[i] in s;
    }
  }

  /** `UPDATE ... SET f WHERE p`: every row satisfying `p` is rewritten by `f`;
      no row is added, removed or moved. */
  function UpdateWhere<T>(s: seq<T>, p: T -> bool, f: T -> T): (r: seq<T>)
    ensures |r| == |s|
    ensures forall i :: 0 <= i < |s| ==> r[i] == if p(s[i]) then f(s[i]) else s[i]
  {
    seq(|s|, i requires 0 <= i < |s| => if p(s[i]) then f(s[i]) else s[i])
  }

  /** An UPDATE whose WHERE clause matches no row leaves the table as it was. */
  lemma UpdateNoMatch<T>(s: seq<T>, p: T -> bool, f: T -> T)
    requires forall x :: x in s ==> !p(x)
    ensures UpdateWhere(s, p, f) == s
  {
    var r := UpdateWhere(s, p, f);
    forall i | 0 <= i < |s| ensures r[i] == s[i] {
      assert s[i] in s;
    }
  }

  /** `QueryRow(... WHERE p)`: the first row, in storage order, that satisfies `p`. */
  function FirstWhere<T(!new)>(s: seq<T>, p: T -> bool): (r: Option<T>)
    ensures r.None? <==> forall x :: x in s ==> !p(x)
    ensures r.Some? ==> r.value in s && p(r.value)
    ensures r.Some? ==> exists k :: 0 <= k < |s| && s[k] == r.value && forall j :: 0 <= j < k ==> !p(s[j])
  {
    if s == [] then None
    else if p(s[0]) then Some(s[0])
    else
      var r := FirstWhere(s[1..], p);
      assert r.Some? ==> exists k :: 0 < k < |s| && s[k] == r.value && forall j :: 0 <= j < k ==> !p(s[j]) by {
        if r.Some? {
          var k :| 0 <= k < |s[1..]| && s[1..][k] == r.value && forall j :: 0 <= j < k ==> !p(s[1..][j]);
          assert s[k + 1] == r.value;
          forall j | 0 <= j < k + 1 ensures !p(s[j]) {
            if j > 0 { assert s[j] == s[1..][j - 1]; }
          }
        }
      }
      r
  }

  /** When only one row satisfies `p`, the lookup finds exactly that row. */
  lemma {:induction false} FirstWhereUnique<T(!new)>(s: seq<T>, p: T -> bool, x: T)
    requires x in s && p(x)
    requires forall y :: y in s && p(y) ==> y == x
    ensures FirstWhere(s, p) == Some(x)
  {
  }

  /** `ORDER BY key DESC`: no row is followed by one with a larger key. */
  ghost predicate SortedDesc<T>(s: seq<T>, key: T -> nat)
  {
    forall i, j :: 0 <= i < j < |s| ==> key(s[i]) >= key(s[j])
  }

  /** Inserts `x` into a descending sequence, before the rows with an equal key. */
  function InsertDesc<T>(x: T, s: seq<T>, key: T -> nat): (r: seq<T>)
    requires SortedDesc(s, key)
    ensures SortedDesc(r, key)
    ensures multiset(r) == multiset(s) + multiset{x}
  {
    if s == [] || key(x) >= key(s[0]) then
      assert forall j :: 0 < j < |s| ==> key(s[0]) >= key(s[j]);
      [x] + s
    else
      var t := InsertDesc(x, s[1..], key);
      assert s == [s[0]] + s[1..];
      forall j | 0 <= j < |t| ensures key(s[0]) >= key(t[j]) {
        assert t[j] in multiset(t);
        assert t[j] == x || t[j] in multiset(s[1..]);
        if t[j] != x {
          var m :| 0 <= m < |s[1..]| && s[1..][m] == t[j];
          assert s[m + 1] == t[j];
        }
      }
      [s[0]] + t
  }

  /** `ORDER BY key DESC` over rows delivered in storage order. Rows with equal
      keys keep their storage order; SQL does not promise any order for them. */
  function SortDesc<T>(s: seq<T>, key: T -> nat): (r: seq<T>)
    ensures SortedDesc(r, key)
    ensures multiset(r) == multiset(s)
  {
    if s == [] then []
    else
      assert s == [s[0]] + s[1..];
      InsertDesc(s[0], SortDesc(s[1..], key), key)
  }

  /** Sorting neither adds nor drops a row. */
  lemma SortDescMember<T>(s: seq<T>, key: T -> nat, x: T)
    ensures x in SortDesc(s, key) <==> x in s
  {
    assert x in SortDesc(s, key) <==> x in multiset(SortDesc(s, key));
    assert x in s <==> x in multiset(s);
  }
  /** `n` copies of `x`. */
  function Repeat<T(!new)>(x: T, n: nat): (r: seq<T>)
    ensures |r| == n
    ensures forall y :: y in r <==> n > 0 && y == x
    ensures forall y :: multiset(r)[y] == if y == x then n else 0
  {
    if n == 0 then [] else [x] + Repeat(x, n - 1)
  }

  /** How many edges of `edges` match the row `x` under `on`. */
  function Matches<T, E(!new)>(x: T, edges: seq<E>, on: (T, E) -> bool): nat
  {
    |Filter(edges, (e: E) => on(x, e))|
  }

  /** An edge that matches makes the count positive, and only then. */
  lemma MatchesPositive<T, E(!new)>(x: T, edges: seq<E>, on: (T, E) -> bool)
    ensures Matches(x, edges, on) > 0 <==> exists e :: e in edges && on(x, e)
  {
    var f := Filter(edges, (e: E) => on(x, e));
    if exists e :: e in edges && on(x, e) {
      var e :| e in edges && on(x, e);
      assert e in f;
    }
  }

  /** The count of one row in a join step: its copies from the head plus its
      count in the rest. */
  lemma JoinStepCount<T(!new)>(x0: T, tail: seq<T>, rest: seq<T>, n0: nat, x: T, n: nat)
    requires x == x0 ==> n == n0
    requires multiset(rest)[x] == multiset(tail)[x] * n
    ensures multiset(Repeat(x0, n0) + rest)[x] == multiset([x0] + tail)[x] * n
  {
    var m := multiset(tail)[x];
    if x == x0 {
      assert multiset([x0] + tail)[x] == m + 1;
      assert (m + 1) * n == m * n + n;
    } else {
      assert multiset([x0] + tail)[x] == m;
    }
  }

  /** `SELECT t.* FROM t INNER JOIN e ON on(t, e)`: every row of `rows`, in
      storage order, once for each edge it matches. */
  function JoinMatches<T(!new), E(!new)>(rows: seq<T>, edges: seq<E>, on: (T, E) -> bool): (r: seq<T>)
    ensures forall x :: x in r <==> x in rows && exists e :: e in edges && on(x, e)
  {
    if rows == [] then []
    else
      var x0 := rows[0];
      var rest := JoinMatches(rows[1..], edges, on);
      var r := Repeat(x0, Matches(x0, edges, on)) + rest;
      assert rows == [x0] + rows[1..];
      forall x ensures x in r <==> x in rows && exists e :: e in edges && on(x, e) {
        MatchesPositive(x, edges, on);
      }
      r
  }

  /** The join holds each row as many times as it is stored, times the
      number of edges it matches. */
  lemma {:induction false} JoinMatchesCount<T(!new), E(!new)>(rows: seq<T>, edges: seq<E>, on: (T, E) -> bool, x: T)
    ensures multiset(JoinMatches(rows, edges, on))[x] == multiset(rows)[x] * Matches(x, edges, on)
  {
    if rows != [] {
      var x0, tail := rows[0], rows[1..];
      var rest := JoinMatches(tail, edges, on);
      JoinMatchesCount(tail, edges, on, x);
      assert rows == [x0] + tail;
      assert JoinMatches(rows, edges, on) == Repeat(x0, Matches(x0, edges, on)) + rest;
      JoinStepCount(x0, tail, rest, Matches(x0, edges, on), x, Matches(x, edges, on));
    }
  }
}
