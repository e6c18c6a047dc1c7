/**
 * What the data-access layer gets back from the relational store: Go's error
 * values, the outcome of a statement, and the loop that scans a result set.
 * The store itself never fails on its own in this model; a failure is an
 * input (`failure` for a single statement, `Fault` for a row loop).
 */
module Sql {
  import opened Wrappers
  import opened Relational

  /** The Go `error` values the layer produces or passes on. */
  datatype Error =
    | NoRows                                  // sql.ErrNoRows
    | DbError(code: nat)                      // any failure reported by the store
    | Message(text: string)                   // errors.New(text), fmt.Errorf(text)
    | Wrapped(context: string, cause: Error)  // fmt.Errorf(context + ": %w", cause)

  /** A Go `(value, error)` pair of which exactly one half is meaningful. */
  datatype Result<+T> = Ok(value: T) | Err(error: Error)

  /** A Go `(string, error)` pair where the string is "" whenever the error
      is set. */
  datatype IdResult = IdResult(id: string, err: Option<Error>)

  /** The error a single `Exec` or `QueryRow` reports when the store fails. */
  function ExecError(failure: Option<nat>): (e: Option<Error>)
    ensures e.None? <==> failure.None?
    ensures failure.Some? ==> e == Some(DbError(failure.value))
  {
    if failure.Some? then Some(DbError(failure.value)) else None
  }

  /** How a `db.Query` and its `for rows.Next()` loop may fail: the query
      itself, or the `Scan` of the row at position `row`. */
  datatype Fault = NoFault | QueryFails(code: nat) | ScanFailsAt(row: nat, code: nat)

  /** Whether a query delivering `n` rows, under `fault`, ends in an error. */
  predicate Fails(fault: Fault, n: nat)
  {
    fault.QueryFails? || (fault.ScanFailsAt? && fault.row < n)
  }

  /** The result of `rows, err := db.Query(...)` followed by a loop that scans
      every row with `scan` and appends it, returning `nil, err` on the first
      failure: either every row, in delivery order, or the error alone. */
  function Collect<R, V>(rows: seq<R>, scan: R -> V, fault: Fault): (r: Result<seq<V>>)
    ensures r.Err? <==> Fails(fault, |rows|)
    ensures r.Err? ==> r.error == DbError(fault.code)
    ensures r.Ok? ==> |r.value| == |rows| && forall i :: 0 <= i < |rows| ==> r.value[i] == scan(rows[i])
  {
    if Fails(fault, |rows|) then Err(DbError(fault.code)) else Ok(Map(rows, scan))
  }

  /** `rows, err := db.Query(...)` followed by `for rows.Next()`, which scans
      each row with `scan` and appends it, and returns `nil, err` as soon as a
      scan fails; every list query of the data-access layer runs this loop. */
  method ScanRows<R, V>(rows: seq<R>, scan: R -> V, fault: Fault) returns (r: Result<seq<V>>)
    ensures r == Collect(rows, scan, fault)
  {
    if fault.QueryFails? {
      return Err(DbError(fault.code));
    }
    var values: seq<V> := [];
    var i := 0;
    while i < |rows|
      invariant 0 <= i <= |rows|
      invariant |values| == i && forall k :: 0 <= k < i ==> values[k] == scan(rows[k])
      invariant !(fault.ScanFailsAt? && fault.row < i)
    {
      if fault.ScanFailsAt? && fault.row == i {
        return Err(DbError(fault.code));
      }
      values := values + [scan(rows[i])];
      i := i + 1;
    }
    assert values == Map(rows, scan);
    return Ok(values);
  }
}
