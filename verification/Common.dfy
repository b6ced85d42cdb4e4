/** Small shared vocabulary: optional values, results of operations that can fail, sums over
    table columns and the first row that matches a query. */
module Common {

  datatype Option<+T> = None | Some(value: T)

  datatype Result<+T, +E> = Ok(value: T) | Err(error: E) {
    predicate IsFailure() {
      Err?
    }

    function PropagateFailure<U>(): Result<U, E>
      requires Err?
    {
      Err(error)
    }

    function Extract(): T
      requires Ok?
    {
      value
    }
  }

  /** The sum of the column `f` over all rows. */
  function Sum<T>(rows: seq<T>, f: T -> int): int {
    if rows == [] then 0 else Sum(rows[..|rows| - 1], f) + f(rows[|rows| - 1])
  }

  lemma SumAppend<T>(rows: seq<T>, row: T, f: T -> int)
    ensures Sum(rows + [row], f) == Sum(rows, f) + f(row)
  {
    assert (rows + [row])[..|rows|] == rows;
  }

  lemma {:induction false} SumUpdate<T>(rows: seq<T>, i: nat, row: T, f: T -> int)
    requires i < |rows|
    ensures Sum(rows[i := row], f) == Sum(rows, f) - f(rows[i]) + f(row)
  {
    var n := |rows| - 1;
    if i == n {
      assert rows[i := row][..n] == rows[..n];
    } else {
      assert rows[i := row][..n] == rows[..n][i := row];
      SumUpdate(rows[..n], i, row, f);
    }
  }

  lemma {:induction false} SumBounds<T>(rows: seq<T>, f: T -> int)
    requires forall i :: 0 <= i < |rows| ==> f(rows[i]) >= 0
    ensures Sum(rows, f) >= 0
    ensures forall i :: 0 <= i < |rows| ==> f(rows[i]) <= Sum(rows, f)
  {
    if rows != [] {
      SumBounds(rows[..|rows| - 1], f);
    }
  }

  /** Two columns, possibly of different tables, that agree row by row have the same sum. */
  lemma {:induction false} SumSame<T, U>(rows: seq<T>, f: T -> int, rows': seq<U>, g: U -> int)
    requires |rows| == |rows'|
    requires forall i :: 0 <= i < |rows| ==> f(rows[i]) == g(rows'[i])
    ensures Sum(rows, f) == Sum(rows', g)
  {
    if rows != [] {
      SumSame(rows[..|rows| - 1], f, rows'[..|rows| - 1], g);
    }
  }

  /** The position of the first row satisfying `p`, or the number of rows when there is none. */
  function First<T>(rows: seq<T>, p: T -> bool): (i: nat)
    ensures i <= |rows|
    ensures i < |rows| ==> p(rows[i])
    ensures forall j :: 0 <= j < i ==> !p(rows[j])
  {
    if rows == [] then 0
    else if p(rows[0]) then 0
    else 1 + First(rows[1..], p)
  }

  /** A query sees only the columns it tests. */
  lemma FirstSame<T>(rows: seq<T>, rows': seq<T>, p: T -> bool)
    requires |rows| == |rows'|
    requires forall i :: 0 <= i < |rows| ==> p(rows[i]) == p(rows'[i])
    ensures First(rows, p) == First(rows', p)
  {
    assert First(rows, p) >= First(rows', p);
  }
}
