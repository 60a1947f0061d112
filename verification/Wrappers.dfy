/** Small result types shared by the storage modules. */
module Wrappers {
  datatype Option<+T> = None | Some(value: T)

  /** `Failure` stands for an exception that leaves the caller's transaction to be rolled back. */
  datatype Result<+T> = Success(value: T) | Failure

  /** No element occurs twice. */
  ghost predicate Once<T>(rows: seq<T>) { forall i, j | 0 <= i < j < |rows| :: rows[i] != rows[j] }

  /** SQL may hand over the rows of a table in any order. */
  method Listed<T(!new)>(rows: set<T>) returns (order: seq<T>)
    ensures (forall x :: x in order <==> x in rows) && Once(order)
  {
    order := [];
    var rest := rows;
    while rest != {}
      invariant rest <= rows && forall x :: x in order <==> x in rows && x !in rest
      invariant Once(order)
      decreases rest
    {
      var x :| x in rest;
      assert x !in order;
      order := order + [x];
      rest := rest - {x};
    }
  }
}
