/** Copying complete rows with multi-row statements that stay within the variable limit. */
module BulkCopy {
  import opened Wrappers

  /** All values of the rows, one row after the other. */
  function Flat<T>(rows: seq<seq<T>>): seq<T> {
    if rows == [] then [] else rows[0] + Flat(rows[1..])
  }

  /** The rows a statement with so many groups of `width` values inserts. */
  function Chop<T>(values: seq<T>, width: nat, groups: nat): seq<seq<T>>
    requires |values| == groups * width
  {
    if groups == 0 then []
    else
      OneLess(groups, width);
      [values[..width]] + Chop(values[width..], width, groups - 1)
  }

  lemma OneLess(groups: nat, width: nat)
    requires groups > 0
    ensures groups * width == width + (groups - 1) * width && (groups - 1) * width >= 0
  {
  }

  predicate Wide<T>(rows: seq<seq<T>>, width: nat) { forall i | 0 <= i < |rows| :: |rows[i]| == width }

  /** Binding the values group by group gives back the very rows. */
  lemma {:induction false} ChopFlat<T>(rows: seq<seq<T>>, width: nat)
    requires Wide(rows, width)
    ensures |Flat(rows)| == |rows| * width && Chop(Flat(rows), width, |rows|) == rows
  {
    if rows != [] {
      ChopFlat(rows[1..], width);
      OneLess(|rows|, width);
      assert Flat(rows)[..width] == rows[0] && Flat(rows)[width..] == Flat(rows[1..]);
    }
  }

  function Max(a: int, b: int): int { if a < b then b else a }

  /** One VALUES statement: its variables are counted against the limit. */
  method Execute<T>(stored: seq<seq<T>>, values: seq<T>, width: nat, groups: nat) returns (now: seq<seq<T>>)
    requires |values| == groups * width
    ensures now == stored + Chop(values, width, groups)
  {
    now := stored + Chop(values, width, groups);
  }

  lemma BatchVariables(width: nat, limit: nat, batch: nat)
    requires width > 0 && batch <= Max(1, limit / width)
    ensures batch * width <= Max(limit, width)
  {
    if limit / width >= 1 {
      Multiply(batch, limit / width, width);
      assert (limit / width) * width <= limit;
    } else {
      Multiply(batch, 1, width);
    }
  }

  lemma Multiply(a: nat, b: nat, w: nat)
    requires a <= b
    ensures a * w <= b * w
  {
  }

  lemma WideBatch<T>(rows: seq<seq<T>>, next: nat, end: nat, width: nat)
    requires next <= end <= |rows|
    ensures Wide(rows, width) ==> Wide(rows[next..end], width)
    ensures Wide(rows[..next], width) && Wide(rows[next..end], width) ==> Wide(rows[..end], width)
    ensures rows[..end] == rows[..next] + rows[next..end]
  {
    assert forall i | next <= i < end :: rows[i] == rows[next..end][i - next];
  }

  /**
   * The stored rows are those before and then exactly `rows` in order, as if they had been copied one by
   * one, and no statement binds more variables than the limit unless a single row needs more.  A row of
   * another width is refused.
   */
  method InsertRows<T>(before: seq<seq<T>>, width: nat, rows: seq<seq<T>>, variables: nat)
    returns (result: Result<seq<seq<T>>>, ghost counts: seq<nat>)
    requires width > 0
    ensures result.Success? <==> Wide(rows, width)
    ensures result.Success? ==> result.value == before + rows
    ensures forall i | 0 <= i < |counts| :: 0 < counts[i] <= Max(variables, width)
  {
    var limit := Max(1, variables / width);
    var stored, next := before, 0;
    counts := [];
    while next < |rows|
      invariant next <= |rows| && Wide(rows[..next], width) && stored == before + rows[..next]
      invariant forall i | 0 <= i < |counts| :: 0 < counts[i] <= Max(variables, width)
      decreases |rows| - next
    {
      var end := if |rows| - next < limit then |rows| else next + limit;
      var batch := rows[next..end];
      WideBatch(rows, next, end, width);
      hide Wide;
      if !Wide(batch, width) {
        return Failure, counts;
      }
      ChopFlat(batch, width);
      BatchVariables(width, variables, |batch|);
      Multiply(1, |batch|, width);
      counts := counts + [|Flat(batch)|];
      stored := Execute(stored, Flat(batch), width, |batch|);
      next := end;
    }
    assert rows[..|rows|] == rows;
    result := Success(stored);
  }
}
