/** The store that writes the single table, and the conversion from the six native tables and back. */
module TableConversion {
  import opened Wrappers
  import opened CandidateTables
  import opened CandidateColumns
  import opened SingleTable

  // ---------- the store's writes, column by column ----------

  /** The references an insert or an update names are looked up before the statement is sent. */
  predicate Found(world: World, keys: set<(Kind, int)>, refs: map<Ref, Option<int>>, outer: map<Outer, Option<int>>) {
    References(world, keys, CandidateTables.Row(refs, outer, map[]))
  }

  /** A lookup that fails raises; else the shown tables change as the declarations say. */
  ghost predicate InsertTold(
    world: World, t: Table, kind: Kind, given: Option<int>, spare: Option<int>, row: Row, ignore: bool, now: Table, reply: Reply)
    requires Valid(t) && AllDeclared(Shown(t))
  {
    if Found(world, t.index.Keys, row.refs, row.outer) then
      Valid(now) && NativelyInserted(world, Shown(t), kind, given, spare, row, ignore, Shown(now), reply)
    else now == t && reply == Raised
  }

  ghost predicate UpdateTold(world: World, t: Table, kind: Kind, id: int, changes: Changes, now: Table, reply: Reply)
    requires Valid(t) && AllDeclared(Shown(t))
  {
    if Found(world, t.index.Keys, changes.refs, changes.outer) then
      Valid(now) && NativelyUpdated(world, Shown(t), kind, id, changes, Shown(now), reply)
    else now == t && reply == Raised
  }

  ghost predicate DeleteTold(t: Table, kind: Kind, id: int, now: Table, reply: Reply)
    requires Valid(t)
  {
    Valid(now) && NativelyDeleted(Shown(t), kind, id, Shown(now), reply)
  }

  lemma FoundIs(world: World, keys: set<(Kind, int)>, refs: map<Ref, Option<int>>, outer: map<Outer, Option<int>>)
    ensures Found(world, keys, refs, outer) <==> OuterFound(world, outer) && ParentsFound(keys, refs)
  {
    AtIs(world, keys, CandidateTables.Row(refs, outer, map[]));
    hide References;
    hide OuterFound;
    hide ParentsFound;
  }

  lemma NotFoundRaises(
    world: World, t: Table, kind: Kind, given: Option<int>, spare: Option<int>, row: Row, ignore: bool)
    ensures !OuterFound(world, row.outer) || !ParentsFound(t.index.Keys, row.refs) ==>
      InsertStep(world, t, kind, given, spare, row, ignore) == (t, Raised)
  {
    hide OuterFound;
    hide ParentsFound;
    hide ChosenId;
  }

  lemma InsertIsTold(
    world: World, t: Table, kind: Kind, given: Option<int>, spare: Option<int>, row: Row, ignore: bool)
    requires Valid(t) && AllDeclared(Shown(t))
    ensures
      var step := InsertStep(world, t, kind, given, spare, row, ignore);
      InsertTold(world, t, kind, given, spare, row, ignore, step.0, step.1)
  {
    FoundIs(world, t.index.Keys, row.refs, row.outer);
    InsertRefines(world, t, kind, given, spare, row, ignore);
    NativeInsertTold(world, Shown(t), kind, given, spare, row, ignore);
    NotFoundRaises(world, t, kind, given, spare, row, ignore);
    hide Valid;
    hide AllDeclared;
    hide Shown;
    hide Found;
    hide OuterFound;
    hide ParentsFound;
    hide InsertStep;
    hide NativeInsert;
    hide NativelyInserted;
  }

  lemma UnfoundRaises(world: World, t: Table, kind: Kind, id: int, changes: Changes)
    ensures !OuterFound(world, changes.outer) || !ParentsFound(t.index.Keys, changes.refs) ==>
      UpdateStep(world, t, kind, id, changes) == (t, Raised)
  {
    hide OuterFound;
    hide ParentsFound;
    hide ShapedChanges;
  }

  lemma UpdateIsTold(world: World, t: Table, kind: Kind, id: int, changes: Changes)
    requires Valid(t) && AllDeclared(Shown(t))
    ensures
      var step := UpdateStep(world, t, kind, id, changes);
      UpdateTold(world, t, kind, id, changes, step.0, step.1)
  {
    FoundIs(world, t.index.Keys, changes.refs, changes.outer);
    UpdateRefines(world, t, kind, id, changes);
    NativeUpdateTold(world, Shown(t), kind, id, changes);
    UnfoundRaises(world, t, kind, id, changes);
    hide Valid;
    hide AllDeclared;
    hide Shown;
    hide Found;
    hide OuterFound;
    hide ParentsFound;
    hide UpdateStep;
    hide NativeUpdate;
    hide NativelyUpdated;
  }

  lemma DeleteIsTold(t: Table, kind: Kind, id: int)
    requires Valid(t)
    ensures DeleteTold(t, kind, id, DeleteStep(t, kind, id).0, DeleteStep(t, kind, id).1)
  {
    DeleteRefines(t, kind, id);
    NativeDeleteTold(Shown(t), kind, id);
    hide Valid;
    hide Shown;
    hide DeleteStep;
    hide NativeDelete;
    hide NativelyDeleted;
  }

  lemma InsertAll(
    world: World, t: Table, kind: Kind, given: Option<int>, spare: Option<int>, row: Row, ignore: bool)
    requires Valid(t)
    ensures IndexExact(t)
    ensures
      var step := InsertStep(world, t, kind, given, spare, row, ignore);
      Valid(step.0) && (AllDeclared(Shown(t)) ==> InsertTold(world, t, kind, given, spare, row, ignore, step.0, step.1))
  {
    hide *;
    ShownKeys(t);
    InsertRefines(world, t, kind, given, spare, row, ignore);
    if AllDeclared(Shown(t)) { InsertIsTold(world, t, kind, given, spare, row, ignore); }
  }

  lemma InsertStepIs(
    world: World, t: Table, kind: Kind, given: Option<int>, spare: Option<int>, row: Row, ignore: bool)
    ensures
      var chosen := ChosenId(t.index.Keys, kind, given, spare);
      var stored := row.(refs := Resolved(t, row.refs));
      InsertStep(world, t, kind, given, spare, row, ignore) ==
      if !Shaped(kind, row) || !OuterFound(world, row.outer) || !ParentsFound(t.index.Keys, row.refs) || chosen.None? then
        (t, Raised)
      else if !Complete(kind, stored) || (kind, chosen.value) in t.index || !StoredUniqueFree(t, kind, None, stored) then
        (t, if ignore then Ignored else Raised)
      else (Put(t, NextPhysical(t), Stored(kind, chosen.value, stored)), Wrote(chosen.value))
  {
    hide ChosenId;
    hide Resolved;
    hide Shaped;
    hide Complete;
    hide OuterFound;
    hide ParentsFound;
    hide StoredUniqueFree;
    hide Put;
    hide NextPhysical;
  }

  lemma UpdateAll(world: World, t: Table, kind: Kind, id: int, changes: Changes)
    requires Valid(t)
    ensures IndexExact(t)
    ensures
      var step := UpdateStep(world, t, kind, id, changes);
      Valid(step.0) && (AllDeclared(Shown(t)) ==> UpdateTold(world, t, kind, id, changes, step.0, step.1))
  {
    hide *;
    ShownKeys(t);
    UpdateRefines(world, t, kind, id, changes);
    if AllDeclared(Shown(t)) { UpdateIsTold(world, t, kind, id, changes); }
  }

  lemma UpdateStepIs(world: World, t: Table, kind: Kind, id: int, changes: Changes)
    ensures
      UpdateStep(world, t, kind, id, changes) ==
      if !ShapedChanges(kind, changes) || !OuterFound(world, changes.outer) || !ParentsFound(t.index.Keys, changes.refs) then
        (t, Raised)
      else if (kind, id) !in t.index || t.index[(kind, id)] !in t.rows then (t, NoRow)
      else
        var p := t.index[(kind, id)];
        var row := Patched(t.rows[p].row, changes.(refs := Resolved(t, changes.refs)));
        var now := if changes.id.Some? then changes.id.value else id;
        if || !Complete(kind, row) || (now != id && (kind, now) in t.index) || !StoredUniqueFree(t, kind, Some(p), row)
           || (now != id && StoredReferenced(t, p))
        then (t, Raised)
        else (Put(t.(index := t.index - {(kind, id)}), p, Stored(kind, now, row)), Wrote(now))
  {
    hide ShapedChanges;
    hide Resolved;
    hide Patched;
    hide Complete;
    hide OuterFound;
    hide ParentsFound;
    hide StoredUniqueFree;
    hide StoredReferenced;
    hide Put;
  }

  /** Whatever is written, the shown tables go on meeting their declarations. */
  lemma ConsistentDeclared(n: Native)
    requires Consistent(n)
    ensures AllDeclared(n)
  {
    forall k | k in n ensures Declared(k.0, n[k]) { CompleteIs(k.0, n[k]); }
    hide Declared;
    hide Complete;
  }

  /** The open database as the write functions use it. */
  class ActionStore {
    var table: Table

    constructor (start: Table)
      ensures table == start
    {
      table := start;
    }

    method InsertAction(world: World, kind: Kind, given: Option<int>, spare: Option<int>, row: Row, ignore: bool)
      returns (reply: Reply)
      requires Valid(table)
      modifies this
      ensures (table, reply) == InsertStep(world, old(table), kind, given, spare, row, ignore)
      ensures AllDeclared(Shown(old(table))) ==>
        InsertTold(world, old(table), kind, given, spare, row, ignore, table, reply)
      ensures Valid(table)
    {
      hide *;
      InsertAll(world, table, kind, given, spare, row, ignore);
      InsertStepIs(world, table, kind, given, spare, row, ignore);
      if !Shaped(kind, row) || !OuterFound(world, row.outer) || !ParentsFound(table.index.Keys, row.refs) {
        return Raised;
      }
      var stored := row.(refs := Resolved(table, row.refs));
      var id := ChosenId(table.index.Keys, kind, given, spare);
      if id.None? {
        return Raised;
      }
      if !Complete(kind, stored) || (kind, id.value) in table.index || !StoredUniqueFree(table, kind, None, stored) {
        return if ignore then Ignored else Raised;
      }
      table := Put(table, NextPhysical(table), Stored(kind, id.value, stored));
      reply := Wrote(id.value);
    }

    method UpdateAction(world: World, kind: Kind, id: int, changes: Changes) returns (reply: Reply)
      requires Valid(table)
      modifies this
      ensures (table, reply) == UpdateStep(world, old(table), kind, id, changes)
      ensures AllDeclared(Shown(old(table))) ==> UpdateTold(world, old(table), kind, id, changes, table, reply)
      ensures Valid(table)
    {
      hide *;
      UpdateAll(world, table, kind, id, changes);
      UpdateStepIs(world, table, kind, id, changes);
      if !ShapedChanges(kind, changes) || !OuterFound(world, changes.outer) || !ParentsFound(table.index.Keys, changes.refs) {
        return Raised;
      }
      if (kind, id) !in table.index || table.index[(kind, id)] !in table.rows {
        return NoRow;
      }
      var p := table.index[(kind, id)];
      var row := Patched(table.rows[p].row, changes.(refs := Resolved(table, changes.refs)));
      var now := if changes.id.Some? then changes.id.value else id;
      if !Complete(kind, row) || !StoredUniqueFree(table, kind, Some(p), row) {
        return Raised;
      }
      if now != id && ((kind, now) in table.index || StoredReferenced(table, p)) {
        return Raised;
      }
      table := Put(table.(index := table.index - {(kind, id)}), p, Stored(kind, now, row));
      reply := Wrote(now);
    }

    method DeleteAction(kind: Kind, id: int) returns (reply: Reply)
      requires Valid(table)
      modifies this
      ensures (table, reply) == DeleteStep(old(table), kind, id)
      ensures DeleteTold(old(table), kind, id, table, reply)
      ensures Valid(table)
    {
      DeleteIsTold(table, kind, id);
      hide DeleteTold;
      DeleteRefines(table, kind, id);
      hide Valid;
      if (kind, id) !in table.index {
        return NoRow;
      }
      var p := table.index[(kind, id)];
      if StoredReferenced(table, p) {
        return Raised;
      }
      table := Table(table.rows - {p}, table.index - {(kind, id)});
      reply := Wrote(id);
    }
  }

  // ---------- migration ----------

  ghost predicate OrderOf(order: seq<(Kind, int)>, keys: set<(Kind, int)>) {
    Once(order) && forall k :: k in order <==> k in keys
  }

  /** Rows are numbered across all kinds, from one, in the order they are read. */
  ghost predicate Numbering(mapping: map<(Kind, int), int>, order: seq<(Kind, int)>) {
    && (forall i | 0 <= i < |order| :: order[i] in mapping && mapping[order[i]] == i + 1)
    && (forall k | k in mapping :: k in order)
  }

  method Number(order: seq<(Kind, int)>) returns (mapping: map<(Kind, int), int>)
    requires Once(order)
    ensures Numbering(mapping, order)
  {
    mapping := map[];
    for i := 0 to |order|
      invariant Numbering(mapping, order[..i])
    {
      mapping := mapping[order[i] := i + 1];
      assert order[..i + 1] == order[..i] + [order[i]];
    }
    assert order[..|order|] == order;
  }

  function Renumbered(mapping: map<(Kind, int), int>, refs: map<Ref, Option<int>>): map<Ref, Option<int>> {
    map f | f in refs ::
      if refs[f].Some? && (ParentKind(f), refs[f].value) in mapping then Some(mapping[(ParentKind(f), refs[f].value)]) else None
  }

  function CopyOf(n: Native, mapping: map<(Kind, int), int>, k: (Kind, int)): Stored
    requires k in n
  {
    Stored(k.0, k.1, n[k].(refs := Renumbered(mapping, n[k].refs)))
  }

  ghost predicate RowCopied(n: Native, mapping: map<(Kind, int), int>, t: Table, k: (Kind, int)) {
    && k in mapping && k in n && k in t.index && t.index[k] == mapping[k]
    && mapping[k] in t.rows && t.rows[mapping[k]] == CopyOf(n, mapping, k)
  }

  ghost predicate Copied(n: Native, mapping: map<(Kind, int), int>, t: Table, done: set<(Kind, int)>) {
    && (forall k | k in done :: RowCopied(n, mapping, t, k))
    && (forall k | k in t.index :: k in done)
    && (forall p | p in t.rows :: KeyAt(t, p) in done && KeyAt(t, p) in mapping && mapping[KeyAt(t, p)] == p)
  }

  predicate SourceSound(n: Native) {
    forall k | k in n :: Complete(k.0, n[k]) && ParentsFound(n.Keys, n[k].refs)
  }

  lemma OtherNumbers(mapping: map<(Kind, int), int>, order: seq<(Kind, int)>, k: (Kind, int), l: (Kind, int))
    requires Numbering(mapping, order) && k in mapping && l in mapping && k != l
    ensures mapping[k] != mapping[l]
  {
    var i :| 0 <= i < |order| && order[i] == k;
    var j :| 0 <= j < |order| && order[j] == l;
  }

  lemma CopiedOne(n: Native, order: seq<(Kind, int)>, mapping: map<(Kind, int), int>, t: Table, done: set<(Kind, int)>, k: (Kind, int))
    requires Numbering(mapping, order) && Copied(n, mapping, t, done) && k in mapping && k in n && k !in done
    ensures Copied(n, mapping, Put(t, mapping[k], CopyOf(n, mapping, k)), done + {k})
  {
    var t' := Put(t, mapping[k], CopyOf(n, mapping, k));
    forall l | l in done ensures RowCopied(n, mapping, t', l) {
      assert RowCopied(n, mapping, t, l);
      OtherNumbers(mapping, order, k, l);
      hide Renumbered;
      hide Numbering;
    }
    hide RowCopied;
    hide Numbering;
  }

  lemma CopiedAt(n: Native, mapping: map<(Kind, int), int>, t: Table, k: (Kind, int))
    requires Copied(n, mapping, t, n.Keys) && k in n
    ensures RowCopied(n, mapping, t, k)
  {
    hide RowCopied;
  }

  lemma ParentCopied(n: Native, mapping: map<(Kind, int), int>, t: Table, f: Ref, ref: Option<int>)
    requires ref.Some? ==> RowCopied(n, mapping, t, (ParentKind(f), ref.value))
    ensures
      var moved := if ref.Some? && (ParentKind(f), ref.value) in mapping then Some(mapping[(ParentKind(f), ref.value)]) else None;
      && Public(t, moved) == ref
      && (moved.Some? ==> moved.value in t.rows && t.rows[moved.value].kind == ParentKind(f))
  {
  }

  lemma RefsShown(n: Native, mapping: map<(Kind, int), int>, t: Table, refs: map<Ref, Option<int>>)
    requires Copied(n, mapping, t, n.Keys) && ParentsFound(n.Keys, refs)
    ensures RefsTyped(t, Renumbered(mapping, refs)) && PublicRefs(t, Renumbered(mapping, refs)) == refs
  {
    var moved := Renumbered(mapping, refs);
    hide Copied;
    forall f | f in refs
      ensures Public(t, moved[f]) == refs[f]
      ensures moved[f].Some? ==> moved[f].value in t.rows && t.rows[moved[f].value].kind == ParentKind(f)
    {
      if refs[f].Some? { CopiedAt(n, mapping, t, (ParentKind(f), refs[f].value)); }
      ParentCopied(n, mapping, t, f, refs[f]);
    }
  }

  lemma RowShown(n: Native, mapping: map<(Kind, int), int>, t: Table, k: (Kind, int))
    requires Copied(n, mapping, t, n.Keys) && SourceSound(n) && k in n
    ensures k in t.index && t.index[k] in t.rows && KeyAt(t, t.index[k]) == k
    ensures RefsTyped(t, t.rows[t.index[k]].row.refs) && Projected(t, t.rows[t.index[k]].row) == n[k]
  {
    assert ParentsFound(n.Keys, n[k].refs);
    hide SourceSound;
    hide Copied;
    hide ParentsFound;
    CopiedAt(n, mapping, t, k);
    RefsShown(n, mapping, t, n[k].refs);
    hide PublicRefs;
    hide RefsTyped;
    hide Renumbered;
  }

  lemma CopiedAll(n: Native, mapping: map<(Kind, int), int>, t: Table)
    requires Copied(n, mapping, t, n.Keys) && SourceSound(n)
    ensures Valid(t) && Shown(t) == n
  {
    forall k | k in n
      ensures k in t.index && t.index[k] in t.rows && KeyAt(t, t.index[k]) == k
      ensures RefsTyped(t, t.rows[t.index[k]].row.refs) && Projected(t, t.rows[t.index[k]].row) == n[k]
    {
      RowShown(n, mapping, t, k);
    }
    forall p | p in t.rows ensures KeyAt(t, p) in n && t.index[KeyAt(t, p)] == p {
      assert RowCopied(n, mapping, t, KeyAt(t, p));
    }
    assert forall k | k in t.index :: k in n;
    hide Copied;
    hide SourceSound;
    hide RefsTyped;
    hide Projected;
    ShownIs(t, n);
  }

  method CopyRows(n: Native, order: seq<(Kind, int)>, mapping: map<(Kind, int), int>) returns (t: Table)
    requires OrderOf(order, n.Keys) && Numbering(mapping, order)
    ensures Copied(n, mapping, t, n.Keys)
  {
    hide *;
    t := Table(map[], map[]);
    ghost var done := {};
    NothingCopied(n, mapping);
    NothingDone(order);
    for i := 0 to |order|
      invariant Copied(n, mapping, t, done) && DoneUpTo(done, order, i)
    {
      var k := order[i];
      NextRow(order, n.Keys, mapping, done, i);
      CopiedOne(n, order, mapping, t, done, k);
      t := Put(t, mapping[k], CopyOf(n, mapping, k));
      done := done + {k};
    }
    AllDone(order, n.Keys, done);
  }

  ghost predicate DoneUpTo(done: set<(Kind, int)>, order: seq<(Kind, int)>, i: nat) {
    i <= |order| && forall k :: k in done <==> k in order[..i]
  }

  lemma NothingDone(order: seq<(Kind, int)>)
    ensures DoneUpTo({}, order, 0)
  {
  }

  lemma NextRow(order: seq<(Kind, int)>, keys: set<(Kind, int)>, mapping: map<(Kind, int), int>, done: set<(Kind, int)>, i: nat)
    requires OrderOf(order, keys) && Numbering(mapping, order) && i < |order| && DoneUpTo(done, order, i)
    ensures order[i] in keys && order[i] in mapping && order[i] !in done && DoneUpTo(done + {order[i]}, order, i + 1)
  {
    assert order[i] in order && order[..i + 1] == order[..i] + [order[i]];
  }

  lemma AllDone(order: seq<(Kind, int)>, keys: set<(Kind, int)>, done: set<(Kind, int)>)
    requires OrderOf(order, keys) && DoneUpTo(done, order, |order|)
    ensures done == keys
  {
    assert order[..|order|] == order;
  }

  /** All six tables at once; refused when a source row is incomplete or a reference does not resolve. */
  method MigrateActionSchema(n: Native, order: seq<(Kind, int)>) returns (result: Result<Table>)
    requires OrderOf(order, n.Keys)
    ensures result.Success? <==> SourceSound(n)
    ensures result.Success? ==> Valid(result.value) && Shown(result.value) == n
  {
    OrderOnce(order, n.Keys);
    hide *;
    if !SourceSound(n) {
      return Failure;
    }
    var mapping := Number(order);
    var t := CopyRows(n, order, mapping);
    CopiedAll(n, mapping, t);
    result := Success(t);
  }

  lemma OrderOnce(order: seq<(Kind, int)>, keys: set<(Kind, int)>)
    requires OrderOf(order, keys)
    ensures Once(order)
  {
  }

  lemma NothingCopied(n: Native, mapping: map<(Kind, int), int>)
    ensures Copied(n, mapping, Table(map[], map[]), {})
  {
  }

  // ---------- restoration ----------

  /** Reads every projection back into its native table; refused when a reference does not resolve to its kind. */
  method RestoreActionSchema(t: Table) returns (result: Result<Native>)
    requires IndexExact(t)
    ensures result.Success? <==> Valid(t)
    ensures result.Success? ==> result.value == Shown(t)
  {
    if exists p | p in t.rows :: !RefsTyped(t, t.rows[p].row.refs) {
      return Failure;
    }
    var n: Native := map[];
    var order := Listed(t.rows.Keys);
    hide RefsTyped;
    hide Projected;
    for i := 0 to |order|
      invariant forall p | p in order[..i] :: p in t.rows && KeyAt(t, p) in n && n[KeyAt(t, p)] == Projected(t, t.rows[p].row)
      invariant forall k | k in n :: k in t.index
    {
      var p := order[i];
      assert p in order && p in t.rows;
      assert order[..i + 1] == order[..i] + [p];
      n := n[KeyAt(t, p) := Projected(t, t.rows[p].row)];
    }
    assert order[..|order|] == order;
    forall k | k in t.index ensures k in n {
      var p := t.index[k];
      assert p in order && KeyAt(t, p) == k;
    }
    assert forall p | p in t.rows :: p in order;
    ShownIs(t, n);
    result := Success(n);
  }

  /** Migrate, write through the single table, restore: the tables those writes would have made natively. */
  method MigrateWriteRestore(n: Native, calls: seq<(World, Call)>) returns (result: Result<Native>)
    ensures result.Success? <==> SourceSound(n)
    ensures result.Success? ==> result.value == NativeRun(n, calls)
  {
    hide *;
    var order := Listed(n.Keys);
    OrderIs(order, n.Keys);
    var migrated := MigrateActionSchema(n, order);
    if migrated.Failure? {
      return Failure;
    }
    var t := Run(migrated.value, calls);
    RunRefines(migrated.value, calls);
    ShownKeys(t);
    result := RestoreActionSchema(t);
  }

  lemma OrderIs(order: seq<(Kind, int)>, keys: set<(Kind, int)>)
    requires Once(order) && forall k :: k in order <==> k in keys
    ensures OrderOf(order, keys)
  {
  }
}
