/** The writes on the candidate tables told column by column, as the six declarations have them. */
module CandidateColumns {
  import opened Wrappers
  import opened Ids
  import opened CandidateTables

  // ---------- the declarations ----------

  /** Every column is there, those that must be have a value, and a checked one has one of its values. */
  predicate Declared(kind: Kind, row: Row) {
    match kind
    case Candidate =>
      && row.refs.Keys == {Predecessor} && row.outer.Keys == {Task, ConsumerRun}
      && row.outer[Task].Some? && row.outer[ConsumerRun].Some?
      && Cells(row, {"execution_generation", "stage_index", "proposal_revision", "candidate_digest", "candidate_json",
                     "invalidated_at", "invalidation_reason", "created_at"})
    case Review =>
      && row.refs.Keys == {CandidateRef} && row.refs[CandidateRef].Some?
      && row.outer.Keys == {AuditRun} && row.outer[AuditRun].Some?
      && Cells(row, {"decision", "candidate_digest", "result_json", "created_at"})
      && OneOf(row.cells["decision"], ["approve", "return", "reject"])
    case Selection =>
      && row.refs.Keys == {CandidateRef, ReviewRef} && row.refs[CandidateRef].Some? && row.refs[ReviewRef].Some?
      && row.outer.Keys == {} && Cells(row, {"option_key", "branch_json", "status", "created_at"})
    case Supplement =>
      && row.refs.Keys == {CandidateRef} && row.refs[CandidateRef].Some?
      && row.outer.Keys == {} && Cells(row, {"instruction", "created_at"})
    case Execution =>
      && row.refs.Keys == {CandidateRef, ReviewRef, SelectionRef} && row.refs[CandidateRef].Some? && row.refs[ReviewRef].Some?
      && row.outer.Keys == {}
      && Cells(row, {"status", "lease_owner", "lease_expires_at", "result_json", "created_at", "updated_at"})
      && OneOf(row.cells["status"], ["running", "done", "skipped", "failed", "retry", "uncertain"])
    case Attempt =>
      && row.refs.Keys == {ExecutionRef} && row.refs[ExecutionRef].Some? && row.outer.Keys == {}
      && Cells(row, {"action_index", "external_action_key", "status", "result_json", "created_at", "updated_at"})
      && OneOf(row.cells["status"], ["dispatched", "verified", "confirmed_no_effect", "uncertain", "failed"])
  }

  predicate Cells(row: Row, names: set<string>) {
    row.cells.Keys == names && forall f | f in names :: row.cells[f] != Null
  }

  predicate OneOf(cell: Cell, options: seq<string>) { cell.Words? && cell.words in options }

  predicate At(keys: set<(Kind, int)>, kind: Kind, row: Row, ref: Ref) {
    ref in row.refs && row.refs[ref].Some? ==> (kind, row.refs[ref].value) in keys
  }

  predicate AtOuter(ids: set<int>, row: Row, outer: Outer) {
    outer in row.outer && row.outer[outer].Some? ==> row.outer[outer].value in ids
  }

  /** Every reference that has a value reaches a row of the table it is declared for. */
  predicate References(world: World, keys: set<(Kind, int)>, row: Row) {
    && At(keys, Review, row, Predecessor) && At(keys, Candidate, row, CandidateRef) && At(keys, Review, row, ReviewRef)
    && At(keys, Selection, row, SelectionRef) && At(keys, Execution, row, ExecutionRef)
    && AtOuter(world.tasks, row, Task) && AtOuter(world.runs, row, ConsumerRun) && AtOuter(world.runs, row, AuditRun)
  }

  /** The two rows cannot stand together in their table. */
  predicate Twice(kind: Kind, x: Row, y: Row)
    requires Declared(kind, x) && Declared(kind, y)
  {
    match kind
    case Candidate => x.outer[ConsumerRun] == y.outer[ConsumerRun]
    case Review => x.outer[AuditRun] == y.outer[AuditRun]
    case Selection => x.refs[CandidateRef] == y.refs[CandidateRef]
    case Supplement => false
    case Execution => x.refs[CandidateRef] == y.refs[CandidateRef]
    case Attempt => x.refs[ExecutionRef] == y.refs[ExecutionRef] && x.cells["action_index"] == y.cells["action_index"]
  }

  ghost predicate AllDeclared(n: Native) { forall k | k in n :: Declared(k.0, n[k]) }

  /** No row of the kind but the one numbered `self` stands in the way. */
  ghost predicate RoomFor(n: Native, kind: Kind, self: Option<int>, row: Row)
    requires AllDeclared(n) && Declared(kind, row)
  {
    forall k | k in n && k.0 == kind && Some(k.1) != self :: !Twice(kind, n[k], row)
  }

  // ---------- the ID of a new row ----------

  /** Without a given ID: one, or one above the largest of its kind, or at the bound an unused one. */
  ghost predicate NewId(keys: set<(Kind, int)>, kind: Kind, given: Option<int>, spare: Option<int>, id: int) {
    if given.Some? then id == given.value && -0x8000_0000_0000_0000 <= id <= 0x7FFF_FFFF_FFFF_FFFF
    else if forall x :: (kind, x) !in keys then id == 1
    else if (kind, 0x7FFF_FFFF_FFFF_FFFF) !in keys || exists x :: (kind, x) in keys && x > 0x7FFF_FFFF_FFFF_FFFF then
      (kind, id - 1) in keys && forall x | (kind, x) in keys :: x < id
    else spare == Some(id) && (kind, id) !in keys
  }

  lemma IdsAre(keys: set<(Kind, int)>, kind: Kind)
    ensures forall x: int :: x in IdsOf(keys, kind) <==> (kind, x) in keys
  {
    forall x: int ensures x in IdsOf(keys, kind) <==> (kind, x) in keys {
      if (kind, x) in keys { assert (kind, x).1 in IdsOf(keys, kind); }
    }
  }

  lemma ChosenIs(keys: set<(Kind, int)>, kind: Kind, given: Option<int>, spare: Option<int>, id: int)
    ensures ChosenId(keys, kind, given, spare) == Some(id) <==> NewId(keys, kind, given, spare, id)
  {
    var ids := IdsOf(keys, kind);
    IdsAre(keys, kind);
    hide IdsOf;
    if ids == {} {
      assert forall x :: (kind, x) !in keys;
    } else {
      var top := Largest(ids);
      assert IsLargest(ids, top) && top in ids && (kind, top) in keys;
      assert forall x | (kind, x) in keys :: x in ids && x <= top;
      assert (kind, id - 1) in keys ==> id - 1 in ids;
    }
  }

  // ---------- the model's guards are the declarations ----------

  lemma CellsAre(row: Row, names: set<string>)
    ensures Cells(row, names) <==> row.cells.Keys == names && forall f | f in row.cells :: row.cells[f] != Null
  {
  }

  lemma CompleteIs(kind: Kind, row: Row)
    ensures Complete(kind, row) <==> Declared(kind, row)
  {
    CellsAre(row, CellsOf(kind));
    match kind
    case Candidate => CandidateIs(row);
    case Review => ReviewIs(row);
    case Selection => SelectionIs(row);
    case Supplement => SupplementIs(row);
    case Execution => ExecutionIs(row);
    case Attempt => AttemptIs(row);
  }

  lemma CandidateIs(row: Row)
    ensures Complete(Candidate, row) <==> Declared(Candidate, row)
  {
    CellsAre(row, CellsOf(Candidate));
    hide Cells;
  }

  lemma ReviewIs(row: Row)
    ensures Complete(Review, row) <==> Declared(Review, row)
  {
    CellsAre(row, CellsOf(Review));
    hide Cells;
  }

  lemma SelectionIs(row: Row)
    ensures Complete(Selection, row) <==> Declared(Selection, row)
  {
    CellsAre(row, CellsOf(Selection));
    hide Cells;
  }

  lemma SupplementIs(row: Row)
    ensures Complete(Supplement, row) <==> Declared(Supplement, row)
  {
    CellsAre(row, CellsOf(Supplement));
    hide Cells;
  }

  lemma ExecutionIs(row: Row)
    ensures Complete(Execution, row) <==> Declared(Execution, row)
  {
    CellsAre(row, CellsOf(Execution));
    hide Cells;
  }

  lemma AttemptIs(row: Row)
    ensures Complete(Attempt, row) <==> Declared(Attempt, row)
  {
    CellsAre(row, CellsOf(Attempt));
    hide Cells;
  }

  lemma TwiceIs(kind: Kind, x: Row, y: Row)
    requires Declared(kind, x) && Declared(kind, y)
    ensures Twice(kind, x, y) <==> UniqueOf(kind, y).Some? && UniqueOf(kind, x) == UniqueOf(kind, y)
  {
    if kind == Attempt {
      IndexGiven(x);
      IndexGiven(y);
    }
    hide Cells;
    hide OneOf;
  }

  lemma IndexGiven(x: Row)
    requires Declared(Attempt, x)
    ensures "action_index" in x.cells
  {
  }

  lemma ReferencesIs(world: World, keys: set<(Kind, int)>, kind: Kind, row: Row)
    requires Declared(kind, row)
    ensures References(world, keys, row) <==> OuterFound(world, row.outer) && ParentsFound(keys, row.refs)
  {
    AtIs(world, keys, row);
    hide Declared;
  }

  lemma AtIs(world: World, keys: set<(Kind, int)>, row: Row)
    ensures References(world, keys, row) <==> OuterFound(world, row.outer) && ParentsFound(keys, row.refs)
  {
    if References(world, keys, row) {
      forall f | f in row.refs && row.refs[f].Some? ensures (ParentKind(f), row.refs[f].value) in keys {}
      forall f | f in row.outer && row.outer[f].Some?
        ensures row.outer[f].value in if f == Task then world.tasks else world.runs
      {
      }
    }
  }

  lemma RoomIs(n: Native, kind: Kind, self: Option<int>, row: Row)
    requires AllDeclared(n) && Declared(kind, row)
    ensures RoomFor(n, kind, self, row) <==> UniqueFree(n, kind, self, row)
  {
    forall k | k in n && k.0 == kind
      ensures Twice(kind, n[k], row) <==> UniqueOf(kind, row).Some? && UniqueOf(kind, n[k]) == UniqueOf(kind, row)
    {
      TwiceIs(kind, n[k], row);
    }
    hide Twice;
    hide UniqueOf;
    hide Declared;
  }

  // ---------- the writes ----------

  /** The columns the kind has, whether or not their values are allowed. */
  predicate Named(kind: Kind, row: Row) { row.refs.Keys == RefNames(kind) && row.outer.Keys == OuterNames(kind) && row.cells.Keys == CellNames(kind) }

  function RefNames(kind: Kind): set<Ref> {
    set f: Ref | f in {Predecessor, CandidateRef, ReviewRef, SelectionRef, ExecutionRef} && HasRef(kind, f)
  }

  predicate HasRef(kind: Kind, f: Ref) {
    match f
    case Predecessor => kind == Candidate
    case CandidateRef => kind == Review || kind == Selection || kind == Supplement || kind == Execution
    case ReviewRef => kind == Selection || kind == Execution
    case SelectionRef => kind == Execution
    case ExecutionRef => kind == Attempt
  }

  function OuterNames(kind: Kind): set<Outer> {
    if kind == Candidate then {Task, ConsumerRun} else if kind == Review then {AuditRun} else {}
  }

  function CellNames(kind: Kind): set<string> {
    (if kind == Attempt then {"action_index", "external_action_key"} else {})
    + (if kind == Candidate then {"execution_generation", "stage_index", "proposal_revision", "candidate_json",
                                   "invalidated_at", "invalidation_reason"} else {})
    + (if kind == Candidate || kind == Review then {"candidate_digest"} else {})
    + (if kind == Review then {"decision"} else {})
    + (if kind == Selection then {"option_key", "branch_json"} else {})
    + (if kind == Supplement then {"instruction"} else {})
    + (if kind == Execution then {"lease_owner", "lease_expires_at"} else {})
    + (if kind == Selection || kind == Execution || kind == Attempt then {"status"} else {})
    + (if kind == Review || kind == Execution || kind == Attempt then {"result_json"} else {})
    + (if kind == Execution || kind == Attempt then {"updated_at"} else {})
    + {"created_at"}
  }

  lemma NamesAre(kind: Kind)
    ensures RefNames(kind) == RefsOf(kind) && OuterNames(kind) == OuterOf(kind)
  {
    forall f: Ref ensures f in RefNames(kind) <==> f in RefsOf(kind) {}
  }

  lemma CellNamesAre(kind: Kind)
    ensures CellNames(kind) == CellsOf(kind)
  {
    forall f: string ensures f in CellNames(kind) <==> f in CellsOf(kind) {}
  }

  lemma NamedIs(kind: Kind, row: Row)
    ensures Named(kind, row) <==> Shaped(kind, row)
  {
    NamesAre(kind);
    CellNamesAre(kind);
    hide RefNames;
    hide OuterNames;
    hide CellNames;
    hide RefsOf;
    hide OuterOf;
    hide CellsOf;
  }

  /** An INSERT natively: what it writes, under which ID, and exactly when it is ignored or raises. */
  ghost predicate NativelyInserted(
    world: World, n: Native, kind: Kind, given: Option<int>, spare: Option<int>, row: Row, ignore: bool, now: Native, reply: Reply)
    requires AllDeclared(n)
  {
    var offered := Named(kind, row) && exists id :: NewId(n.Keys, kind, given, spare, id);
    && !reply.NoRow?
    && (!offered ==> reply == Raised)
    && (forall id | Named(kind, row) && NewId(n.Keys, kind, given, spare, id) ::
          var allowed := Declared(kind, row) && (kind, id) !in n && RoomFor(n, kind, None, row);
          && (!allowed ==> reply == if ignore then Ignored else Raised)
          && (allowed ==> reply == if References(world, n.Keys, row) then Wrote(id) else Raised)
          && (reply.Wrote? ==> now == n[(kind, id) := row]))
    && (!reply.Wrote? ==> now == n)
  }

  lemma NativeInsertIs(
    world: World, n: Native, kind: Kind, given: Option<int>, spare: Option<int>, row: Row, ignore: bool)
    ensures
      var chosen := ChosenId(n.Keys, kind, given, spare);
      NativeInsert(world, n, kind, given, spare, row, ignore) ==
        if !Shaped(kind, row) || chosen.None? then (n, Raised)
        else if !Complete(kind, row) || (kind, chosen.value) in n || !UniqueFree(n, kind, None, row) then
          (n, if ignore then Ignored else Raised)
        else if !OuterFound(world, row.outer) || !ParentsFound(n.Keys, row.refs) then (n, Raised)
        else (n[(kind, chosen.value) := row], Wrote(chosen.value))
  {
    hide ChosenId;
    hide Shaped;
    hide Complete;
    hide UniqueFree;
    hide OuterFound;
    hide ParentsFound;
  }

  lemma InsertedFrom(
    world: World, n: Native, kind: Kind, given: Option<int>, spare: Option<int>, row: Row, ignore: bool, now: Native, reply: Reply,
    chosen: Option<int>)
    requires AllDeclared(n) && forall id :: NewId(n.Keys, kind, given, spare, id) <==> chosen == Some(id)
    requires (now, reply) ==
      if !Named(kind, row) || chosen.None? then (n, Raised)
      else if !(Declared(kind, row) && (kind, chosen.value) !in n && RoomFor(n, kind, None, row)) then
        (n, if ignore then Ignored else Raised)
      else if !References(world, n.Keys, row) then (n, Raised)
      else (n[(kind, chosen.value) := row], Wrote(chosen.value))
    ensures NativelyInserted(world, n, kind, given, spare, row, ignore, now, reply)
  {
    hide NewId;
    hide Named;
    hide Declared;
    hide RoomFor;
    hide References;
    hide AllDeclared;
    if chosen.Some? { assert NewId(n.Keys, kind, given, spare, chosen.value); }
  }

  lemma NativeInsertTold(
    world: World, n: Native, kind: Kind, given: Option<int>, spare: Option<int>, row: Row, ignore: bool)
    requires AllDeclared(n)
    ensures
      var step := NativeInsert(world, n, kind, given, spare, row, ignore);
      NativelyInserted(world, n, kind, given, spare, row, ignore, step.0, step.1)
  {
    hide *;
    NativeInsertIs(world, n, kind, given, spare, row, ignore);
    NamedIs(kind, row);
    CompleteIs(kind, row);
    forall id ensures ChosenId(n.Keys, kind, given, spare) == Some(id) <==> NewId(n.Keys, kind, given, spare, id) {
      ChosenIs(n.Keys, kind, given, spare, id);
    }
    if Declared(kind, row) {
      RoomIs(n, kind, None, row);
      ReferencesIs(world, n.Keys, kind, row);
    }
    var step := NativeInsert(world, n, kind, given, spare, row, ignore);
    InsertedFrom(world, n, kind, given, spare, row, ignore, step.0, step.1, ChosenId(n.Keys, kind, given, spare));
  }

  /** The row with the named columns changed and the others as they were. */
  predicate ColumnsChanged(was: Row, now: Row, changes: Changes) {
    && now.refs.Keys == was.refs.Keys && now.outer.Keys == was.outer.Keys && now.cells.Keys == was.cells.Keys
    && (forall f | f in now.refs :: now.refs[f] == if f in changes.refs then changes.refs[f] else was.refs[f])
    && (forall f | f in now.outer :: now.outer[f] == if f in changes.outer then changes.outer[f] else was.outer[f])
    && (forall f | f in now.cells :: now.cells[f] == if f in changes.cells then changes.cells[f] else was.cells[f])
  }

  predicate ChangesNamed(kind: Kind, changes: Changes) {
    && changes.refs.Keys <= RefNames(kind) && changes.outer.Keys <= OuterNames(kind) && changes.cells.Keys <= CellNames(kind)
    && (changes.id.Some? ==> -0x8000_0000_0000_0000 <= changes.id.value <= 0x7FFF_FFFF_FFFF_FFFF)
    && (changes.id.Some? || changes.refs != map[] || changes.outer != map[] || changes.cells != map[])
  }

  /** Some row refers to this one, in a column declared for its table. */
  ghost predicate InUse(n: Native, kind: Kind, id: int) {
    exists k :: k in n && (
      || (kind == Review && (Names(n[k], Predecessor, id) || Names(n[k], ReviewRef, id)))
      || (kind == Candidate && Names(n[k], CandidateRef, id))
      || (kind == Selection && Names(n[k], SelectionRef, id))
      || (kind == Execution && Names(n[k], ExecutionRef, id)))
  }

  predicate Names(row: Row, ref: Ref, id: int) { ref in row.refs && row.refs[ref] == Some(id) }

  lemma InUseIs(n: Native, kind: Kind, id: int)
    ensures InUse(n, kind, id) <==> Referenced(n, kind, id)
  {
    if Referenced(n, kind, id) {
      var k, f :| k in n && f in n[k].refs && ParentKind(f) == kind && n[k].refs[f] == Some(id);
      assert Names(n[k], f, id);
    }
    if InUse(n, kind, id) {
      var k :| k in n && (
        || (kind == Review && (Names(n[k], Predecessor, id) || Names(n[k], ReviewRef, id)))
        || (kind == Candidate && Names(n[k], CandidateRef, id))
        || (kind == Selection && Names(n[k], SelectionRef, id))
        || (kind == Execution && Names(n[k], ExecutionRef, id)));
      var f := match kind
        case Review => (if Names(n[k], Predecessor, id) then Predecessor else ReviewRef)
        case Candidate => CandidateRef
        case Selection => SelectionRef
        case _ => ExecutionRef;
      assert f in n[k].refs && ParentKind(f) == kind && n[k].refs[f] == Some(id);
    }
  }

  /** Named references reach their rows; those that are not named were checked before. */
  predicate ChangesReach(world: World, keys: set<(Kind, int)>, changes: Changes) {
    References(world, keys, Row(changes.refs, changes.outer, map[]))
  }

  ghost predicate NativelyUpdated(
    world: World, n: Native, kind: Kind, id: int, changes: Changes, now: Native, reply: Reply)
    requires AllDeclared(n)
  {
    && (!ChangesNamed(kind, changes) ==> reply == Raised)
    && (ChangesNamed(kind, changes) ==> (reply == NoRow <==> (kind, id) !in n))
    && (ChangesNamed(kind, changes) && (kind, id) in n ==>
          forall row | ColumnsChanged(n[(kind, id)], row, changes) ::
            var to := if changes.id.Some? then changes.id.value else id;
            var allowed := && Declared(kind, row) && RoomFor(n, kind, Some(id), row) && ChangesReach(world, n.Keys, changes)
                           && (to == id || ((kind, to) !in n && !InUse(n, kind, id)));
            && (reply == if allowed then Wrote(to) else Raised)
            && (allowed ==> now == (n - {(kind, id)})[(kind, to) := row]))
    && (!reply.Wrote? ==> now == n)
  }

  lemma PatchedKeys(kind: Kind, was: Row, changes: Changes)
    requires Shaped(kind, was) && ShapedChanges(kind, changes)
    ensures
      var patched := Patched(was, changes);
      patched.refs.Keys == was.refs.Keys && patched.outer.Keys == was.outer.Keys && patched.cells.Keys == was.cells.Keys
  {
    hide RefsOf;
    hide OuterOf;
    hide CellsOf;
  }

  lemma SameEntries<K, V>(x: map<K, V>, y: map<K, V>)
    ensures x == y || !(x.Keys == y.Keys && forall f | f in x :: x[f] == y[f])
  {
    if x.Keys == y.Keys && forall f | f in x :: x[f] == y[f] { assert x == y; }
  }

  lemma PatchedIs(kind: Kind, was: Row, row: Row, changes: Changes)
    requires Shaped(kind, was) && ShapedChanges(kind, changes)
    ensures ColumnsChanged(was, row, changes) <==> row == Patched(was, changes)
  {
    PatchedKeys(kind, was, changes);
    var patched := Patched(was, changes);
    hide Shaped;
    hide ShapedChanges;
    if ColumnsChanged(was, row, changes) {
      SameEntries(row.refs, patched.refs);
      SameEntries(row.outer, patched.outer);
      SameEntries(row.cells, patched.cells);
    }
  }

  lemma NamedChangesIs(kind: Kind, changes: Changes)
    ensures ChangesNamed(kind, changes) <==> ShapedChanges(kind, changes)
  {
    NamesAre(kind);
    CellNamesAre(kind);
    hide RefNames;
    hide OuterNames;
    hide CellNames;
    hide RefsOf;
    hide OuterOf;
    hide CellsOf;
  }

  lemma DeclaredShaped(kind: Kind, row: Row)
    requires Declared(kind, row)
    ensures Shaped(kind, row)
  {
    CompleteIs(kind, row);
    hide Declared;
    hide Shaped;
  }

  lemma NativeUpdateIs(world: World, n: Native, kind: Kind, id: int, changes: Changes)
    ensures
      NativeUpdate(world, n, kind, id, changes) ==
      if !ShapedChanges(kind, changes) then (n, Raised)
      else if (kind, id) !in n then (n, NoRow)
      else
        var row := Patched(n[(kind, id)], changes);
        var to := if changes.id.Some? then changes.id.value else id;
        if && Complete(kind, row) && UniqueFree(n, kind, Some(id), row)
           && OuterFound(world, changes.outer) && ParentsFound(n.Keys, changes.refs)
           && (to == id || ((kind, to) !in n && !Referenced(n, kind, id)))
        then ((n - {(kind, id)})[(kind, to) := row], Wrote(to))
        else (n, Raised)
  {
    hide ShapedChanges;
    hide Patched;
    hide Complete;
    hide UniqueFree;
    hide OuterFound;
    hide ParentsFound;
    hide Referenced;
  }

  lemma UpdatedFrom(
    world: World, n: Native, kind: Kind, id: int, changes: Changes, patched: Row, now: Native, reply: Reply)
    requires AllDeclared(n)
    requires (kind, id) in n && ChangesNamed(kind, changes) ==>
      forall row :: ColumnsChanged(n[(kind, id)], row, changes) <==> row == patched
    requires (now, reply) ==
      if !ChangesNamed(kind, changes) then (n, Raised)
      else if (kind, id) !in n then (n, NoRow)
      else
        var to := if changes.id.Some? then changes.id.value else id;
        if && Declared(kind, patched) && RoomFor(n, kind, Some(id), patched) && ChangesReach(world, n.Keys, changes)
           && (to == id || ((kind, to) !in n && !InUse(n, kind, id)))
        then ((n - {(kind, id)})[(kind, to) := patched], Wrote(to))
        else (n, Raised)
    ensures NativelyUpdated(world, n, kind, id, changes, now, reply)
  {
    hide AllDeclared;
    hide ChangesNamed;
    hide ColumnsChanged;
    hide Declared;
    hide RoomFor;
    hide ChangesReach;
    hide InUse;
  }

  lemma NativeUpdateTold(world: World, n: Native, kind: Kind, id: int, changes: Changes)
    requires AllDeclared(n)
    ensures
      var step := NativeUpdate(world, n, kind, id, changes);
      NativelyUpdated(world, n, kind, id, changes, step.0, step.1)
  {
    hide *;
    NativeUpdateIs(world, n, kind, id, changes);
    NamedChangesIs(kind, changes);
    InUseIs(n, kind, id);
    ReachIs(world, n.Keys, changes);
    var step := NativeUpdate(world, n, kind, id, changes);
    var was := if (kind, id) in n then n[(kind, id)] else Row(map[], map[], map[]);
    var patched := Patched(was, changes);
    if (kind, id) in n && ShapedChanges(kind, changes) {
      RowDeclared(n, (kind, id));
      DeclaredShaped(kind, was);
      forall row ensures ColumnsChanged(was, row, changes) <==> row == patched { PatchedIs(kind, was, row, changes); }
      CompleteIs(kind, patched);
      if Declared(kind, patched) { RoomIs(n, kind, Some(id), patched); }
    }
    UpdatedFrom(world, n, kind, id, changes, patched, step.0, step.1);
  }

  lemma RowDeclared(n: Native, k: (Kind, int))
    requires AllDeclared(n) && k in n
    ensures Declared(k.0, n[k])
  {
    hide Declared;
  }

  lemma ReachIs(world: World, keys: set<(Kind, int)>, changes: Changes)
    ensures ChangesReach(world, keys, changes) <==> OuterFound(world, changes.outer) && ParentsFound(keys, changes.refs)
  {
    AtIs(world, keys, Row(changes.refs, changes.outer, map[]));
    hide References;
    hide OuterFound;
    hide ParentsFound;
  }

  ghost predicate NativelyDeleted(n: Native, kind: Kind, id: int, now: Native, reply: Reply) {
    && reply == (if (kind, id) !in n then NoRow else if InUse(n, kind, id) then Raised else Wrote(id))
    && now == if reply.Wrote? then n - {(kind, id)} else n
  }

  lemma NativeDeleteTold(n: Native, kind: Kind, id: int)
    ensures NativelyDeleted(n, kind, id, NativeDelete(n, kind, id).0, NativeDelete(n, kind, id).1)
  {
    InUseIs(n, kind, id);
    hide InUse;
    hide Referenced;
  }
}
