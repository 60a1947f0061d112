/** The six native candidate tables: their declared columns, constraints and writes. */
module CandidateTables {
  import opened Wrappers
  import opened Ids

  datatype Kind = Candidate | Review | Selection | Supplement | Execution | Attempt

  /** Columns that reference another candidate table. */
  datatype Ref = Predecessor | CandidateRef | ReviewRef | SelectionRef | ExecutionRef

  /** Columns that reference a task or a run, whose public and physical IDs are one. */
  datatype Outer = Task | ConsumerRun | AuditRun

  datatype Cell = Null | Number(number: int) | Words(words: string)

  /** A row without its ID.  `refs` are public IDs here, physical IDs in the single table. */
  datatype Row = Row(refs: map<Ref, Option<int>>, outer: map<Outer, Option<int>>, cells: map<string, Cell>)

  type Native = map<(Kind, int), Row>

  /** The tasks and the runs a statement finds. */
  datatype World = World(tasks: set<int>, runs: set<int>)

  function ParentKind(ref: Ref): Kind {
    match ref
    case Predecessor => Review
    case CandidateRef => Candidate
    case ReviewRef => Review
    case SelectionRef => Selection
    case ExecutionRef => Execution
  }

  function RefsOf(kind: Kind): set<Ref> {
    match kind
    case Candidate => {Predecessor}
    case Review => {CandidateRef}
    case Selection => {CandidateRef, ReviewRef}
    case Supplement => {CandidateRef}
    case Execution => {CandidateRef, ReviewRef, SelectionRef}
    case Attempt => {ExecutionRef}
  }

  function OuterOf(kind: Kind): set<Outer> {
    match kind
    case Candidate => {Task, ConsumerRun}
    case Review => {AuditRun}
    case _ => {}
  }

  function CellsOf(kind: Kind): set<string> {
    match kind
    case Candidate => {"execution_generation", "stage_index", "proposal_revision", "candidate_digest",
                       "candidate_json", "invalidated_at", "invalidation_reason", "created_at"}
    case Review => {"decision", "candidate_digest", "result_json", "created_at"}
    case Selection => {"option_key", "branch_json", "status", "created_at"}
    case Supplement => {"instruction", "created_at"}
    case Execution => {"status", "lease_owner", "lease_expires_at", "result_json", "created_at", "updated_at"}
    case Attempt => {"action_index", "external_action_key", "status", "result_json", "created_at", "updated_at"}
  }

  const NULLABLE := {Predecessor, SelectionRef}

  function EnumOf(kind: Kind): Option<(string, set<string>)> {
    match kind
    case Review => Some(("decision", {"approve", "return", "reject"}))
    case Execution => Some(("status", {"running", "done", "skipped", "failed", "retry", "uncertain"}))
    case Attempt => Some(("status", {"dispatched", "verified", "confirmed_no_effect", "uncertain", "failed"}))
    case _ => None
  }

  predicate EnumKept(kind: Kind, cells: map<string, Cell>) {
    match EnumOf(kind)
    case None => true
    case Some((field, options)) => field in cells && cells[field].Words? && cells[field].words in options
  }

  predicate Shaped(kind: Kind, row: Row) {
    row.refs.Keys == RefsOf(kind) && row.outer.Keys == OuterOf(kind) && row.cells.Keys == CellsOf(kind)
  }

  /** NOT NULL and CHECK, which both declarations share. */
  predicate Complete(kind: Kind, row: Row) {
    && Shaped(kind, row)
    && (forall f | f in row.refs && f !in NULLABLE :: row.refs[f].Some?)
    && (forall f | f in row.outer :: row.outer[f].Some?)
    && (forall f | f in row.cells :: row.cells[f] != Null)
    && EnumKept(kind, row.cells)
  }

  /** The columns of the one unique index a kind declares besides its ID. */
  datatype Unique = Unique(outer: Option<int>, ref: Option<int>, cell: Cell)

  function RefOf(row: Row, ref: Ref): Option<int> { if ref in row.refs then row.refs[ref] else None }

  function OuterAt(row: Row, outer: Outer): Option<int> { if outer in row.outer then row.outer[outer] else None }

  function UniqueOf(kind: Kind, row: Row): Option<Unique> {
    match kind
    case Candidate => Some(Unique(OuterAt(row, ConsumerRun), None, Null))
    case Review => Some(Unique(OuterAt(row, AuditRun), None, Null))
    case Selection => Some(Unique(None, RefOf(row, CandidateRef), Null))
    case Supplement => None
    case Execution => Some(Unique(None, RefOf(row, CandidateRef), Null))
    case Attempt =>
      Some(Unique(None, RefOf(row, ExecutionRef), if "action_index" in row.cells then row.cells["action_index"] else Null))
  }

  // ---------- IDs ----------

  function IdsOf(keys: set<(Kind, int)>, kind: Kind): set<int> {
    set k | k in keys && k.0 == kind :: k.1
  }

  /**
   * The ID of a new row: the given one, else one more than the largest of its kind.  Above the largest
   * integer SQLite tries random IDs; `spare` is the unused one it hits upon, if it does.
   */
  function ChosenId(keys: set<(Kind, int)>, kind: Kind, id: Option<int>, spare: Option<int>): Option<int> {
    if id.Some? then (if Storable(id.value) then id else None)
    else
      var ids := IdsOf(keys, kind);
      if ids == {} then Some(1)
      else if Largest(ids) != MAX_ID then Some(Largest(ids) + 1)
      else if spare.Some? && spare.value !in ids then spare
      else None
  }

  // ---------- writes on the native tables ----------

  datatype Changes = Changes(id: Option<int>, refs: map<Ref, Option<int>>, outer: map<Outer, Option<int>>, cells: map<string, Cell>)

  datatype Call =
    | Insert(kind: Kind, given: Option<int>, spare: Option<int>, row: Row, ignore: bool)
    | Update(kind: Kind, id: int, changes: Changes)
    | Delete(kind: Kind, id: int)

  datatype Reply = Wrote(id: int) | NoRow | Ignored | Raised

  function Patched(row: Row, changes: Changes): Row {
    Row(row.refs + changes.refs, row.outer + changes.outer, row.cells + changes.cells)
  }

  predicate ShapedChanges(kind: Kind, changes: Changes) {
    && changes.refs.Keys <= RefsOf(kind) && changes.outer.Keys <= OuterOf(kind) && changes.cells.Keys <= CellsOf(kind)
    && (changes.id.Some? ==> Storable(changes.id.value))
    && (changes.id.Some? || changes.refs != map[] || changes.outer != map[] || changes.cells != map[])
  }

  predicate OuterFound(world: World, outer: map<Outer, Option<int>>) {
    forall f | f in outer && outer[f].Some? :: outer[f].value in if f == Task then world.tasks else world.runs
  }

  /** Foreign keys into the candidate tables. */
  predicate ParentsFound(keys: set<(Kind, int)>, refs: map<Ref, Option<int>>) {
    forall f | f in refs && refs[f].Some? :: (ParentKind(f), refs[f].value) in keys
  }

  predicate Referenced(n: Native, kind: Kind, id: int) {
    exists k, f :: k in n && f in n[k].refs && ParentKind(f) == kind && n[k].refs[f] == Some(id)
  }

  /** No other row of the kind holds the same unique columns. */
  predicate UniqueFree(n: Native, kind: Kind, self: Option<int>, row: Row) {
    forall k | k in n && k.0 == kind && Some(k.1) != self :: UniqueOf(kind, row).None? || UniqueOf(kind, n[k]) != UniqueOf(kind, row)
  }

  function NativeInsert(world: World, n: Native, kind: Kind, id: Option<int>, spare: Option<int>, row: Row, ignore: bool)
    : (Native, Reply)
  {
    var chosen := ChosenId(n.Keys, kind, id, spare);
    if !Shaped(kind, row) || chosen.None? then (n, Raised)
    else if !Complete(kind, row) || (kind, chosen.value) in n || !UniqueFree(n, kind, None, row) then
      (n, if ignore then Ignored else Raised)
    else if !OuterFound(world, row.outer) || !ParentsFound(n.Keys, row.refs) then (n, Raised)
    else (n[(kind, chosen.value) := row], Wrote(chosen.value))
  }

  function NativeUpdate(world: World, n: Native, kind: Kind, id: int, changes: Changes): (Native, Reply) {
    if !ShapedChanges(kind, changes) then (n, Raised)
    else if (kind, id) !in n then (n, NoRow)
    else
      var row := Patched(n[(kind, id)], changes);
      var now := if changes.id.Some? then changes.id.value else id;
      if || !Complete(kind, row) || (now != id && (kind, now) in n) || !UniqueFree(n, kind, Some(id), row)
         || !OuterFound(world, changes.outer) || !ParentsFound(n.Keys, changes.refs)
         || (now != id && Referenced(n, kind, id))
      then (n, Raised)
      else ((n - {(kind, id)})[(kind, now) := row], Wrote(now))
  }

  function NativeDelete(n: Native, kind: Kind, id: int): (Native, Reply) {
    if (kind, id) !in n then (n, NoRow)
    else if Referenced(n, kind, id) then (n, Raised)
    else (n - {(kind, id)}, Wrote(id))
  }

  function NativeStep(world: World, n: Native, call: Call): (Native, Reply) {
    match call
    case Insert(kind, id, spare, row, ignore) => NativeInsert(world, n, kind, id, spare, row, ignore)
    case Update(kind, id, changes) => NativeUpdate(world, n, kind, id, changes)
    case Delete(kind, id) => NativeDelete(n, kind, id)
  }

  /** What the native declarations guarantee: complete rows, unique columns, resolved references. */
  ghost predicate Consistent(n: Native) {
    forall k | k in n ::
      Complete(k.0, n[k]) && ParentsFound(n.Keys, n[k].refs) && UniqueFree(n, k.0, Some(k.1), n[k])
  }

  ghost predicate RowSound(n: Native, k: (Kind, int)) {
    k in n && Complete(k.0, n[k]) && ParentsFound(n.Keys, n[k].refs) && UniqueFree(n, k.0, Some(k.1), n[k])
  }

  /** A row that meets its constraints keeps meeting them when another one takes its place among the others. */
  lemma RowStaysSound(n: Native, m: Native, k: (Kind, int), added: (Kind, int), row: Row)
    requires RowSound(n, k) && k != added && m == n[added := row]
    requires UniqueFree(n, added.0, Some(added.1), row)
    ensures RowSound(m, k)
  {
    if k.0 == added.0 { assert Some(k.1) != Some(added.1); }
    hide Complete;
    hide UniqueOf;
  }

  lemma {:induction false} RemovedSound(n: Native, k: (Kind, int), gone: (Kind, int))
    requires RowSound(n, k) && k != gone && !Referenced(n, gone.0, gone.1)
    ensures RowSound(n - {gone}, k)
  {
    var m := n - {gone};
    forall f | f in n[k].refs && n[k].refs[f].Some? ensures (ParentKind(f), n[k].refs[f].value) in m.Keys {
      var parent := (ParentKind(f), n[k].refs[f].value);
      assert parent in n.Keys && parent != gone;
    }
    hide Complete;
    hide UniqueOf;
  }

  lemma ConsistentIs(n: Native)
    ensures Consistent(n) <==> forall k | k in n :: RowSound(n, k)
  {
    hide Complete;
    hide ParentsFound;
    hide UniqueFree;
  }

  lemma AddedSound(n: Native, m: Native, added: (Kind, int), row: Row)
    requires Consistent(n) && m == n[added := row] && Complete(added.0, row)
    requires UniqueFree(n, added.0, Some(added.1), row) && ParentsFound(m.Keys, row.refs)
    ensures Consistent(m)
  {
    hide Complete;
    hide UniqueOf;
    hide Consistent;
    ConsistentIs(n);
    ConsistentIs(m);
    forall k | k in n && k != added ensures RowSound(m, k) { RowStaysSound(n, m, k, added, row); }
    assert UniqueFree(m, added.0, Some(added.1), row);
  }

  lemma InsertConsistent(world: World, n: Native, kind: Kind, id: Option<int>, spare: Option<int>, row: Row, ignore: bool)
    requires Consistent(n)
    ensures Consistent(NativeInsert(world, n, kind, id, spare, row, ignore).0)
  {
    var (m, reply) := NativeInsert(world, n, kind, id, spare, row, ignore);
    hide Complete;
    hide UniqueOf;
    hide Consistent;
    hide ChosenId;
    if reply.Wrote? { AddedSound(n, m, (kind, reply.id), row); }
  }

  lemma UpdateWrites(world: World, n: Native, kind: Kind, id: int, changes: Changes)
    ensures
      var (m, reply) := NativeUpdate(world, n, kind, id, changes);
      if reply.Wrote?
      then (kind, id) in n
           && var row := Patched(n[(kind, id)], changes);
              Complete(kind, row) && UniqueFree(n, kind, Some(id), row) && ParentsFound(n.Keys, changes.refs)
              && (reply.id == id || ((kind, reply.id) !in n && !Referenced(n, kind, id)))
              && m == (n - {(kind, id)})[(kind, reply.id) := row]
      else m == n
  {
    hide Complete;
    hide UniqueFree;
    hide ParentsFound;
    hide Referenced;
    hide OuterFound;
    hide ShapedChanges;
  }

  lemma PatchedParents(n: Native, kind: Kind, id: int, changes: Changes)
    requires Consistent(n) && (kind, id) in n && ParentsFound(n.Keys, changes.refs)
    ensures ParentsFound(n.Keys, Patched(n[(kind, id)], changes).refs)
  {
    hide Complete;
    hide UniqueFree;
    assert ParentsFound(n.Keys, n[(kind, id)].refs);
  }

  /** Moved to another ID, the row still finds its parents, which are of other kinds, and still is alone. */
  lemma MovedRow(n: Native, kind: Kind, id: int, now: int, row: Row)
    requires Complete(kind, row) && UniqueFree(n, kind, Some(id), row) && ParentsFound(n.Keys, row.refs)
    ensures
      var m := n - {(kind, id)};
      UniqueFree(m, kind, Some(now), row) && ParentsFound(m[(kind, now) := row].Keys, row.refs)
  {
    NoOwnKind(kind, row);
    hide Complete;
    hide UniqueOf;
  }

  lemma UpdateConsistent(world: World, n: Native, kind: Kind, id: int, changes: Changes)
    requires Consistent(n)
    ensures Consistent(NativeUpdate(world, n, kind, id, changes).0)
  {
    hide *;
    UpdateWrites(world, n, kind, id, changes);
    var (m, reply) := NativeUpdate(world, n, kind, id, changes);
    if reply.Wrote? {
      var row := Patched(n[(kind, id)], changes);
      PatchedParents(n, kind, id, changes);
      if reply.id == id {
        assert m == n[(kind, id) := row];
        MoreKeys(n, m, row);
        AddedSound(n, m, (kind, id), row);
      } else {
        WithoutConsistent(n, kind, id);
        MovedRow(n, kind, id, reply.id, row);
        AddedSound(n - {(kind, id)}, m, (kind, reply.id), row);
      }
    }
  }

  lemma MoreKeys(n: Native, m: Native, row: Row)
    requires n.Keys <= m.Keys && ParentsFound(n.Keys, row.refs)
    ensures ParentsFound(m.Keys, row.refs)
  {
  }

  lemma WithoutConsistent(n: Native, kind: Kind, id: int)
    requires Consistent(n) && (kind, id) in n && !Referenced(n, kind, id)
    ensures Consistent(n - {(kind, id)})
  {
    DeleteConsistent(n, kind, id);
    hide Consistent;
    hide Referenced;
  }

  /** No kind references itself. */
  lemma NoOwnKind(kind: Kind, row: Row)
    requires Complete(kind, row)
    ensures forall f | f in row.refs :: ParentKind(f) != kind
  {
    forall f | f in row.refs ensures ParentKind(f) != kind { assert f in RefsOf(kind); }
  }

  lemma DeleteConsistent(n: Native, kind: Kind, id: int)
    requires Consistent(n)
    ensures Consistent(NativeDelete(n, kind, id).0)
  {
    hide Consistent;
    ConsistentIs(n);
    if (kind, id) in n && !Referenced(n, kind, id) {
      var m := n - {(kind, id)};
      ConsistentIs(m);
      hide Referenced;
      hide RowSound;
      forall k | k in m ensures RowSound(m, k) { RemovedSound(n, k, (kind, id)); }
    }
  }

  /** Every native write keeps what the declarations promise. */
  lemma StepConsistent(world: World, n: Native, call: Call)
    requires Consistent(n)
    ensures Consistent(NativeStep(world, n, call).0)
  {
    hide Consistent;
    hide NativeInsert;
    hide NativeUpdate;
    hide NativeDelete;
    match call
    case Insert(kind, given, spare, row, ignore) => InsertConsistent(world, n, kind, given, spare, row, ignore);
    case Update(kind, id, changes) => UpdateConsistent(world, n, kind, id, changes);
    case Delete(kind, id) => DeleteConsistent(n, kind, id);
  }
}
