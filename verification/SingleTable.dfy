/** The typed `actions` table that replaces the six candidate tables, and what its writes refine. */
module SingleTable {
  import opened Wrappers
  import opened CandidateTables
  import opened Ids

  /** A stored row: its kind and public ID, and columns whose references are physical IDs. */
  datatype Stored = Stored(kind: Kind, id: int, row: Row)

  /** The table by physical ID, and its unique index from (kind, public ID). */
  datatype Table = Table(rows: map<int, Stored>, index: map<(Kind, int), int>)

  // ---------- the projection ----------

  /** Physical reference to public ID, as the projection joins it back. */
  function Public(t: Table, ref: Option<int>): Option<int> {
    if ref.Some? && ref.value in t.rows then Some(t.rows[ref.value].id) else None
  }

  function PublicRefs(t: Table, refs: map<Ref, Option<int>>): map<Ref, Option<int>> {
    map f | f in refs :: Public(t, refs[f])
  }

  function Projected(t: Table, row: Row): Row { row.(refs := PublicRefs(t, row.refs)) }

  function KeyAt(t: Table, p: int): (Kind, int)
    requires p in t.rows
  {
    (t.rows[p].kind, t.rows[p].id)
  }

  predicate IndexExact(t: Table) {
    && (forall p | p in t.rows :: (t.rows[p].kind, t.rows[p].id) in t.index && t.index[(t.rows[p].kind, t.rows[p].id)] == p)
    && (forall k | k in t.index :: t.index[k] in t.rows && (t.rows[t.index[k]].kind, t.rows[t.index[k]].id) == k)
  }

  predicate RefsTyped(t: Table, refs: map<Ref, Option<int>>) {
    forall f | f in refs && refs[f].Some? :: refs[f].value in t.rows && t.rows[refs[f].value].kind == ParentKind(f)
  }

  /** What the table's own index, foreign keys and type triggers keep. */
  ghost predicate Valid(t: Table) {
    IndexExact(t) && forall p | p in t.rows :: RefsTyped(t, t.rows[p].row.refs)
  }

  /** The abstraction: the native tables the projections show. */
  ghost function Shown(t: Table): Native
    requires IndexExact(t)
  {
    map k | k in t.index :: Projected(t, t.rows[t.index[k]].row)
  }

  // ---------- writes on the single table ----------

  function Physical(t: Table, f: Ref, ref: Option<int>): Option<int> {
    if ref.Some? && (ParentKind(f), ref.value) in t.index then Some(t.index[(ParentKind(f), ref.value)]) else None
  }

  /** Public references to physical ones; every one named must be found before the statement is sent. */
  function Resolved(t: Table, refs: map<Ref, Option<int>>): map<Ref, Option<int>> {
    map f | f in refs :: Physical(t, f, refs[f])
  }

  function NextPhysical(t: Table): int {
    if t.rows.Keys == {} then 1 else Largest(t.rows.Keys) + 1
  }

  predicate StoredUniqueFree(t: Table, kind: Kind, self: Option<int>, row: Row) {
    forall p | p in t.rows && t.rows[p].kind == kind && Some(p) != self ::
      UniqueOf(kind, row).None? || UniqueOf(kind, t.rows[p].row) != UniqueOf(kind, row)
  }

  predicate StoredReferenced(t: Table, id: int) {
    exists p, f :: p in t.rows && f in t.rows[p].row.refs && t.rows[p].row.refs[f] == Some(id)
  }

  function Put(t: Table, p: int, stored: Stored): Table {
    Table(t.rows[p := stored], t.index[(stored.kind, stored.id) := p])
  }

  function InsertStep(world: World, t: Table, kind: Kind, given: Option<int>, spare: Option<int>, row: Row, ignore: bool)
    : (Table, Reply)
  {
    var chosen := ChosenId(t.index.Keys, kind, given, spare);
    var stored := row.(refs := Resolved(t, row.refs));
    if !Shaped(kind, row) || !OuterFound(world, row.outer) || !ParentsFound(t.index.Keys, row.refs) || chosen.None? then
      (t, Raised)
    else if !Complete(kind, stored) || (kind, chosen.value) in t.index || !StoredUniqueFree(t, kind, None, stored) then
      (t, if ignore then Ignored else Raised)
    else (Put(t, NextPhysical(t), Stored(kind, chosen.value, stored)), Wrote(chosen.value))
  }

  function UpdateStep(world: World, t: Table, kind: Kind, id: int, changes: Changes): (Table, Reply) {
    if !ShapedChanges(kind, changes) || !OuterFound(world, changes.outer) || !ParentsFound(t.index.Keys, changes.refs) then
      (t, Raised)
    else if (kind, id) !in t.index || t.index[(kind, id)] !in t.rows then (t, NoRow)
    else
      var p := t.index[(kind, id)];
      var row := Patched(t.rows[p].row, changes.(refs := Resolved(t, changes.refs)));
      var now := if changes.id.Some? then changes.id.value else id;
      if || !Complete(kind, row) || (now != id && (kind, now) in t.index) || !StoredUniqueFree(t, kind, Some(p), row)
         || (now != id && StoredReferenced(t, p))
      then (t, Raised)
      else (Put(t.(index := t.index - {(kind, id)}), p, Stored(kind, now, row)), Wrote(now))
  }

  function DeleteStep(t: Table, kind: Kind, id: int): (Table, Reply) {
    if (kind, id) !in t.index then (t, NoRow)
    else if StoredReferenced(t, t.index[(kind, id)]) then (t, Raised)
    else (Table(t.rows - {t.index[(kind, id)]}, t.index - {(kind, id)}), Wrote(id))
  }

  function Step(world: World, t: Table, call: Call): (Table, Reply) {
    match call
    case Insert(kind, given, spare, row, ignore) => InsertStep(world, t, kind, given, spare, row, ignore)
    case Update(kind, id, changes) => UpdateStep(world, t, kind, id, changes)
    case Delete(kind, id) => DeleteStep(t, kind, id)
  }

  /** The two calls that answer differently: a parent is missing where SQLite would not have looked for it. */
  predicate LooksTooEarly(world: World, n: Native, call: Call) {
    match call
    case Insert(_, _, _, row, _) =>
      NativeStep(world, n, call).1 == Ignored && !(OuterFound(world, row.outer) && ParentsFound(n.Keys, row.refs))
    case Update(_, _, changes) =>
      NativeStep(world, n, call).1 == NoRow && !(OuterFound(world, changes.outer) && ParentsFound(n.Keys, changes.refs))
    case Delete(_, _) => false
  }

  // ---------- translating references back and forth ----------

  lemma PublicPhysical(t: Table, refs: map<Ref, Option<int>>)
    requires IndexExact(t) && ParentsFound(t.index.Keys, refs)
    ensures RefsTyped(t, Resolved(t, refs)) && PublicRefs(t, Resolved(t, refs)) == refs
  {
    forall f | f in refs && refs[f].Some?
      ensures Physical(t, f, refs[f]).Some? && Public(t, Physical(t, f, refs[f])) == refs[f]
    {
      var id := refs[f].value;
      assert (ParentKind(f), id) in t.index;
    }
  }

  /** Unique columns clash physically exactly when they clash publicly. */
  lemma UniqueShown(t: Table, kind: Kind, x: Row, y: Row)
    requires IndexExact(t) && RefsTyped(t, x.refs) && RefsTyped(t, y.refs)
    ensures UniqueOf(kind, Projected(t, x)) == UniqueOf(kind, Projected(t, y)) <==> UniqueOf(kind, x) == UniqueOf(kind, y)
  {
    RefShown(t, x, y, CandidateRef);
    RefShown(t, x, y, ExecutionRef);
  }

  lemma RefShown(t: Table, x: Row, y: Row, f: Ref)
    requires IndexExact(t) && RefsTyped(t, x.refs) && RefsTyped(t, y.refs)
    ensures RefOf(Projected(t, x), f) == RefOf(Projected(t, y), f) <==> RefOf(x, f) == RefOf(y, f)
  {
    TypedRef(t, x, f);
    TypedRef(t, y, f);
  }

  lemma TypedRef(t: Table, x: Row, f: Ref)
    requires IndexExact(t) && RefsTyped(t, x.refs)
    ensures RefOf(Projected(t, x), f) == Public(t, RefOf(x, f))
    ensures RefOf(x, f).Some? ==>
      && RefOf(x, f).value in t.rows && t.rows[RefOf(x, f).value].kind == ParentKind(f)
      && (ParentKind(f), t.rows[RefOf(x, f).value].id) in t.index
      && t.index[(ParentKind(f), t.rows[RefOf(x, f).value].id)] == RefOf(x, f).value
  {
    if RefOf(x, f).Some? {
      assert x.refs[f].Some?;
      var p := x.refs[f].value;
      assert p in t.rows;
    }
  }

  lemma CompleteShown(t: Table, kind: Kind, row: Row)
    requires RefsTyped(t, row.refs)
    ensures Complete(kind, Projected(t, row)) <==> Complete(kind, row)
    ensures Shaped(kind, Projected(t, row)) <==> Shaped(kind, row)
  {
    assert PublicRefs(t, row.refs).Keys == row.refs.Keys;
    assert forall f | f in row.refs :: PublicRefs(t, row.refs)[f].Some? <==> row.refs[f].Some?;
  }

  lemma ShownAt(t: Table, p: int)
    requires Valid(t) && p in t.rows
    ensures
      var k := (t.rows[p].kind, t.rows[p].id);
      k in t.index && t.index[k] == p && k in Shown(t) && Shown(t)[k] == Projected(t, t.rows[p].row)
    ensures RefsTyped(t, t.rows[p].row.refs)
  {
  }

  lemma ShownFrom(t: Table, k: (Kind, int))
    requires Valid(t)
    ensures k in Shown(t) <==> k in t.index
    ensures k in t.index ==> t.index[k] in t.rows && t.rows[t.index[k]].kind == k.0 && t.rows[t.index[k]].id == k.1
  {
  }

  lemma UniqueFreeShown(t: Table, kind: Kind, self: Option<int>, id: Option<int>, row: Row)
    requires Valid(t) && RefsTyped(t, row.refs)
    requires if self.Some? then self.value in t.rows && t.rows[self.value].kind == kind && id == Some(t.rows[self.value].id) else id.None?
    ensures StoredUniqueFree(t, kind, self, row) <==> UniqueFree(Shown(t), kind, id, Projected(t, row))
  {
    var n := Shown(t);
    NoUnique(t, kind, row);
    hide Valid;
    hide Shown;
    hide RefsTyped;
    hide UniqueOf;
    hide Projected;
    if self.Some? { ShownAt(t, self.value); }
    forall p | p in t.rows && t.rows[p].kind == kind
      ensures (kind, t.rows[p].id) in n && (Some(p) == self <==> Some(t.rows[p].id) == id)
      ensures UniqueOf(kind, t.rows[p].row) == UniqueOf(kind, row) <==> UniqueOf(kind, n[(kind, t.rows[p].id)]) == UniqueOf(kind, Projected(t, row))
    {
      ShownAt(t, p);
      UniqueShown(t, kind, t.rows[p].row, row);
    }
    forall k | k in n && k.0 == kind
      ensures t.index[k] in t.rows && t.rows[t.index[k]].kind == kind && t.rows[t.index[k]].id == k.1
    {
      ShownFrom(t, k);
    }
    if StoredUniqueFree(t, kind, self, row) {
      forall k | k in n && k.0 == kind && Some(k.1) != id
        ensures UniqueOf(kind, Projected(t, row)).None? || UniqueOf(kind, n[k]) != UniqueOf(kind, Projected(t, row))
      {
        var p := t.index[k];
        assert p in t.rows && Some(p) != self;
        assert k == (kind, t.rows[p].id);
      }
    }
    if UniqueFree(n, kind, id, Projected(t, row)) {
      forall p | p in t.rows && t.rows[p].kind == kind && Some(p) != self
        ensures UniqueOf(kind, row).None? || UniqueOf(kind, t.rows[p].row) != UniqueOf(kind, row)
      {
        assert (kind, t.rows[p].id) in n;
      }
    }
  }

  lemma NoUnique(t: Table, kind: Kind, row: Row)
    ensures UniqueOf(kind, row).None? <==> UniqueOf(kind, Projected(t, row)).None?
  {
  }

  lemma ReferencedShown(t: Table, kind: Kind, id: int)
    requires Valid(t) && (kind, id) in t.index
    ensures StoredReferenced(t, t.index[(kind, id)]) <==> Referenced(Shown(t), kind, id)
  {
    var n := Shown(t);
    var p := t.index[(kind, id)];
    assert p in t.rows;
    if StoredReferenced(t, p) {
      var q, f :| q in t.rows && f in t.rows[q].row.refs && t.rows[q].row.refs[f] == Some(p);
      assert RefsTyped(t, t.rows[q].row.refs);
      var k := (t.rows[q].kind, t.rows[q].id);
      assert k in n && n[k].refs[f] == Some(id);
    }
    if Referenced(n, kind, id) {
      var k, f :| k in n && f in n[k].refs && ParentKind(f) == kind && n[k].refs[f] == Some(id);
      var q := t.index[k];
      assert q in t.rows && RefsTyped(t, t.rows[q].row.refs);
      var target := t.rows[q].row.refs[f].value;
      assert target in t.rows;
    }
  }

  // ---------- the three writes ----------

  /** References of rows that stay still show the same public IDs when targets keep kind and ID. */
  lemma ProjectedSame(t: Table, t': Table, row: Row)
    requires RefsTyped(t, row.refs)
    requires forall f | f in row.refs && row.refs[f].Some? ::
      && row.refs[f].value in t'.rows && t'.rows[row.refs[f].value].id == t.rows[row.refs[f].value].id
      && t'.rows[row.refs[f].value].kind == t.rows[row.refs[f].value].kind
    ensures Projected(t', row) == Projected(t, row) && RefsTyped(t', row.refs)
  {
  }

  lemma Inserted(t: Table, kind: Kind, id: int, row: Row)
    requires Valid(t) && (kind, id) !in t.index && RefsTyped(t, row.refs)
    ensures
      var t' := Put(t, NextPhysical(t), Stored(kind, id, row));
      Valid(t') && Shown(t') == Shown(t)[(kind, id) := Projected(t, row)]
  {
    var p := NextPhysical(t);
    assert p !in t.rows by {
      if t.rows.Keys == {} { assert forall q | q in t.rows :: q in t.rows.Keys; } else { assert IsLargest(t.rows.Keys, p - 1); }
    }
    var t' := Put(t, p, Stored(kind, id, row));
    assert IndexExact(t');
    ProjectedSame(t, t', row);
    forall q | q in t.rows ensures Projected(t', t.rows[q].row) == Projected(t, t.rows[q].row) && RefsTyped(t', t.rows[q].row.refs) {
      ProjectedSame(t, t', t.rows[q].row);
    }
    hide Projected;
    hide RefsTyped;
  }

  /** A resolved row is the public row again when it is projected, and meets the same constraints. */
  lemma ResolvedRow(t: Table, kind: Kind, row: Row)
    requires Valid(t) && ParentsFound(t.index.Keys, row.refs)
    ensures
      var stored := row.(refs := Resolved(t, row.refs));
      && RefsTyped(t, stored.refs) && Projected(t, stored) == row
      && (Complete(kind, stored) <==> Complete(kind, row))
      && (StoredUniqueFree(t, kind, None, stored) <==> UniqueFree(Shown(t), kind, None, row))
  {
    var stored := row.(refs := Resolved(t, row.refs));
    PublicPhysical(t, row.refs);
    CompleteShown(t, kind, stored);
    UniqueFreeShown(t, kind, None, None, stored);
    hide Complete;
    hide UniqueFree;
    hide StoredUniqueFree;
  }

  lemma ShownKeys(t: Table)
    requires Valid(t)
    ensures IndexExact(t) && Shown(t).Keys == t.index.Keys
  {
  }

  lemma InsertCases(
    world: World, t: Table, n: Native, kind: Kind, given: Option<int>, spare: Option<int>, row: Row, ignore: bool)
    requires n.Keys == t.index.Keys
    requires ParentsFound(t.index.Keys, row.refs) ==>
      var stored := row.(refs := Resolved(t, row.refs));
      (Complete(kind, stored) <==> Complete(kind, row)) && (StoredUniqueFree(t, kind, None, stored) <==> UniqueFree(n, kind, None, row))
    ensures
      var (t', reply) := InsertStep(world, t, kind, given, spare, row, ignore);
      var (n', native) := NativeInsert(world, n, kind, given, spare, row, ignore);
      && reply == (if native == Ignored && !(OuterFound(world, row.outer) && ParentsFound(t.index.Keys, row.refs))
                   then Raised else native)
      && (if reply.Wrote?
          then ParentsFound(t.index.Keys, row.refs) && (kind, reply.id) !in t.index && n' == n[(kind, reply.id) := row]
               && t' == Put(t, NextPhysical(t), Stored(kind, reply.id, row.(refs := Resolved(t, row.refs))))
          else t' == t && n' == n)
  {
    hide Complete;
    hide Shaped;
    hide UniqueFree;
    hide StoredUniqueFree;
    hide ChosenId;
    hide OuterFound;
    hide ParentsFound;
    hide Resolved;
    hide Put;
    hide NextPhysical;
  }

  lemma InsertRefines(
    world: World, t: Table, kind: Kind, given: Option<int>, spare: Option<int>, row: Row, ignore: bool)
    requires Valid(t)
    ensures
      var (t', reply) := InsertStep(world, t, kind, given, spare, row, ignore);
      var (n', native) := NativeInsert(world, Shown(t), kind, given, spare, row, ignore);
      && Valid(t') && Shown(t') == n'
      && reply == if native == Ignored && !(OuterFound(world, row.outer) && ParentsFound(t.index.Keys, row.refs))
                  then Raised else native
  {
    ShownKeys(t);
    hide *;
    if ParentsFound(t.index.Keys, row.refs) { ResolvedRow(t, kind, row); }
    InsertCases(world, t, Shown(t), kind, given, spare, row, ignore);
    var reply := InsertStep(world, t, kind, given, spare, row, ignore).1;
    if reply.Wrote? { Inserted(t, kind, reply.id, row.(refs := Resolved(t, row.refs))); }
  }

  lemma PatchedRow(t: Table, p: int, changes: Changes)
    requires Valid(t) && p in t.rows && ParentsFound(t.index.Keys, changes.refs)
    ensures
      var row := Patched(t.rows[p].row, changes.(refs := Resolved(t, changes.refs)));
      RefsTyped(t, row.refs) && Projected(t, row) == Patched(Projected(t, t.rows[p].row), changes)
  {
    PublicPhysical(t, changes.refs);
    var was, row := t.rows[p].row, Patched(t.rows[p].row, changes.(refs := Resolved(t, changes.refs)));
    assert RefsTyped(t, was.refs);
    assert PublicRefs(t, row.refs) == PublicRefs(t, was.refs) + PublicRefs(t, Resolved(t, changes.refs));
  }

  lemma PatchedMeets(t: Table, kind: Kind, id: int, changes: Changes)
    requires Valid(t) && (kind, id) in t.index && ParentsFound(t.index.Keys, changes.refs)
    ensures t.index[(kind, id)] in t.rows && (kind, id) in Shown(t)
    ensures
      var p := t.index[(kind, id)];
      var row := Patched(t.rows[p].row, changes.(refs := Resolved(t, changes.refs)));
      var shown := Patched(Shown(t)[(kind, id)], changes);
      && RefsTyped(t, row.refs) && Projected(t, row) == shown
      && (Complete(kind, row) <==> Complete(kind, shown))
      && (StoredUniqueFree(t, kind, Some(p), row) <==> UniqueFree(Shown(t), kind, Some(id), shown))
      && (StoredReferenced(t, p) <==> Referenced(Shown(t), kind, id))
  {
    ShownFrom(t, (kind, id));
    var p := t.index[(kind, id)];
    ShownAt(t, p);
    PatchedRow(t, p, changes);
    var row := Patched(t.rows[p].row, changes.(refs := Resolved(t, changes.refs)));
    CompleteShown(t, kind, row);
    ReferencedShown(t, kind, id);
    UniqueFreeShown(t, kind, Some(p), Some(id), row);
    hide Complete;
    hide UniqueFree;
    hide StoredUniqueFree;
    hide StoredReferenced;
    hide Referenced;
    hide Valid;
    hide Shown;
    hide Patched;
    hide Resolved;
  }

  lemma UpdateCases(world: World, t: Table, n: Native, kind: Kind, id: int, changes: Changes)
    requires n.Keys == t.index.Keys && ((kind, id) in t.index ==> t.index[(kind, id)] in t.rows)
    requires (kind, id) in t.index && ParentsFound(t.index.Keys, changes.refs) ==>
      && var p := t.index[(kind, id)];
         var row := Patched(t.rows[p].row, changes.(refs := Resolved(t, changes.refs)));
         var shown := Patched(n[(kind, id)], changes);
         && (Complete(kind, row) <==> Complete(kind, shown))
         && (StoredUniqueFree(t, kind, Some(p), row) <==> UniqueFree(n, kind, Some(id), shown))
         && (StoredReferenced(t, p) <==> Referenced(n, kind, id))
    ensures
      var (t', reply) := UpdateStep(world, t, kind, id, changes);
      var (n', native) := NativeUpdate(world, n, kind, id, changes);
      && reply == (if native == NoRow && !(OuterFound(world, changes.outer) && ParentsFound(t.index.Keys, changes.refs))
                   then Raised else native)
      && (if reply.Wrote?
          then (kind, id) in t.index && ParentsFound(t.index.Keys, changes.refs)
               && var p := t.index[(kind, id)];
                  var row := Patched(t.rows[p].row, changes.(refs := Resolved(t, changes.refs)));
                  Complete(kind, row)
                  && (reply.id == id || ((kind, reply.id) !in t.index && !StoredReferenced(t, p)))
                  && n' == (n - {(kind, id)})[(kind, reply.id) := Patched(n[(kind, id)], changes)]
                  && t' == Put(t.(index := t.index - {(kind, id)}), p, Stored(kind, reply.id, row))
          else t' == t && n' == n)
  {
    hide Complete;
    hide ShapedChanges;
    hide UniqueFree;
    hide StoredUniqueFree;
    hide StoredReferenced;
    hide Referenced;
    hide OuterFound;
    hide ParentsFound;
    hide Resolved;
    hide Patched;
    hide Put;
  }

  /** No kind references itself, so a complete row never refers to its own physical ID. */
  lemma NoSelfReference(t: Table, kind: Kind, p: int, row: Row)
    requires p in t.rows && t.rows[p].kind == kind && Complete(kind, row) && RefsTyped(t, row.refs)
    ensures forall f | f in row.refs :: row.refs[f] != Some(p)
  {
    forall f | f in row.refs ensures row.refs[f] != Some(p) {
      assert f in RefsOf(kind);
    }
  }

  lemma UpdatedIndex(t: Table, kind: Kind, id: int, now: int, row: Row)
    requires IndexExact(t) && (kind, id) in t.index
    requires now == id || (kind, now) !in t.index
    ensures IndexExact(Put(t.(index := t.index - {(kind, id)}), t.index[(kind, id)], Stored(kind, now, row)))
  {
  }

  /** A row whose own reference columns do not name `p`, or whose target `p` keeps its ID, shows the same. */
  lemma SameAfterPut(t: Table, p: int, kind: Kind, now: int, stored: Row, row: Row)
    requires p in t.rows && t.rows[p].kind == kind && RefsTyped(t, row.refs)
    requires now == t.rows[p].id || forall f | f in row.refs :: row.refs[f] != Some(p)
    ensures
      var t' := Put(t.(index := t.index - {(kind, t.rows[p].id)}), p, Stored(kind, now, stored));
      Projected(t', row) == Projected(t, row) && RefsTyped(t', row.refs)
  {
    ProjectedSame(t, Put(t.(index := t.index - {(kind, t.rows[p].id)}), p, Stored(kind, now, stored)), row);
  }

  lemma NotReferenced(t: Table, p: int, q: int)
    requires !StoredReferenced(t, p) && q in t.rows
    ensures forall f | f in t.rows[q].row.refs :: t.rows[q].row.refs[f] != Some(p)
  {
  }

  /** A table is valid and shows `n` when its index is exact and every row shows its entry of `n`. */
  lemma ShownIs(t: Table, n: Native)
    requires IndexExact(t) && n.Keys == t.index.Keys
    requires forall p | p in t.rows ::
      RefsTyped(t, t.rows[p].row.refs)
      && (t.rows[p].kind, t.rows[p].id) in n && n[(t.rows[p].kind, t.rows[p].id)] == Projected(t, t.rows[p].row)
    ensures Valid(t) && Shown(t) == n
  {
    hide RefsTyped;
    hide Projected;
    forall k | k in t.index ensures n[k] == Shown(t)[k] {
      var p := t.index[k];
      assert p in t.rows && (t.rows[p].kind, t.rows[p].id) == k;
    }
  }

  lemma OtherShown(t: Table, kind: Kind, id: int, now: int, row: Row, q: int)
    requires Valid(t) && (kind, id) in t.index && t.index[(kind, id)] in t.rows
    requires q in t.rows && q != t.index[(kind, id)]
    requires now == id || ((kind, now) !in t.index && !StoredReferenced(t, t.index[(kind, id)]))
    ensures
      var p := t.index[(kind, id)];
      var t' := Put(t.(index := t.index - {(kind, id)}), p, Stored(kind, now, row));
      var k := (t.rows[q].kind, t.rows[q].id);
      && RefsTyped(t', t.rows[q].row.refs) && k in Shown(t) && k != (kind, id) && k != (kind, now)
      && Shown(t)[k] == Projected(t', t.rows[q].row)
  {
    var p := t.index[(kind, id)];
    ShownFrom(t, (kind, id));
    ShownAt(t, q);
    if now != id { NotReferenced(t, p, q); }
    SameAfterPut(t, p, kind, now, row, t.rows[q].row);
    KeysApart(t, p, q);
    ShownKeys(t);
    hide Valid;
    hide Projected;
    hide RefsTyped;
    hide Shown;
    hide StoredReferenced;
  }

  lemma KeysApart(t: Table, p: int, q: int)
    requires Valid(t) && p in t.rows && q in t.rows && p != q
    ensures (t.rows[p].kind, t.rows[p].id) != (t.rows[q].kind, t.rows[q].id)
  {
  }

  lemma Updated(t: Table, kind: Kind, id: int, now: int, row: Row)
    requires Valid(t) && (kind, id) in t.index && t.index[(kind, id)] in t.rows && RefsTyped(t, row.refs) && Complete(kind, row)
    requires now == id || ((kind, now) !in t.index && !StoredReferenced(t, t.index[(kind, id)]))
    ensures
      var p := t.index[(kind, id)];
      var t' := Put(t.(index := t.index - {(kind, id)}), p, Stored(kind, now, row));
      Valid(t') && Shown(t') == (Shown(t) - {(kind, id)})[(kind, now) := Projected(t, row)]
  {
    var p := t.index[(kind, id)];
    var t' := Put(t.(index := t.index - {(kind, id)}), p, Stored(kind, now, row));
    ShownFrom(t, (kind, id));
    ShownKeys(t);
    UpdatedIndex(t, kind, id, now, row);
    NoSelfReference(t, kind, p, row);
    SameAfterPut(t, p, kind, now, row, row);
    var n := (Shown(t) - {(kind, id)})[(kind, now) := Projected(t, row)];
    hide Valid;
    hide Shown;
    hide Projected;
    hide RefsTyped;
    hide Complete;
    hide StoredReferenced;
    hide IndexExact;
    forall q | q in t'.rows
      ensures
        var k := (t'.rows[q].kind, t'.rows[q].id);
        RefsTyped(t', t'.rows[q].row.refs) && k in n && n[k] == Projected(t', t'.rows[q].row)
    {
      if q != p { OtherShown(t, kind, id, now, row, q); }
    }
    ShownIs(t', n);
  }

  lemma UpdateRefines(world: World, t: Table, kind: Kind, id: int, changes: Changes)
    requires Valid(t)
    ensures
      var (t', reply) := UpdateStep(world, t, kind, id, changes);
      var (n', native) := NativeUpdate(world, Shown(t), kind, id, changes);
      && Valid(t') && Shown(t') == n'
      && reply == if native == NoRow && !(OuterFound(world, changes.outer) && ParentsFound(t.index.Keys, changes.refs))
                  then Raised else native
  {
    ShownKeys(t);
    hide *;
    ShownFrom(t, (kind, id));
    if (kind, id) in t.index && ParentsFound(t.index.Keys, changes.refs) { PatchedMeets(t, kind, id, changes); }
    UpdateCases(world, t, Shown(t), kind, id, changes);
    var reply := UpdateStep(world, t, kind, id, changes).1;
    if reply.Wrote? {
      var p := t.index[(kind, id)];
      Updated(t, kind, id, reply.id, Patched(t.rows[p].row, changes.(refs := Resolved(t, changes.refs))));
    }
  }

  /** An update with a condition on the row as the projection shows it. */
  ghost function UpdateWhere(
    world: World, t: Table, kind: Kind, id: int, changes: Changes, holds: Row -> bool): (Table, Reply)
    requires IndexExact(t)
  {
    if (kind, id) in t.index && !holds(Projected(t, t.rows[t.index[(kind, id)]].row)) then
      (t, if ShapedChanges(kind, changes) && OuterFound(world, changes.outer) && ParentsFound(t.index.Keys, changes.refs)
          then NoRow else Raised)
    else UpdateStep(world, t, kind, id, changes)
  }

  ghost function NativeUpdateWhere(
    world: World, n: Native, kind: Kind, id: int, changes: Changes, holds: Row -> bool): (Native, Reply)
  {
    if (kind, id) in n && !holds(n[(kind, id)]) then (n, if ShapedChanges(kind, changes) then NoRow else Raised)
    else NativeUpdate(world, n, kind, id, changes)
  }

  lemma UpdateWhereRefines(world: World, t: Table, kind: Kind, id: int, changes: Changes, holds: Row -> bool)
    requires Valid(t)
    ensures IndexExact(t)
    ensures
      var (t', reply) := UpdateWhere(world, t, kind, id, changes, holds);
      var (n', native) := NativeUpdateWhere(world, Shown(t), kind, id, changes, holds);
      && Valid(t') && Shown(t') == n'
      && reply == if native == NoRow && !(OuterFound(world, changes.outer) && ParentsFound(t.index.Keys, changes.refs))
                  then Raised else native
  {
    ShownKeys(t);
    RowShown(t, (kind, id));
    hide *;
    if (kind, id) in t.index && !holds(Shown(t)[(kind, id)]) {
      ConditionFails(world, t, Shown(t), kind, id, changes, holds);
    } else {
      ConditionHolds(world, t, Shown(t), kind, id, changes, holds);
      UpdateRefines(world, t, kind, id, changes);
    }
  }

  lemma RowShown(t: Table, k: (Kind, int))
    requires Valid(t)
    ensures IndexExact(t) && (k in t.index ==> k in Shown(t) && Shown(t)[k] == Projected(t, t.rows[t.index[k]].row))
  {
    hide Projected;
  }

  lemma ConditionFails(world: World, t: Table, n: Native, kind: Kind, id: int, changes: Changes, holds: Row -> bool)
    requires IndexExact(t) && (kind, id) in t.index && (kind, id) in n && !holds(n[(kind, id)])
    requires n[(kind, id)] == Projected(t, t.rows[t.index[(kind, id)]].row)
    ensures NativeUpdateWhere(world, n, kind, id, changes, holds) == (n, if ShapedChanges(kind, changes) then NoRow else Raised)
    ensures UpdateWhere(world, t, kind, id, changes, holds) ==
      (t, if ShapedChanges(kind, changes) && OuterFound(world, changes.outer) && ParentsFound(t.index.Keys, changes.refs)
          then NoRow else Raised)
  {
    hide IndexExact;
    hide Projected;
    hide ShapedChanges;
    hide OuterFound;
    hide ParentsFound;
  }

  lemma ConditionHolds(world: World, t: Table, n: Native, kind: Kind, id: int, changes: Changes, holds: Row -> bool)
    requires IndexExact(t) && ((kind, id) in n <==> (kind, id) in t.index) && ((kind, id) in n ==> holds(n[(kind, id)]))
    requires (kind, id) in n ==> n[(kind, id)] == Projected(t, t.rows[t.index[(kind, id)]].row)
    ensures NativeUpdateWhere(world, n, kind, id, changes, holds) == NativeUpdate(world, n, kind, id, changes)
    ensures UpdateWhere(world, t, kind, id, changes, holds) == UpdateStep(world, t, kind, id, changes)
  {
    hide IndexExact;
    hide Projected;
    hide NativeUpdate;
    hide UpdateStep;
  }

  lemma Deleted(t: Table, kind: Kind, id: int)
    requires Valid(t) && (kind, id) in t.index && !StoredReferenced(t, t.index[(kind, id)])
    ensures
      var t' := Table(t.rows - {t.index[(kind, id)]}, t.index - {(kind, id)});
      Valid(t') && Shown(t') == Shown(t) - {(kind, id)}
  {
    var p := t.index[(kind, id)];
    var t' := Table(t.rows - {p}, t.index - {(kind, id)});
    var n := Shown(t) - {(kind, id)};
    ShownKeys(t);
    assert IndexExact(t');
    hide Valid;
    hide Shown;
    hide Projected;
    hide StoredReferenced;
    forall q | q in t'.rows
      ensures
        var k := (t'.rows[q].kind, t'.rows[q].id);
        RefsTyped(t', t'.rows[q].row.refs) && k in n && n[k] == Projected(t', t'.rows[q].row)
    {
      ShownAt(t, q);
      NotReferenced(t, p, q);
      ProjectedSame(t, t', t.rows[q].row);
    }
    ShownIs(t', n);
  }

  lemma DeleteRefines(t: Table, kind: Kind, id: int)
    requires Valid(t)
    ensures
      var (t', reply) := DeleteStep(t, kind, id);
      var (n', native) := NativeDelete(Shown(t), kind, id);
      Valid(t') && Shown(t') == n' && reply == native
  {
    ShownKeys(t);
    if (kind, id) in t.index {
      ReferencedShown(t, kind, id);
      if !StoredReferenced(t, t.index[(kind, id)]) { Deleted(t, kind, id); }
    }
    hide Valid;
    hide Shown;
    hide IndexExact;
    hide Referenced;
    hide StoredReferenced;
  }

  // ---------- every write, every run ----------

  /**
   * Each write changes the single table as it changes the native ones, and answers the same, except that a
   * missing parent is reported although SQLite would have ignored the row or found no row to update.
   */
  lemma StepRefines(world: World, t: Table, call: Call)
    requires Valid(t)
    ensures Valid(Step(world, t, call).0) && Shown(Step(world, t, call).0) == NativeStep(world, Shown(t), call).0
    ensures Step(world, t, call).1 ==
      if LooksTooEarly(world, Shown(t), call) then Raised else NativeStep(world, Shown(t), call).1
  {
    ShownKeys(t);
    hide Valid;
    hide IndexExact;
    hide Shown;
    hide InsertStep;
    hide UpdateStep;
    hide DeleteStep;
    hide NativeInsert;
    hide NativeUpdate;
    hide NativeDelete;
    hide OuterFound;
    hide ParentsFound;
    match call
    case Insert(kind, given, spare, row, ignore) => InsertRefines(world, t, kind, given, spare, row, ignore);
    case Update(kind, id, changes) => UpdateRefines(world, t, kind, id, changes);
    case Delete(kind, id) => DeleteRefines(t, kind, id);
  }

  function Run(t: Table, calls: seq<(World, Call)>): Table
    decreases |calls|
  {
    if calls == [] then t else Run(Step(calls[0].0, t, calls[0].1).0, calls[1..])
  }

  function NativeRun(n: Native, calls: seq<(World, Call)>): Native
    decreases |calls|
  {
    if calls == [] then n else NativeRun(NativeStep(calls[0].0, n, calls[0].1).0, calls[1..])
  }

  lemma {:induction false} RunRefines(t: Table, calls: seq<(World, Call)>)
    requires Valid(t)
    ensures Valid(Run(t, calls)) && Shown(Run(t, calls)) == NativeRun(Shown(t), calls)
    decreases |calls|
  {
    hide Valid;
    hide IndexExact;
    hide Shown;
    hide Step;
    hide NativeStep;
    ShownKeys(t);
    if calls != [] {
      StepRefines(calls[0].0, t, calls[0].1);
      RunRefines(Step(calls[0].0, t, calls[0].1).0, calls[1..]);
    }
  }

  /** The exception happens: updating a review that is not there to a candidate that is not there. */
  lemma TooEarlyHappens()
    ensures LooksTooEarly(World({}, {}), map[], Update(Review, 1, Changes(None, map[CandidateRef := Some(7)], map[], map[])))
  {
    assert CandidateRef in map[CandidateRef := Some(7)] && map[CandidateRef := Some(7)][CandidateRef] == Some(7);
  }

  /** After any run through the single table the rows it shows meet every native constraint. */
  lemma {:induction false} RunConsistent(n: Native, calls: seq<(World, Call)>)
    requires Consistent(n)
    ensures Consistent(NativeRun(n, calls))
    decreases |calls|
  {
    hide Consistent;
    hide NativeStep;
    if calls != [] {
      StepConsistent(calls[0].0, n, calls[0].1);
      RunConsistent(NativeStep(calls[0].0, n, calls[0].1).0, calls[1..]);
    }
  }
}
