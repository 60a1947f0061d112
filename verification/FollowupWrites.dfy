/** Writes on the folded follow-up and Todo-sync families do what the native tables would have done. */
module FollowupWrites {
  import opened Wrappers
  import opened Ids
  import opened FollowupSync
  import BulkCopy

  /** A unique index on one column, for the rows it applies to. */
  datatype Unique = Unique(column: nat, applies: seq<Cell> -> bool)

  /**
   * What a declaration asks of the columns of a row, the send attempt's follow-up aside: CHECK and NOT NULL
   * constraints, references into tables outside the conversion, unique indexes.  `guarded` says that the
   * trigger against renumbering a linked work update is there, as it is with typed business tables.
   */
  datatype Rules = Rules(
    complete: (Kind, seq<Cell>) -> bool, found: (Kind, seq<Cell>) -> bool, unique: Kind -> seq<Unique>, guarded: bool)

  datatype Changes = Changes(id: Option<int>, cells: map<nat, Cell>)

  /** An update may carry a condition on the row as the projection shows it. */
  datatype Call =
    | Insert(kind: Kind, given: Option<int>, cells: seq<Cell>, ignore: bool)
    | Update(kind: Kind, id: int, changes: Changes, holds: seq<Cell> -> bool)

  datatype Reply = Wrote(id: int) | NoRow | Ignored | Raised

  function Or<T>(given: Option<T>, now: T): T { if given.Some? then given.value else now }

  function Patched(cells: seq<Cell>, changes: map<nat, Cell>): (now: seq<Cell>)
    ensures |now| == |cells|
  {
    seq(|cells|, i requires 0 <= i < |cells| => if i in changes then changes[i] else cells[i])
  }

  /** The columns that are stored as they are: all but the follow-up of a send attempt. */
  function Payload(kind: Kind, cells: seq<Cell>): seq<Cell> {
    if kind == TaskSendAttempts && cells != [] then cells[1..] else cells
  }

  predicate SameValue(u: Unique, x: seq<Cell>, y: seq<Cell>) {
    u.applies(x) && u.applies(y) && u.column < |x| && u.column < |y| && x[u.column] == y[u.column] && x[u.column] != Null
  }

  predicate Clash(rules: Rules, kind: Kind, x: seq<Cell>, y: seq<Cell>) {
    exists i :: 0 <= i < |rules.unique(kind)| && SameValue(rules.unique(kind)[i], x, y)
  }

  predicate DraftGiven(kind: Kind, cells: seq<Cell>) { kind == TaskSendAttempts ==> cells != [] && cells[0] != Null }

  /** Every integer fits a binding, an update names a column, and the columns are those of the family. */
  predicate Wellformed(shape: Shape, call: Call)
    requires |shape.families| == |ORDER|
  {
    var width := shape.families[Rank(call.kind)];
    match call
    case Insert(_, given, cells, _) => (given.Some? ==> Storable(given.value)) && |cells| == width
    case Update(_, id, changes, _) =>
      && Storable(id) && (changes.id.Some? ==> Storable(changes.id.value))
      && (changes.id.Some? || changes.cells != map[]) && forall i | i in changes.cells :: i < width
  }

  /** The next ID above the mark and all IDs. */
  function NextId(mark: Option<int>, ids: set<int>): int {
    BulkCopy.Max(if mark.Some? then mark.value else 0, BulkCopy.Max(0, if ids == {} then 0 else Largest(ids))) + 1
  }

  function MarkUp(marks: Marks, name: Name, id: int): Marks {
    marks[name := BulkCopy.Max(if name in marks then marks[name] else 0, id)]
  }

  // ---------- the native tables ----------

  predicate NativeFree(rules: Rules, kind: Kind, rows: Rows, self: Option<int>, payload: seq<Cell>) {
    forall id | id in rows && Some(id) != self :: !Clash(rules, kind, Payload(kind, rows[id]), payload)
  }

  /** The follow-up a send attempt names is there. */
  predicate DraftFound(n: Db, kind: Kind, cells: seq<Cell>)
    requires TaskFollowUps in n.tables
  {
    kind == TaskSendAttempts ==> cells != [] && NamesRow(n.tables[TaskFollowUps], cells[0])
  }

  predicate NamedByAttempt(n: Db, id: int)
    requires TaskSendAttempts in n.tables
  {
    exists a :: a in n.tables[TaskSendAttempts] && n.tables[TaskSendAttempts][a] != []
      && n.tables[TaskSendAttempts][a][0] == Number(id)
  }

  predicate Linked(links: Rows, slot: nat, id: int) {
    exists l :: l in links && slot < |links[l]| && links[l][slot] == Number(id)
  }

  predicate AllTables(n: Db) { forall kind :: kind in n.tables }

  function NativeInsert(n: Db, rules: Rules, kind: Kind, given: Option<int>, cells: seq<Cell>, ignore: bool): (Db, Reply)
    requires AllTables(n)
  {
    var rows := n.tables[kind];
    var id := Or(given, NextId(Sequence(n.marks, Native(kind)), rows.Keys));
    var marks := MarkUp(n.marks, Native(kind), id);
    if !Storable(id) then (n, Raised)
    else if || !DraftGiven(kind, cells) || !rules.complete(kind, Payload(kind, cells)) || id in rows
            || !NativeFree(rules, kind, rows, None, Payload(kind, cells))
    then if ignore then (n.(marks := marks), Ignored) else (n, Raised)
    else if !DraftFound(n, kind, cells) || !rules.found(kind, Payload(kind, cells)) then (n, Raised)
    else (n.(tables := n.tables[kind := rows[id := cells]], marks := marks), Wrote(id))
  }

  /** `checked` says whether links restrict the renumbering of a work update; natively they do. */
  function NativeUpdate(
    n: Db, shape: Shape, rules: Rules, kind: Kind, id: int, c: Changes, holds: seq<Cell> -> bool, checked: bool): (Db, Reply)
    requires AllTables(n)
  {
    var rows := n.tables[kind];
    if id !in rows || !holds(rows[id]) then (n, NoRow)
    else
      var now, cells := Or(c.id, id), Patched(rows[id], c.cells);
      if || !DraftGiven(kind, cells) || !rules.complete(kind, Payload(kind, cells)) || (now != id && now in rows)
         || !NativeFree(rules, kind, rows, Some(id), Payload(kind, cells))
         || !DraftFound(n, kind, cells) || !rules.found(kind, Payload(kind, cells))
         || (now != id && kind == TaskFollowUps && NamedByAttempt(n, id))
         || (now != id && kind == WorkUpdates && checked && Linked(n.links, shape.slot, id))
      then (n, Raised)
      else (n.(tables := n.tables[kind := (rows - {id})[now := cells]]), Wrote(now))
  }

  /** The statement on the predecessor's tables. */
  function NativeStep(n: Db, shape: Shape, rules: Rules, call: Call): (r: (Db, Reply))
    requires AllTables(n) && |shape.families| == |ORDER|
    ensures AllTables(r.0)
  {
    if !Wellformed(shape, call) then (n, Raised)
    else
      match call
      case Insert(kind, given, cells, ignore) => NativeInsert(n, rules, kind, given, cells, ignore)
      case Update(kind, id, c, holds) => NativeUpdate(n, shape, rules, kind, id, c, holds, true)
  }

  // ---------- the common table ----------

  function KindIds(c: Common, kind: Kind): set<int> { set k | k in c.index && k.0 == kind :: k.1 }

  predicate StoredFree(c: Common, rules: Rules, kind: Kind, self: Option<int>, payload: seq<Cell>) {
    forall p | p in c.rows && c.rows[p].Family? && c.rows[p].kind == kind && Some(p) != self ::
      !Clash(rules, kind, c.rows[p].cells, payload)
  }

  predicate DraftOf(c: Common, p: int) {
    exists q :: q in c.rows && c.rows[q].Family? && c.rows[q].kind == TaskSendAttempts && c.rows[q].draft == Some(p)
  }

  /** The row check sees a follow-up that was not found as a value that is not NULL; the trigger then refuses it. */
  predicate DraftResolved(c: Common, kind: Kind, cells: seq<Cell>) {
    kind == TaskSendAttempts ==> cells != [] && Physical(c, TaskFollowUps, cells[0]).Some?
  }

  function InsertStep(db: Db, rules: Rules, kind: Kind, given: Option<int>, cells: seq<Cell>, ignore: bool): (Db, Reply) {
    var c := db.common;
    var id := Or(given, NextId(Sequence(db.marks, Typed(kind)), KindIds(c, kind)));
    var marks := MarkUp(db.marks, Typed(kind), id);
    if !Storable(id) then (db, Raised)
    else if || !DraftGiven(kind, cells) || !rules.complete(kind, Payload(kind, cells)) || (kind, id) in c.index
            || !StoredFree(c, rules, kind, None, Payload(kind, cells))
    then if ignore then (db.(marks := marks), Ignored) else (db, Raised)
    else if !DraftResolved(c, kind, cells) || !rules.found(kind, Payload(kind, cells)) then (db, Raised)
    else (db.(common := Put(c, NextPhysical(c), Folded(c, kind, id, cells)), marks := marks), Wrote(id))
  }

  /** The stored row after an update: a named follow-up is looked up, one that is not named stays. */
  function Restored(c: Common, stored: Stored, now: int, changes: Changes): Stored
    requires stored.Family?
  {
    if stored.kind == TaskSendAttempts then
      Family(stored.kind, now, Patched([Null] + stored.cells, changes.cells)[1..],
             if 0 in changes.cells then Physical(c, TaskFollowUps, changes.cells[0]) else stored.draft)
    else Family(stored.kind, now, Patched(stored.cells, changes.cells), stored.draft)
  }

  function Replaced(c: Common, p: int, k: (Kind, int), stored: Stored): Common
    requires stored.Family?
  {
    Common(c.rows[p := stored], (c.index - {k})[(stored.kind, stored.id) := p])
  }

  function UpdateStep(
    db: Db, shape: Shape, rules: Rules, kind: Kind, id: int, changes: Changes, holds: seq<Cell> -> bool): (Db, Reply)
    requires IndexExact(db.common)
  {
    var c := db.common;
    if (kind, id) !in c.index || !holds(Columns(c, c.rows[c.index[(kind, id)]])) then (db, NoRow)
    else
      var p, now := c.index[(kind, id)], Or(changes.id, id);
      var cells := Patched(Columns(c, c.rows[p]), changes.cells);
      if || !DraftGiven(kind, cells) || !rules.complete(kind, Payload(kind, cells)) || (now != id && (kind, now) in c.index)
         || !StoredFree(c, rules, kind, Some(p), Payload(kind, cells))
         || (0 in changes.cells && !DraftResolved(c, kind, cells)) || !rules.found(kind, Payload(kind, cells))
         || (now != id && kind == TaskFollowUps && DraftOf(c, p))
         || (now != id && kind == WorkUpdates && rules.guarded && Linked(db.links, shape.slot, p))
      then (db, Raised)
      else (db.(common := Replaced(c, p, (kind, id), Restored(c, c.rows[p], now, changes))), Wrote(now))
  }

  /** One write of the store on the folded families. */
  function Step(db: Db, shape: Shape, rules: Rules, call: Call): (Db, Reply)
    requires IndexExact(db.common) && |shape.families| == |ORDER|
  {
    if !Wellformed(shape, call) then (db, Raised)
    else
      match call
      case Insert(kind, given, cells, ignore) => InsertStep(db, rules, kind, given, cells, ignore)
      case Update(kind, id, c, holds) => UpdateStep(db, shape, rules, kind, id, c, holds)
  }

  // ---------- what the relation says ----------

  /** The two databases belong together. */
  ghost predicate Twins(n: Db, shape: Shape, db: Db) {
    WellShaped(shape) && NativeLayout(n, shape) && Folds(n, shape, db)
  }

  lemma TwinsGive(n: Db, shape: Shape, db: Db)
    requires Twins(n, shape, db)
    ensures AllTables(n) && IndexExact(db.common) && |shape.families| == |ORDER| && DraftsTyped(db.common)
  {
    hide IndexExact;
    hide DraftsTyped;
    hide Projection;
  }

  lemma RowShown(n: Db, shape: Shape, db: Db, kind: Kind, id: int)
    requires Twins(n, shape, db)
    ensures kind in n.tables && ((kind, id) in db.common.index <==> id in n.tables[kind])
    ensures (kind, id) in db.common.index ==>
      var p := db.common.index[(kind, id)];
      p in db.common.rows && db.common.rows[p].Family? && db.common.rows[p].kind == kind && db.common.rows[p].id == id
      && Columns(db.common, db.common.rows[p]) == n.tables[kind][id] && DraftTyped(db.common, db.common.rows[p])
  {
    TwinsGive(n, shape, db);
    var shown := Projection(db.common, kind);
    assert shown == n.tables[kind];
    ProjectionAt(db.common, kind, id);
    hide Projection;
    hide Columns;
    hide DraftTyped;
    if (kind, id) in db.common.index { IndexedAt(db.common, kind, id); }
    hide IndexExact;
  }

  lemma IndexedAt(c: Common, kind: Kind, id: int)
    requires IndexExact(c) && (kind, id) in c.index
    ensures
      var p := c.index[(kind, id)];
      p in c.rows && c.rows[p].Family? && c.rows[p].kind == kind && c.rows[p].id == id
  {
  }

  lemma ProjectionAt(c: Common, kind: Kind, id: int)
    requires IndexExact(c)
    ensures (kind, id) in c.index <==> id in Projection(c, kind)
    ensures (kind, id) in c.index ==> Projection(c, kind)[id] == Columns(c, c.rows[c.index[(kind, id)]])
  {
    hide Columns;
  }

  /** The row behind a physical ID is the one its kind and public ID stand for. */
  lemma RowAt(n: Db, shape: Shape, db: Db, p: int)
    requires Twins(n, shape, db) && p in db.common.rows && db.common.rows[p].Family?
    ensures
      var stored := db.common.rows[p];
      && (stored.kind, stored.id) in db.common.index && db.common.index[(stored.kind, stored.id)] == p
      && stored.kind in n.tables && stored.id in n.tables[stored.kind]
      && Columns(db.common, stored) == n.tables[stored.kind][stored.id]
  {
    TwinsGive(n, shape, db);
    assert (db.common.rows[p].kind, db.common.rows[p].id) in db.common.index;
    RowShown(n, shape, db, db.common.rows[p].kind, db.common.rows[p].id);
    hide IndexExact;
    hide Columns;
    hide Twins;
  }

  lemma ColumnsPayload(c: Common, stored: Stored)
    requires stored.Family?
    ensures Payload(stored.kind, Columns(c, stored)) == stored.cells
    ensures stored.kind == TaskSendAttempts ==> Columns(c, stored) != []
  {
  }

  // ---------- the guards agree ----------

  lemma FreeIff(n: Db, shape: Shape, db: Db, rules: Rules, kind: Kind, self: Option<int>, payload: seq<Cell>)
    requires Twins(n, shape, db) && (self.Some? ==> (kind, self.value) in db.common.index)
    ensures kind in n.tables
    ensures
      var p := if self.Some? then Some(db.common.index[(kind, self.value)]) else None;
      StoredFree(db.common, rules, kind, p, payload) <==> NativeFree(rules, kind, n.tables[kind], self, payload)
  {
    var c := db.common;
    RowShown(n, shape, db, kind, 0);
    var at := if self.Some? then Some(c.index[(kind, self.value)]) else None;
    forall id | id in n.tables[kind] && Some(id) != self && StoredFree(c, rules, kind, at, payload)
      ensures !Clash(rules, kind, Payload(kind, n.tables[kind][id]), payload)
    {
      RowShown(n, shape, db, kind, id);
      var p := c.index[(kind, id)];
      ColumnsPayload(c, c.rows[p]);
      if self.Some? { RowShown(n, shape, db, kind, self.value); }
      assert Some(p) != at;
    }
    forall p | p in c.rows && c.rows[p].Family? && c.rows[p].kind == kind && Some(p) != at
               && NativeFree(rules, kind, n.tables[kind], self, payload)
      ensures !Clash(rules, kind, c.rows[p].cells, payload)
    {
      RowAt(n, shape, db, p);
      ColumnsPayload(c, c.rows[p]);
      assert Some(c.rows[p].id) != self;
    }
    hide Twins;
    hide Clash;
    hide Payload;
    hide Columns;
  }

  lemma DraftIff(n: Db, shape: Shape, db: Db, kind: Kind, cells: seq<Cell>)
    requires Twins(n, shape, db)
    ensures TaskFollowUps in n.tables && (DraftResolved(db.common, kind, cells) <==> DraftFound(n, kind, cells))
  {
    RowShown(n, shape, db, TaskFollowUps, if cells != [] && cells[0].Number? then cells[0].number else 0);
    hide Twins;
    hide Columns;
  }

  /** A follow-up is referred to by a stored attempt exactly when a native one names it. */
  lemma NamedIff(n: Db, shape: Shape, db: Db, id: int)
    requires Twins(n, shape, db) && (TaskFollowUps, id) in db.common.index
    ensures TaskSendAttempts in n.tables
    ensures DraftOf(db.common, db.common.index[(TaskFollowUps, id)]) <==> NamedByAttempt(n, id)
  {
    var c, p := db.common, db.common.index[(TaskFollowUps, id)];
    RowShown(n, shape, db, TaskFollowUps, id);
    RowShown(n, shape, db, TaskSendAttempts, 0);
    if DraftOf(c, p) {
      var q :| q in c.rows && c.rows[q].Family? && c.rows[q].kind == TaskSendAttempts && c.rows[q].draft == Some(p);
      RowAt(n, shape, db, q);
      DraftShown(c, c.rows[q], p);
    }
    if NamedByAttempt(n, id) {
      var a :| a in n.tables[TaskSendAttempts] && n.tables[TaskSendAttempts][a] != []
        && n.tables[TaskSendAttempts][a][0] == Number(id);
      RowShown(n, shape, db, TaskSendAttempts, a);
      var q := c.index[(TaskSendAttempts, a)];
      TwinsGive(n, shape, db);
      DraftBack(c, c.rows[q], id);
    }
    hide Twins;
    hide Columns;
  }

  lemma DraftShown(c: Common, stored: Stored, p: int)
    requires stored.Family? && stored.kind == TaskSendAttempts && stored.draft == Some(p) && IsKind(c, TaskFollowUps, p)
    ensures Columns(c, stored) != [] && Columns(c, stored)[0] == Number(c.rows[p].id)
  {
  }

  lemma DraftBack(c: Common, stored: Stored, id: int)
    requires IndexExact(c) && stored.Family? && stored.kind == TaskSendAttempts && DraftTyped(c, stored)
    requires Columns(c, stored)[0] == Number(id)
    ensures (TaskFollowUps, id) in c.index && stored.draft == Some(c.index[(TaskFollowUps, id)])
  {
    var p := stored.draft.value;
    assert p in c.rows && c.rows[p].Family? && c.rows[p].id == id;
  }

  /** A link row points at a work update exactly when its native row names it. */
  lemma LinkedIff(n: Db, shape: Shape, db: Db, id: int)
    requires Twins(n, shape, db) && (WorkUpdates, id) in db.common.index
    ensures Linked(db.links, shape.slot, db.common.index[(WorkUpdates, id)]) <==> Linked(n.links, shape.slot, id)
  {
    var c, p := db.common, db.common.index[(WorkUpdates, id)];
    assert db.links.Keys == n.links.Keys;
    TwinsGive(n, shape, db);
    IndexedAt(c, WorkUpdates, id);
    forall l | l in n.links
      ensures l in db.links && shape.slot < |n.links[l]| && shape.slot < |db.links[l]|
      ensures db.links[l][shape.slot] == Number(p) <==> n.links[l][shape.slot] == Number(id)
    {
      assert Renumbered(c, shape.slot, n.links[l], true) == Some(db.links[l]);
      LinkCell(c, shape.slot, n.links[l], db.links[l], id);
    }
    hide Twins;
  }

  lemma LinkCell(c: Common, slot: nat, native: seq<Cell>, stored: seq<Cell>, id: int)
    requires IndexExact(c) && (WorkUpdates, id) in c.index && slot < |native|
    requires Renumbered(c, slot, native, true) == Some(stored)
    ensures slot < |stored| && (stored[slot] == Number(c.index[(WorkUpdates, id)]) <==> native[slot] == Number(id))
  {
    if native[slot].Number? {
      var x := native[slot].number;
      assert (WorkUpdates, x) in c.index ==> c.rows[c.index[(WorkUpdates, x)]].id == x;
    }
  }

  lemma IdsAre(n: Db, shape: Shape, db: Db, kind: Kind)
    requires Twins(n, shape, db)
    ensures kind in n.tables && KindIds(db.common, kind) == n.tables[kind].Keys
    ensures Sequence(db.marks, Typed(kind)) == Sequence(n.marks, Native(kind))
  {
    RowShown(n, shape, db, kind, 0);
    assert MovedMark(n.marks, Typed(kind)) == Sequence(n.marks, Native(kind));
    forall id: int ensures id in KindIds(db.common, kind) <==> id in n.tables[kind] {
      RowShown(n, shape, db, kind, id);
    }
    hide Twins;
    SameKeys(KindIds(db.common, kind), n.tables[kind].Keys);
  }

  lemma SameKeys(x: set<int>, y: set<int>)
    ensures x == y || !(forall id :: id in x <==> id in y)
  {
    if forall id :: id in x <==> id in y { assert x == y; }
  }

  // ---------- the writes agree ----------

  lemma MarksUp(marks: Marks, native: Marks, kind: Kind, id: int)
    requires forall name :: Sequence(marks, name) == MovedMark(native, name)
    ensures forall name :: Sequence(MarkUp(marks, Typed(kind), id), name) == MovedMark(MarkUp(native, Native(kind), id), name)
  {
    assert Sequence(marks, Typed(kind)) == Sequence(native, Native(kind));
    forall name ensures Sequence(MarkUp(marks, Typed(kind), id), name) == MovedMark(MarkUp(native, Native(kind), id), name) {
      assert Sequence(marks, name) == MovedMark(native, name);
      if name.Typed? && name.kind != kind {
        assert Sequence(MarkUp(native, Native(kind), id), Native(name.kind)) == Sequence(native, Native(name.kind));
      }
    }
  }

  lemma Remarked(n: Db, shape: Shape, native: Marks)
    requires NativeLayout(n, shape)
    ensures NativeLayout(n.(marks := native), shape)
  {
    hide Wide;
    hide RetainedRows;
  }

  lemma RemarkedCommon(db: Db, shape: Shape, marks: Marks)
    requires CommonLayout(db, shape)
    ensures CommonLayout(db.(marks := marks), shape)
  {
    hide Wide;
    hide RetainedRows;
    hide IndexExact;
    hide Projection;
  }

  lemma TwinsMarked(n: Db, shape: Shape, db: Db, native: Marks, marks: Marks)
    requires Twins(n, shape, db) && forall name :: Sequence(marks, name) == MovedMark(native, name)
    ensures Twins(n.(marks := native), shape, db.(marks := marks))
  {
    Remarked(n, shape, native);
    RemarkedCommon(db, shape, marks);
    hide Sequence;
    hide MovedMark;
    hide DraftsTyped;
    hide Projection;
    hide RetainedRows;
    hide Renumbered;
    hide NativeLayout;
    hide IndexExact;
    hide WellShaped;
    hide Wide;
  }

  lemma MarksTold(n: Db, shape: Shape, db: Db)
    requires Twins(n, shape, db)
    ensures forall name :: Sequence(db.marks, name) == MovedMark(n.marks, name)
  {
    hide Sequence;
    hide MovedMark;
    hide Renumbered;
    hide CommonLayout;
  }

  lemma TwinMarks(n: Db, shape: Shape, db: Db, kind: Kind, id: int)
    requires Twins(n, shape, db)
    ensures Twins(n.(marks := MarkUp(n.marks, Native(kind), id)), shape, db.(marks := MarkUp(db.marks, Typed(kind), id)))
  {
    hide *;
    MarksTold(n, shape, db);
    MarksUp(db.marks, n.marks, kind, id);
    TwinsMarked(n, shape, db, MarkUp(n.marks, Native(kind), id), MarkUp(db.marks, Typed(kind), id));
  }

  /** A changed common table and changed native tables belong together when every part of the relation does. */
  lemma TwinTables(n: Db, shape: Shape, db: Db, tables: map<Kind, Rows>, c: Common)
    requires Twins(n, shape, db) && NativeLayout(n.(tables := tables), shape)
    requires IndexExact(c) && DraftsTyped(c) && RetainedRows(c) == RetainedRows(db.common)
    requires forall kind :: kind in tables && Projection(c, kind) == tables[kind]
    requires forall l | l in n.links ::
      shape.slot < |n.links[l]| && Renumbered(c, shape.slot, n.links[l], true) == Renumbered(db.common, shape.slot, n.links[l], true)
    ensures Twins(n.(tables := tables), shape, db.(common := c))
  {
    TablesWide(n.(tables := tables), shape);
    hide IndexExact;
    hide DraftsTyped;
    hide Projection;
    hide RetainedRows;
    hide Renumbered;
    hide Wide;
    hide Sequence;
    hide MovedMark;
  }

  lemma TablesWide(n: Db, shape: Shape)
    requires NativeLayout(n, shape)
    ensures forall kind :: kind in n.tables && Wide(n.tables[kind], shape.families[Rank(kind)])
  {
    hide Wide;
  }

  lemma TableKept(n: Db, shape: Shape, kind: Kind, rows: Rows)
    requires NativeLayout(n, shape) && Wide(rows, shape.families[Rank(kind)])
    ensures NativeLayout(n.(tables := n.tables[kind := rows]), shape)
  {
    TablesWide(n, shape);
    hide Wide;
    hide RetainedRows;
  }

  lemma ProjectionPut(c: Common, p: int, stored: Stored, kind: Kind)
    requires IndexExact(c) && DraftsTyped(c) && p !in c.rows && stored.Family? && (stored.kind, stored.id) !in c.index
    requires DraftTyped(c, stored)
    ensures IndexExact(Put(c, p, stored))
    ensures Projection(Put(c, p, stored), kind) ==
      if kind == stored.kind then Projection(c, kind)[stored.id := Columns(c, stored)] else Projection(c, kind)
  {
    var c' := Put(c, p, stored);
    IndexGrows(c, p, stored);
    ColumnsStay(c, p, stored, stored);
    forall id | (kind, id) in c.index
      ensures c'.index[(kind, id)] == c.index[(kind, id)]
      ensures Columns(c', c'.rows[c'.index[(kind, id)]]) == Columns(c, c.rows[c.index[(kind, id)]])
    {
      ShownStays(c, p, stored, (kind, id));
    }
    var now := if kind == stored.kind then Projection(c, kind)[stored.id := Columns(c, stored)] else Projection(c, kind);
    hide Columns;
    hide DraftTyped;
    hide DraftsTyped;
    forall id: int
      ensures id in Projection(c', kind) <==> id in now
      ensures id in now ==> Projection(c', kind)[id] == now[id]
    {
      ProjectionAt(c', kind, id);
      ProjectionAt(c, kind, id);
    }
    SameRows(Projection(c', kind), now);
  }

  /** Links keep what they say as long as the work updates they name keep their place. */
  lemma LinksStay(c: Common, c': Common, slot: nat, cells: seq<Cell>)
    requires slot < |cells| && Renumbered(c, slot, cells, true).Some?
    requires cells[slot].Number? && (WorkUpdates, cells[slot].number) in c.index ==>
      (WorkUpdates, cells[slot].number) in c'.index
      && c'.index[(WorkUpdates, cells[slot].number)] == c.index[(WorkUpdates, cells[slot].number)]
    ensures Renumbered(c', slot, cells, true) == Renumbered(c, slot, cells, true)
  {
  }

  lemma LinkShown(n: Db, shape: Shape, db: Db, l: int)
    requires Twins(n, shape, db) && l in n.links
    ensures shape.slot < |n.links[l]| && Renumbered(db.common, shape.slot, n.links[l], true).Some?
  {
    hide IndexExact;
    hide Projection;
    hide Renumbered;
  }

  lemma PutIndex(c: Common, p: int, stored: Stored)
    requires stored.Family? && (stored.kind, stored.id) !in c.index
    ensures forall l | l in c.index :: l in Put(c, p, stored).index && Put(c, p, stored).index[l] == c.index[l]
  {
  }

  lemma ResolvedIs(c: Common, kind: Kind, cells: seq<Cell>)
    requires DraftResolved(c, kind, cells)
    ensures kind == TaskSendAttempts ==> cells != [] && Physical(c, TaskFollowUps, cells[0]).Some?
  {
  }

  lemma Inserted(n: Db, shape: Shape, db: Db, kind: Kind, id: int, cells: seq<Cell>)
    requires Twins(n, shape, db) && kind in n.tables && id !in n.tables[kind] && |shape.families| == |ORDER|
    requires |cells| == shape.families[Rank(kind)] && DraftResolved(db.common, kind, cells)
    ensures kind == TaskSendAttempts ==> cells != []
    ensures
      Twins(n.(tables := n.tables[kind := n.tables[kind][id := cells]]), shape,
            db.(common := Put(db.common, NextPhysical(db.common), Folded(db.common, kind, id, cells))))
  {
    hide *;
    ResolvedIs(db.common, kind, cells);
    var c, p := db.common, NextPhysical(db.common);
    var stored := Folded(c, kind, id, cells);
    var tables := n.tables[kind := n.tables[kind][id := cells]];
    TwinsGive(n, shape, db);
    NextIsNew(c);
    RowShown(n, shape, db, kind, id);
    FoldedBack(c, kind, id, cells);
    IndexGrows(c, p, stored);
    DraftsStay(c, p, stored);
    RetainedStay(c, p, stored);
    forall k ensures k in tables && Projection(Put(c, p, stored), k) == tables[k] {
      ProjectionPut(c, p, stored, k);
      TwinProjection(n, shape, db, k);
    }
    forall l | l in n.links
      ensures shape.slot < |n.links[l]|
      ensures Renumbered(Put(c, p, stored), shape.slot, n.links[l], true) == Renumbered(c, shape.slot, n.links[l], true)
    {
      LinkShown(n, shape, db, l);
      PutIndex(c, p, stored);
      LinksStay(c, Put(c, p, stored), shape.slot, n.links[l]);
    }
    TableWider(n, shape, db, kind, id, cells);
    TwinTables(n, shape, db, tables, Put(c, p, stored));
  }

  lemma TwinProjection(n: Db, shape: Shape, db: Db, kind: Kind)
    requires Twins(n, shape, db)
    ensures IndexExact(db.common) && kind in n.tables && Projection(db.common, kind) == n.tables[kind]
  {
    hide IndexExact;
    hide Projection;
  }

  lemma TableWider(n: Db, shape: Shape, db: Db, kind: Kind, id: int, cells: seq<Cell>)
    requires Twins(n, shape, db) && kind in n.tables && |shape.families| == |ORDER| && |cells| == shape.families[Rank(kind)]
    ensures NativeLayout(n.(tables := n.tables[kind := n.tables[kind][id := cells]]), shape)
  {
    TablesWide(n, shape);
    assert Wide(n.tables[kind][id := cells], shape.families[Rank(kind)]);
    TableKept(n, shape, kind, n.tables[kind][id := cells]);
    hide Folds;
    hide NativeLayout;
  }

  // ---------- replacing a row ----------

  lemma ReplacedExact(c: Common, p: int, k: (Kind, int), stored: Stored)
    requires IndexExact(c) && k in c.index && c.index[k] == p && stored.Family? && stored.kind == k.0
    requires stored.id == k.1 || (k.0, stored.id) !in c.index
    ensures IndexExact(Replaced(c, p, k, stored)) && RetainedRows(Replaced(c, p, k, stored)) == RetainedRows(c)
  {
    SameRows(RetainedRows(Replaced(c, p, k, stored)), RetainedRows(c));
  }

  /** Other rows show what they showed, unless they refer to a follow-up that gets another ID. */
  lemma OthersStay(c: Common, p: int, k: (Kind, int), stored: Stored, other: Stored)
    requires IndexExact(c) && k in c.index && c.index[k] == p && stored.Family? && stored.kind == k.0 && DraftTyped(c, other)
    requires stored.id == k.1 || k.0 != TaskFollowUps || !(other.Family? && other.kind == TaskSendAttempts && other.draft == Some(p))
    ensures Columns(Replaced(c, p, k, stored), other) == Columns(c, other) && DraftTyped(Replaced(c, p, k, stored), other)
  {
    assert p in c.rows && c.rows[p].Family? && (c.rows[p].kind, c.rows[p].id) == k;
  }

  /** The replaced row shows the patched columns. */
  lemma RestoredBack(c: Common, p: int, k: (Kind, int), now: int, changes: Changes)
    requires IndexExact(c) && k in c.index && c.index[k] == p && p in c.rows && c.rows[p].Family? && DraftTyped(c, c.rows[p])
    requires now == k.1 || (k.0, now) !in c.index
    requires 0 in changes.cells ==> DraftResolved(c, k.0, Patched(Columns(c, c.rows[p]), changes.cells))
    ensures
      var stored := Restored(c, c.rows[p], now, changes);
      && stored.Family? && stored.kind == k.0 && stored.id == now && DraftTyped(c, stored)
      && Columns(Replaced(c, p, k, stored), stored) == Patched(Columns(c, c.rows[p]), changes.cells)
      && DraftTyped(Replaced(c, p, k, stored), stored)
  {
    var was := c.rows[p];
    assert (was.kind, was.id) == k;
    if k.0 == TaskSendAttempts {
      var cells := Columns(c, was);
      var stored := Restored(c, was, now, changes);
      AttemptPatched(c, was, now, changes);
      if 0 in changes.cells {
        PublicBack(c, TaskFollowUps, changes.cells[0]);
        PhysicalKind(c, changes.cells[0]);
      }
      AttemptColumns(c, Replaced(c, p, k, stored), p, k, stored);
    } else {
      hide Patched;
    }
  }

  lemma PhysicalKind(c: Common, cell: Cell)
    requires IndexExact(c) && Physical(c, TaskFollowUps, cell).Some?
    ensures IsKind(c, TaskFollowUps, Physical(c, TaskFollowUps, cell).value)
  {
    assert (TaskFollowUps, cell.number) in c.index;
  }

  lemma AttemptPatched(c: Common, was: Stored, now: int, changes: Changes)
    requires was.Family? && was.kind == TaskSendAttempts
    ensures
      var cells := Patched(Columns(c, was), changes.cells);
      && cells != [] && Restored(c, was, now, changes).cells == cells[1..]
      && cells[0] == (if 0 in changes.cells then changes.cells[0] else Columns(c, was)[0])
  {
    var cells := Patched(Columns(c, was), changes.cells);
    var blank := Patched([Null] + was.cells, changes.cells);
    assert |cells| == |blank| && forall i | 0 < i < |cells| :: cells[i] == blank[i];
    assert cells[1..] == blank[1..];
  }

  /** What a send attempt shows depends on its own follow-up alone. */
  lemma AttemptColumns(c: Common, c': Common, p: int, k: (Kind, int), stored: Stored)
    requires IndexExact(c) && k in c.index && c.index[k] == p && k.0 == TaskSendAttempts
    requires stored.Family? && stored.kind == TaskSendAttempts && c' == Replaced(c, p, k, stored)
    requires stored.draft.Some? && IsKind(c, TaskFollowUps, stored.draft.value)
    ensures Columns(c', stored) == [Number(c.rows[stored.draft.value].id)] + stored.cells && DraftTyped(c', stored)
    ensures DraftTyped(c, stored)
  {
    var d := stored.draft.value;
    assert d in c.rows && c.rows[p].kind == TaskSendAttempts && d != p;
  }

  lemma ReplacedDrafts(c: Common, p: int, k: (Kind, int), stored: Stored)
    requires IndexExact(c) && DraftsTyped(c) && k in c.index && c.index[k] == p && stored.Family? && stored.kind == k.0
    requires stored.id == k.1 || k.0 != TaskFollowUps || !DraftOf(c, p)
    requires DraftTyped(Replaced(c, p, k, stored), stored)
    ensures DraftsTyped(Replaced(c, p, k, stored))
  {
    var c' := Replaced(c, p, k, stored);
    forall q | q in c'.rows ensures DraftTyped(c', c'.rows[q]) {
      if q != p { OtherRow(c, p, k, stored, q); }
    }
  }

  lemma OtherRow(c: Common, p: int, k: (Kind, int), stored: Stored, q: int)
    requires IndexExact(c) && DraftsTyped(c) && k in c.index && c.index[k] == p && stored.Family? && stored.kind == k.0
    requires stored.id == k.1 || k.0 != TaskFollowUps || !DraftOf(c, p)
    requires q in c.rows && q != p
    ensures
      var c' := Replaced(c, p, k, stored);
      c'.rows[q] == c.rows[q] && Columns(c', c.rows[q]) == Columns(c, c.rows[q]) && DraftTyped(c', c.rows[q])
  {
    assert DraftTyped(c, c.rows[q]);
    OthersStay(c, p, k, stored, c.rows[q]);
    hide Columns;
    hide DraftTyped;
    hide IndexExact;
    hide DraftsTyped;
  }

  lemma OtherKey(c: Common, p: int, k: (Kind, int), stored: Stored, l: (Kind, int))
    requires IndexExact(c) && k in c.index && c.index[k] == p && stored.Family? && stored.kind == k.0
    requires l in c.index && l != k && l != (stored.kind, stored.id)
    ensures l in Replaced(c, p, k, stored).index && Replaced(c, p, k, stored).index[l] == c.index[l]
    ensures c.index[l] in c.rows && c.index[l] != p
  {
  }

  function ShownInstead(c: Common, k: (Kind, int), now: int, shown: seq<Cell>, kind: Kind): Rows
    requires IndexExact(c)
  {
    if kind == k.0 then (Projection(c, kind) - {k.1})[now := shown] else Projection(c, kind)
  }

  lemma ProjectedInstead(c: Common, p: int, k: (Kind, int), stored: Stored, shown: seq<Cell>, kind: Kind, id: int)
    requires IndexExact(c) && DraftsTyped(c) && k in c.index && c.index[k] == p && stored.Family? && stored.kind == k.0
    requires stored.id == k.1 || (k.0, stored.id) !in c.index
    requires stored.id == k.1 || k.0 != TaskFollowUps || !DraftOf(c, p)
    requires shown == Columns(Replaced(c, p, k, stored), stored)
    ensures IndexExact(Replaced(c, p, k, stored))
    ensures
      var after, now := Projection(Replaced(c, p, k, stored), kind), ShownInstead(c, k, stored.id, shown, kind);
      (id in after <==> id in now) && (id in now ==> after[id] == now[id])
  {
    hide *;
    var c', l := Replaced(c, p, k, stored), (kind, id);
    ReplacedExact(c, p, k, stored);
    ProjectionAt(c', kind, id);
    ProjectionAt(c, kind, id);
    InsteadIs(c, k, stored.id, shown, kind);
    KeysAfter(c, p, k, stored, l);
    if l in c.index && l != k && l != (stored.kind, stored.id) {
      OtherKey(c, p, k, stored, l);
      OtherRow(c, p, k, stored, c.index[l]);
    }
  }

  lemma KeysAfter(c: Common, p: int, k: (Kind, int), stored: Stored, l: (Kind, int))
    requires stored.Family? && stored.kind == k.0
    ensures
      var c' := Replaced(c, p, k, stored);
      && (l in c'.index <==> l == (k.0, stored.id) || (l in c.index && l != k))
      && c'.index[(k.0, stored.id)] == p && p in c'.rows && c'.rows[p] == stored
  {
  }

  lemma ProjectionReplaced(c: Common, p: int, k: (Kind, int), stored: Stored, shown: seq<Cell>, kind: Kind)
    requires IndexExact(c) && DraftsTyped(c) && k in c.index && c.index[k] == p && stored.Family? && stored.kind == k.0
    requires stored.id == k.1 || (k.0, stored.id) !in c.index
    requires stored.id == k.1 || k.0 != TaskFollowUps || !DraftOf(c, p)
    requires shown == Columns(Replaced(c, p, k, stored), stored)
    ensures IndexExact(Replaced(c, p, k, stored))
    ensures Projection(Replaced(c, p, k, stored), kind) == ShownInstead(c, k, stored.id, shown, kind)
  {
    hide *;
    ReplacedExact(c, p, k, stored);
    forall id: int
      ensures
        var after, now := Projection(Replaced(c, p, k, stored), kind), ShownInstead(c, k, stored.id, shown, kind);
        (id in after <==> id in now) && (id in now ==> after[id] == now[id])
    {
      ProjectedInstead(c, p, k, stored, shown, kind, id);
    }
    SameRows(Projection(Replaced(c, p, k, stored), kind), ShownInstead(c, k, stored.id, shown, kind));
  }

  lemma InsteadIs(c: Common, k: (Kind, int), now: int, shown: seq<Cell>, kind: Kind)
    requires IndexExact(c)
    ensures ShownInstead(c, k, now, shown, kind) ==
      if kind == k.0 then (Projection(c, kind) - {k.1})[now := shown] else Projection(c, kind)
  {
  }

  lemma Updated(
    n: Db, shape: Shape, db: Db, kind: Kind, id: int, now: int, changes: Changes, cells: seq<Cell>)
    requires Twins(n, shape, db) && (kind, id) in db.common.index && |shape.families| == |ORDER| && kind in n.tables
    requires id in n.tables[kind] && cells == Patched(n.tables[kind][id], changes.cells)
    requires now == id || (kind, now) !in db.common.index
    requires 0 in changes.cells ==> DraftResolved(db.common, kind, cells)
    requires now == id || kind != TaskFollowUps || !DraftOf(db.common, db.common.index[(kind, id)])
    requires now == id || kind != WorkUpdates || !Linked(n.links, shape.slot, id)
    ensures
      var c, p := db.common, db.common.index[(kind, id)];
      && p in c.rows && c.rows[p].Family? && Restored(c, c.rows[p], now, changes).Family?
      && Twins(n.(tables := n.tables[kind := (n.tables[kind] - {id})[now := cells]]), shape,
               db.(common := Replaced(c, p, (kind, id), Restored(c, c.rows[p], now, changes))))
  {
    hide *;
    var c, p, k := db.common, db.common.index[(kind, id)], (kind, id);
    TwinsGive(n, shape, db);
    RowShown(n, shape, db, kind, id);
    RestoredBack(c, p, k, now, changes);
    var stored := Restored(c, c.rows[p], now, changes);
    var c' := Replaced(c, p, k, stored);
    var tables := n.tables[kind := (n.tables[kind] - {id})[now := cells]];
    ReplacedExact(c, p, k, stored);
    ReplacedDrafts(c, p, k, stored);
    forall other ensures other in tables && Projection(c', other) == tables[other] {
      ProjectionReplaced(c, p, k, stored, cells, other);
      InsteadIs(c, k, now, cells, other);
      TwinProjection(n, shape, db, other);
    }
    forall l | l in n.links
      ensures shape.slot < |n.links[l]|
      ensures Renumbered(c', shape.slot, n.links[l], true) == Renumbered(c, shape.slot, n.links[l], true)
    {
      LinkShown(n, shape, db, l);
      LinkElsewhere(n, shape, l, kind, id, now);
      ReplacedIndex(c, p, k, stored);
      LinksStay(c, c', shape.slot, n.links[l]);
    }
    RowWide(n, shape, db, kind, id);
    TableSmaller(n, shape, db, kind, id, now, cells);
    TwinTables(n, shape, db, tables, c');
  }

  lemma RowWide(n: Db, shape: Shape, db: Db, kind: Kind, id: int)
    requires Twins(n, shape, db) && kind in n.tables && id in n.tables[kind] && |shape.families| == |ORDER|
    ensures |n.tables[kind][id]| == shape.families[Rank(kind)]
  {
    TablesWide(n, shape);
    assert Wide(n.tables[kind], shape.families[Rank(kind)]);
    hide Folds;
    hide NativeLayout;
  }

  lemma TableSmaller(n: Db, shape: Shape, db: Db, kind: Kind, id: int, now: int, cells: seq<Cell>)
    requires Twins(n, shape, db) && kind in n.tables && |shape.families| == |ORDER| && |cells| == shape.families[Rank(kind)]
    ensures NativeLayout(n.(tables := n.tables[kind := (n.tables[kind] - {id})[now := cells]]), shape)
  {
    TablesWide(n, shape);
    assert Wide((n.tables[kind] - {id})[now := cells], shape.families[Rank(kind)]);
    TableKept(n, shape, kind, (n.tables[kind] - {id})[now := cells]);
    hide Folds;
    hide NativeLayout;
  }

  lemma ReplacedIndex(c: Common, p: int, k: (Kind, int), stored: Stored)
    requires IndexExact(c) && k in c.index && c.index[k] == p && stored.Family? && stored.kind == k.0
    requires stored.id == k.1 || (k.0, stored.id) !in c.index
    ensures forall l | l in c.index && (l != k || stored.id == k.1) ::
      l in Replaced(c, p, k, stored).index && Replaced(c, p, k, stored).index[l] == c.index[l]
  {
  }

  lemma LinkElsewhere(n: Db, shape: Shape, l: int, kind: Kind, id: int, now: int)
    requires l in n.links && shape.slot < |n.links[l]|
    requires now == id || kind != WorkUpdates || !Linked(n.links, shape.slot, id)
    ensures n.links[l][shape.slot].Number? ==> (WorkUpdates, n.links[l][shape.slot].number) != (kind, id) || now == id
  {
  }

  // ---------- every statement ----------

  /** What `or ignore` passes over. */
  predicate Blocked(c: Common, rules: Rules, kind: Kind, id: int, cells: seq<Cell>) {
    || !DraftGiven(kind, cells) || !rules.complete(kind, Payload(kind, cells)) || (kind, id) in c.index
    || !StoredFree(c, rules, kind, None, Payload(kind, cells))
  }

  predicate NativelyBlocked(rules: Rules, kind: Kind, rows: Rows, id: int, cells: seq<Cell>) {
    || !DraftGiven(kind, cells) || !rules.complete(kind, Payload(kind, cells)) || id in rows
    || !NativeFree(rules, kind, rows, None, Payload(kind, cells))
  }

  lemma BlockedIff(n: Db, shape: Shape, db: Db, rules: Rules, kind: Kind, id: int, cells: seq<Cell>)
    requires Twins(n, shape, db) && kind in n.tables
    ensures Blocked(db.common, rules, kind, id, cells) <==> NativelyBlocked(rules, kind, n.tables[kind], id, cells)
  {
    RowShown(n, shape, db, kind, id);
    FreeIff(n, shape, db, rules, kind, None, Payload(kind, cells));
    hide Twins;
    hide StoredFree;
    hide NativeFree;
    hide DraftGiven;
    hide Payload;
  }

  lemma InsertStepIs(db: Db, rules: Rules, kind: Kind, given: Option<int>, cells: seq<Cell>, ignore: bool)
    ensures
      var c := db.common;
      var id := Or(given, NextId(Sequence(db.marks, Typed(kind)), KindIds(c, kind)));
      var marks := MarkUp(db.marks, Typed(kind), id);
      InsertStep(db, rules, kind, given, cells, ignore) ==
      if !Storable(id) then (db, Raised)
      else if Blocked(c, rules, kind, id, cells) then if ignore then (db.(marks := marks), Ignored) else (db, Raised)
      else if !DraftResolved(c, kind, cells) || !rules.found(kind, Payload(kind, cells)) then (db, Raised)
      else (db.(common := Put(c, NextPhysical(c), Folded(c, kind, id, cells)), marks := marks), Wrote(id))
  {
    hide NextId;
    hide KindIds;
    hide MarkUp;
    hide StoredFree;
    hide DraftResolved;
    hide Payload;
    hide Put;
    hide NextPhysical;
  }

  lemma NativeInsertIs(n: Db, rules: Rules, kind: Kind, given: Option<int>, cells: seq<Cell>, ignore: bool)
    requires AllTables(n)
    ensures kind in n.tables
    ensures
      var rows := n.tables[kind];
      var id := Or(given, NextId(Sequence(n.marks, Native(kind)), rows.Keys));
      var marks := MarkUp(n.marks, Native(kind), id);
      NativeInsert(n, rules, kind, given, cells, ignore) ==
      if !Storable(id) then (n, Raised)
      else if NativelyBlocked(rules, kind, rows, id, cells) then if ignore then (n.(marks := marks), Ignored) else (n, Raised)
      else if !DraftFound(n, kind, cells) || !rules.found(kind, Payload(kind, cells)) then (n, Raised)
      else (n.(tables := n.tables[kind := rows[id := cells]], marks := marks), Wrote(id))
  {
    hide NextId;
    hide MarkUp;
    hide NativeFree;
    hide DraftFound;
    hide Payload;
  }

  lemma NotBlocked(rules: Rules, kind: Kind, rows: Rows, id: int, cells: seq<Cell>)
    ensures !NativelyBlocked(rules, kind, rows, id, cells) ==> id !in rows && DraftGiven(kind, cells)
  {
  }

  lemma InsertAgrees(
    n: Db, shape: Shape, db: Db, rules: Rules, kind: Kind, given: Option<int>, cells: seq<Cell>, ignore: bool)
    requires Twins(n, shape, db) && |shape.families| == |ORDER| && |cells| == shape.families[Rank(kind)] && AllTables(n)
    ensures
      var (db', reply) := InsertStep(db, rules, kind, given, cells, ignore);
      var (n', native) := NativeInsert(n, rules, kind, given, cells, ignore);
      Twins(n', shape, db') && reply == native
  {
    hide *;
    IdsAre(n, shape, db, kind);
    InsertStepIs(db, rules, kind, given, cells, ignore);
    NativeInsertIs(n, rules, kind, given, cells, ignore);
    var id := Or(given, NextId(Sequence(n.marks, Native(kind)), n.tables[kind].Keys));
    BlockedIff(n, shape, db, rules, kind, id, cells);
    DraftIff(n, shape, db, kind, cells);
    TwinMarks(n, shape, db, kind, id);
    NotBlocked(rules, kind, n.tables[kind], id, cells);
    if id !in n.tables[kind] && DraftResolved(db.common, kind, cells) {
      Inserted(n, shape, db, kind, id, cells);
      var n' := n.(tables := n.tables[kind := n.tables[kind][id := cells]]);
      var db' := db.(common := Put(db.common, NextPhysical(db.common), Folded(db.common, kind, id, cells)));
      TwinMarks(n', shape, db', kind, id);
    }
  }

  /** A draft that is not changed was found before. */
  lemma OldDraft(n: Db, shape: Shape, db: Db, kind: Kind, id: int, changes: Changes)
    requires Twins(n, shape, db) && (kind, id) in db.common.index && 0 !in changes.cells
    ensures kind in n.tables && id in n.tables[kind] && TaskFollowUps in n.tables
    ensures DraftFound(n, kind, Patched(n.tables[kind][id], changes.cells))
  {
    var c := db.common;
    RowShown(n, shape, db, kind, id);
    RowShown(n, shape, db, TaskFollowUps, 0);
    TwinsGive(n, shape, db);
    if kind == TaskSendAttempts {
      var stored := c.rows[c.index[(kind, id)]];
      RowAt(n, shape, db, stored.draft.value);
      DraftShown(c, stored, stored.draft.value);
      assert Patched(n.tables[kind][id], changes.cells)[0] == n.tables[kind][id][0];
    }
    hide Twins;
    hide Columns;
    hide IndexExact;
  }

  /** The two conjunctions of guards of an update, one on each side. */
  predicate Refused(
    c: Common, links: Rows, slot: nat, rules: Rules, kind: Kind, id: int, p: int, now: int, changes: Changes, cells: seq<Cell>)
  {
    || !DraftGiven(kind, cells) || !rules.complete(kind, Payload(kind, cells)) || (now != id && (kind, now) in c.index)
    || !StoredFree(c, rules, kind, Some(p), Payload(kind, cells))
    || (0 in changes.cells && !DraftResolved(c, kind, cells)) || !rules.found(kind, Payload(kind, cells))
    || (now != id && kind == TaskFollowUps && DraftOf(c, p))
    || (now != id && kind == WorkUpdates && rules.guarded && Linked(links, slot, p))
  }

  predicate NativelyRefused(n: Db, slot: nat, rules: Rules, kind: Kind, id: int, now: int, cells: seq<Cell>, checked: bool)
    requires AllTables(n)
  {
    || !DraftGiven(kind, cells) || !rules.complete(kind, Payload(kind, cells)) || (now != id && now in n.tables[kind])
    || !NativeFree(rules, kind, n.tables[kind], Some(id), Payload(kind, cells))
    || !DraftFound(n, kind, cells) || !rules.found(kind, Payload(kind, cells))
    || (now != id && kind == TaskFollowUps && NamedByAttempt(n, id))
    || (now != id && kind == WorkUpdates && checked && Linked(n.links, slot, id))
  }

  lemma RefusedIff(n: Db, shape: Shape, db: Db, rules: Rules, kind: Kind, id: int, changes: Changes, cells: seq<Cell>)
    requires Twins(n, shape, db) && AllTables(n) && (kind, id) in db.common.index && id in n.tables[kind]
    requires cells == Patched(n.tables[kind][id], changes.cells)
    ensures
      var now := Or(changes.id, id);
      Refused(db.common, db.links, shape.slot, rules, kind, id, db.common.index[(kind, id)], now, changes, cells)
      <==> NativelyRefused(n, shape.slot, rules, kind, id, now, cells, rules.guarded)
  {
    var now := Or(changes.id, id);
    RowShown(n, shape, db, kind, now);
    FreeIff(n, shape, db, rules, kind, Some(id), Payload(kind, cells));
    DraftIff(n, shape, db, kind, cells);
    if 0 !in changes.cells { OldDraft(n, shape, db, kind, id, changes); }
    if kind == TaskFollowUps { NamedIff(n, shape, db, id); }
    if kind == WorkUpdates { LinkedIff(n, shape, db, id); }
    hide Twins;
    hide StoredFree;
    hide NativeFree;
    hide DraftResolved;
    hide DraftFound;
    hide DraftGiven;
    hide Payload;
    hide DraftOf;
    hide NamedByAttempt;
    hide Linked;
  }

  lemma UpdateStepIs(
    db: Db, shape: Shape, rules: Rules, kind: Kind, id: int, changes: Changes, holds: seq<Cell> -> bool)
    requires IndexExact(db.common)
    ensures
      UpdateStep(db, shape, rules, kind, id, changes, holds) ==
      if (kind, id) !in db.common.index || !holds(Columns(db.common, db.common.rows[db.common.index[(kind, id)]])) then (db, NoRow)
      else
        var c, p, now := db.common, db.common.index[(kind, id)], Or(changes.id, id);
        if Refused(c, db.links, shape.slot, rules, kind, id, p, now, changes, Patched(Columns(c, c.rows[p]), changes.cells))
        then (db, Raised)
        else (db.(common := Replaced(c, p, (kind, id), Restored(c, c.rows[p], now, changes))), Wrote(now))
  {
    if (kind, id) in db.common.index { IndexedAt(db.common, kind, id); }
    hide IndexExact;
    hide Columns;
    hide Patched;
    hide Restored;
    hide Replaced;
    hide StoredFree;
    hide DraftResolved;
    hide DraftGiven;
    hide Payload;
    hide DraftOf;
    hide Linked;
  }

  lemma NativeUpdateIs(
    n: Db, shape: Shape, rules: Rules, kind: Kind, id: int, changes: Changes, holds: seq<Cell> -> bool, checked: bool)
    requires AllTables(n)
    ensures
      NativeUpdate(n, shape, rules, kind, id, changes, holds, checked) ==
      if id !in n.tables[kind] || !holds(n.tables[kind][id]) then (n, NoRow)
      else
        var now, cells := Or(changes.id, id), Patched(n.tables[kind][id], changes.cells);
        if NativelyRefused(n, shape.slot, rules, kind, id, now, cells, checked) then (n, Raised)
        else (n.(tables := n.tables[kind := (n.tables[kind] - {id})[now := cells]]), Wrote(now))
  {
    hide Patched;
    hide NativeFree;
    hide DraftFound;
    hide DraftGiven;
    hide Payload;
    hide NamedByAttempt;
    hide Linked;
  }

  /**
   * The one place where the two sides part: without the trigger of the typed business tables nothing stops a
   * linked work update from getting another ID.
   */
  predicate Unguarded(n: Db, shape: Shape, rules: Rules, call: Call)
    requires AllTables(n) && |shape.families| == |ORDER|
  {
    && !rules.guarded && Wellformed(shape, call) && call.Update?
    && NativeUpdate(n, shape, rules, call.kind, call.id, call.changes, call.holds, false).1.Wrote?
    && NativeUpdate(n, shape, rules, call.kind, call.id, call.changes, call.holds, true).1.Raised?
  }

  lemma NotRefused(
    c: Common, links: Rows, slot: nat, rules: Rules, kind: Kind, id: int, p: int, now: int, changes: Changes, cells: seq<Cell>)
    requires !Refused(c, links, slot, rules, kind, id, p, now, changes, cells)
    ensures now == id || (kind, now) !in c.index
    ensures 0 in changes.cells ==> DraftResolved(c, kind, cells)
    ensures now == id || kind != TaskFollowUps || !DraftOf(c, p)
  {
  }

  lemma CheckedOnly(n: Db, slot: nat, rules: Rules, kind: Kind, id: int, now: int, cells: seq<Cell>)
    requires AllTables(n)
    ensures NativelyRefused(n, slot, rules, kind, id, now, cells, true) <==>
      NativelyRefused(n, slot, rules, kind, id, now, cells, false) || (now != id && kind == WorkUpdates && Linked(n.links, slot, id))
  {
    hide NativeFree;
    hide DraftFound;
    hide DraftGiven;
    hide Payload;
    hide NamedByAttempt;
    hide Linked;
  }

  lemma UpdateAgrees(
    n: Db, shape: Shape, db: Db, rules: Rules, kind: Kind, id: int, changes: Changes, holds: seq<Cell> -> bool)
    requires Twins(n, shape, db) && AllTables(n) && |shape.families| == |ORDER| && IndexExact(db.common)
    ensures UpdateStep(db, shape, rules, kind, id, changes, holds).1 ==
      NativeUpdate(n, shape, rules, kind, id, changes, holds, rules.guarded).1
    ensures
      var (n', native) := NativeUpdate(n, shape, rules, kind, id, changes, holds, true);
      UpdateStep(db, shape, rules, kind, id, changes, holds).1 == native ==>
        Twins(n', shape, UpdateStep(db, shape, rules, kind, id, changes, holds).0)
  {
    hide *;
    RowShown(n, shape, db, kind, id);
    UpdateStepIs(db, shape, rules, kind, id, changes, holds);
    NativeUpdateIs(n, shape, rules, kind, id, changes, holds, rules.guarded);
    NativeUpdateIs(n, shape, rules, kind, id, changes, holds, true);
    if (kind, id) in db.common.index && holds(n.tables[kind][id]) {
      var p, now := db.common.index[(kind, id)], Or(changes.id, id);
      var cells := Patched(n.tables[kind][id], changes.cells);
      RefusedIff(n, shape, db, rules, kind, id, changes, cells);
      CheckedOnly(n, shape.slot, rules, kind, id, now, cells);
      if !Refused(db.common, db.links, shape.slot, rules, kind, id, p, now, changes, cells) {
        NotRefused(db.common, db.links, shape.slot, rules, kind, id, p, now, changes, cells);
        if !NativelyRefused(n, shape.slot, rules, kind, id, now, cells, true) {
          Updated(n, shape, db, kind, id, now, changes, cells);
        }
      }
    }
  }

  lemma StepsAre(n: Db, shape: Shape, db: Db, rules: Rules, call: Call)
    requires AllTables(n) && IndexExact(db.common) && |shape.families| == |ORDER|
    ensures !Wellformed(shape, call) ==> Step(db, shape, rules, call) == (db, Raised) && NativeStep(n, shape, rules, call) == (n, Raised)
    ensures Wellformed(shape, call) && call.Insert? ==>
      && |call.cells| == shape.families[Rank(call.kind)]
      && Step(db, shape, rules, call) == InsertStep(db, rules, call.kind, call.given, call.cells, call.ignore)
      && NativeStep(n, shape, rules, call) == NativeInsert(n, rules, call.kind, call.given, call.cells, call.ignore)
    ensures Wellformed(shape, call) && call.Update? ==>
      && Step(db, shape, rules, call) == UpdateStep(db, shape, rules, call.kind, call.id, call.changes, call.holds)
      && NativeStep(n, shape, rules, call) == NativeUpdate(n, shape, rules, call.kind, call.id, call.changes, call.holds, true)
  {
    hide InsertStep;
    hide UpdateStep;
    hide NativeInsert;
    hide NativeUpdate;
    hide IndexExact;
  }

  lemma UnguardedIs(n: Db, shape: Shape, rules: Rules, call: Call)
    requires AllTables(n) && |shape.families| == |ORDER|
    ensures Unguarded(n, shape, rules, call) <==>
      && !rules.guarded && Wellformed(shape, call) && call.Update?
      && NativeUpdate(n, shape, rules, call.kind, call.id, call.changes, call.holds, false).1.Wrote?
      && NativeUpdate(n, shape, rules, call.kind, call.id, call.changes, call.holds, true).1.Raised?
  {
    hide Wellformed;
    hide NativeUpdate;
  }

  lemma KindThere(n: Db, kind: Kind)
    requires AllTables(n)
    ensures kind in n.tables
  {
  }

  /** With links not checked an update answers as with them, or goes through where they refuse it. */
  lemma CheckedDiffers(n: Db, shape: Shape, rules: Rules, kind: Kind, id: int, changes: Changes, holds: seq<Cell> -> bool)
    requires AllTables(n)
    ensures
      var loose := NativeUpdate(n, shape, rules, kind, id, changes, holds, false).1;
      var tight := NativeUpdate(n, shape, rules, kind, id, changes, holds, true).1;
      loose == tight || (loose.Wrote? && tight.Raised?)
  {
    hide *;
    NativeUpdateIs(n, shape, rules, kind, id, changes, holds, false);
    NativeUpdateIs(n, shape, rules, kind, id, changes, holds, true);
    KindThere(n, kind);
    if id in n.tables[kind] {
      CheckedOnly(n, shape.slot, rules, kind, id, Or(changes.id, id), Patched(n.tables[kind][id], changes.cells));
    }
  }

  /**
   * Every statement changes what is shown as the native one would and answers alike, early lookups included,
   * except exactly where a linked work update is renumbered without the trigger: refused natively, done here.
   */
  lemma StepAgrees(n: Db, shape: Shape, db: Db, rules: Rules, call: Call)
    requires Twins(n, shape, db)
    ensures AllTables(n) && IndexExact(db.common) && |shape.families| == |ORDER|
    ensures
      var (db', reply) := Step(db, shape, rules, call);
      var (n', native) := NativeStep(n, shape, rules, call);
      && (reply == native <==> !Unguarded(n, shape, rules, call))
      && (reply == native ==> Twins(n', shape, db'))
      && (reply != native ==> native == Raised && reply.Wrote?)
  {
    hide *;
    TwinsGive(n, shape, db);
    StepsAre(n, shape, db, rules, call);
    UnguardedIs(n, shape, rules, call);
    if Wellformed(shape, call) {
      match call
      case Insert(kind, given, cells, ignore) =>
        InsertAgrees(n, shape, db, rules, kind, given, cells, ignore);
      case Update(kind, id, changes, holds) =>
        UpdateAgrees(n, shape, db, rules, kind, id, changes, holds);
        CheckedDiffers(n, shape, rules, kind, id, changes, holds);
    }
  }

  /** The links that name `id` name `now` instead. */
  function Followed(links: Rows, slot: nat, id: int, now: int): Rows {
    map l | l in links :: if slot < |links[l]| && links[l][slot] == Number(id) then links[l][slot := Number(now)] else links[l]
  }

  /** What the store does, told on the native tables. */
  function FoldedStep(n: Db, shape: Shape, rules: Rules, call: Call): (r: (Db, Reply))
    requires AllTables(n) && |shape.families| == |ORDER|
    ensures AllTables(r.0)
  {
    if Unguarded(n, shape, rules, call) then
      var (n', reply) := NativeUpdate(n, shape, rules, call.kind, call.id, call.changes, call.holds, false);
      (n'.(links := Followed(n.links, shape.slot, call.id, Or(call.changes.id, call.id))), reply)
    else NativeStep(n, shape, rules, call)
  }

  lemma FoldedStepIs(n: Db, shape: Shape, rules: Rules, call: Call)
    requires AllTables(n) && |shape.families| == |ORDER|
    ensures !Unguarded(n, shape, rules, call) ==> FoldedStep(n, shape, rules, call) == NativeStep(n, shape, rules, call)
    ensures Unguarded(n, shape, rules, call) ==>
      && call.Update?
      && var (n', reply) := NativeUpdate(n, shape, rules, call.kind, call.id, call.changes, call.holds, false);
         FoldedStep(n, shape, rules, call)
         == (n'.(links := Followed(n.links, shape.slot, call.id, Or(call.changes.id, call.id))), reply)
  {
    hide NativeUpdate;
    hide NativeStep;
    hide Wellformed;
  }

  lemma FollowedBack(
    c: Common, p: int, stored: Stored, slot: nat, native: seq<Cell>, link: seq<Cell>, id: int, now: int)
    requires IndexExact(c) && (WorkUpdates, id) in c.index && c.index[(WorkUpdates, id)] == p
    requires stored.Family? && stored.kind == WorkUpdates && stored.id == now && now != id && (WorkUpdates, now) !in c.index
    requires slot < |native| && Renumbered(c, slot, native, true) == Some(link)
    ensures
      var then' := if native[slot] == Number(id) then native[slot := Number(now)] else native;
      Renumbered(Replaced(c, p, (WorkUpdates, id), stored), slot, then', true) == Some(link)
  {
    if native[slot] == Number(id) {
      assert link == native[slot := Number(p)];
      assert native[slot := Number(now)][slot := Number(p)] == link;
    } else if native[slot].Number? {
      var x := native[slot].number;
      assert (WorkUpdates, x) in c.index && x != id;
    }
  }

  /** As `TwinTables`, with links changed beside the tables. */
  lemma TwinLinks(n: Db, shape: Shape, db: Db, tables: map<Kind, Rows>, links: Rows, c: Common)
    requires Twins(n, shape, db) && NativeLayout(n.(tables := tables, links := links), shape)
    requires IndexExact(c) && DraftsTyped(c) && RetainedRows(c) == RetainedRows(db.common)
    requires forall kind :: kind in tables && Projection(c, kind) == tables[kind]
    requires links.Keys == n.links.Keys
    requires forall l | l in links :: shape.slot < |links[l]| && Renumbered(c, shape.slot, links[l], true) == Some(db.links[l])
    ensures Twins(n.(tables := tables, links := links), shape, db.(common := c))
  {
    TablesWide(n.(tables := tables, links := links), shape);
    hide IndexExact;
    hide DraftsTyped;
    hide Projection;
    hide RetainedRows;
    hide Renumbered;
    hide Wide;
    hide Sequence;
    hide MovedMark;
  }

  lemma LinksKept(n: Db, shape: Shape, links: Rows)
    requires NativeLayout(n, shape) && links.Keys == n.links.Keys && forall l | l in links :: |links[l]| == |n.links[l]|
    ensures NativeLayout(n.(links := links), shape)
  {
    hide RetainedRows;
  }

  lemma LinkPair(n: Db, shape: Shape, db: Db, l: int)
    requires Twins(n, shape, db) && l in n.links
    ensures l in db.links && shape.slot < |n.links[l]| && Renumbered(db.common, shape.slot, n.links[l], true) == Some(db.links[l])
  {
    assert db.links.Keys == n.links.Keys;
    hide IndexExact;
    hide Projection;
    hide Renumbered;
  }

  lemma LinkIds(n: Db, shape: Shape, db: Db)
    requires Twins(n, shape, db)
    ensures db.links.Keys == n.links.Keys
  {
    hide IndexExact;
    hide Projection;
    hide Renumbered;
  }

  lemma UpdatedLinked(n: Db, shape: Shape, db: Db, id: int, now: int, changes: Changes, cells: seq<Cell>)
    requires Twins(n, shape, db) && (WorkUpdates, id) in db.common.index && |shape.families| == |ORDER| && WorkUpdates in n.tables
    requires id in n.tables[WorkUpdates] && cells == Patched(n.tables[WorkUpdates][id], changes.cells)
    requires now != id && (WorkUpdates, now) !in db.common.index
    ensures
      var c, p := db.common, db.common.index[(WorkUpdates, id)];
      && p in c.rows && c.rows[p].Family? && Restored(c, c.rows[p], now, changes).Family?
      && Twins(n.(tables := n.tables[WorkUpdates := (n.tables[WorkUpdates] - {id})[now := cells]],
                  links := Followed(n.links, shape.slot, id, now)), shape,
               db.(common := Replaced(c, p, (WorkUpdates, id), Restored(c, c.rows[p], now, changes))))
  {
    hide *;
    var c, p, k := db.common, db.common.index[(WorkUpdates, id)], (WorkUpdates, id);
    TwinsGive(n, shape, db);
    RowShown(n, shape, db, WorkUpdates, id);
    RestoredWork(c, p, id, now, changes);
    var stored := Restored(c, c.rows[p], now, changes);
    var c' := Replaced(c, p, k, stored);
    var tables := n.tables[WorkUpdates := (n.tables[WorkUpdates] - {id})[now := cells]];
    var links := Followed(n.links, shape.slot, id, now);
    FollowedIs(n.links, shape.slot, id, now);
    ReplacedExact(c, p, k, stored);
    ReplacedDrafts(c, p, k, stored);
    forall other ensures other in tables && Projection(c', other) == tables[other] {
      ProjectionReplaced(c, p, k, stored, cells, other);
      InsteadIs(c, k, now, cells, other);
      TwinProjection(n, shape, db, other);
    }
    LinkIds(n, shape, db);
    assert forall l | l in links :: l in n.links && l in db.links;
    forall l | l in links
      ensures shape.slot < |links[l]| && Renumbered(c', shape.slot, links[l], true) == Some(db.links[l])
    {
      LinkPair(n, shape, db, l);
      FollowedBack(c, p, stored, shape.slot, n.links[l], db.links[l], id, now);
    }
    RowWide(n, shape, db, WorkUpdates, id);
    TableSmaller(n, shape, db, WorkUpdates, id, now, cells);
    LinksKept(n.(tables := tables), shape, links);
    TwinLinks(n, shape, db, tables, links, c');
  }

  lemma RestoredWork(c: Common, p: int, id: int, now: int, changes: Changes)
    requires IndexExact(c) && (WorkUpdates, id) in c.index && c.index[(WorkUpdates, id)] == p
    requires p in c.rows && c.rows[p].Family? && DraftTyped(c, c.rows[p]) && (now == id || (WorkUpdates, now) !in c.index)
    ensures
      var k, stored := (WorkUpdates, id), Restored(c, c.rows[p], now, changes);
      && stored.Family? && stored.kind == WorkUpdates && stored.id == now
      && Columns(Replaced(c, p, k, stored), stored) == Patched(Columns(c, c.rows[p]), changes.cells)
      && DraftTyped(Replaced(c, p, k, stored), stored)
  {
    assert c.rows[p].kind == WorkUpdates;
    RestoredBack(c, p, (WorkUpdates, id), now, changes);
    hide IndexExact;
    hide Patched;
  }

  lemma FollowedIs(links: Rows, slot: nat, id: int, now: int)
    ensures
      var followed := Followed(links, slot, id, now);
      && followed.Keys == links.Keys
      && forall l | l in links ::
           && |followed[l]| == |links[l]|
           && (slot < |links[l]| ==>
                 followed[l] == if links[l][slot] == Number(id) then links[l][slot := Number(now)] else links[l])
  {
    SameIds(Followed(links, slot, id, now), links);
  }

  lemma UnguardedAgrees(n: Db, shape: Shape, db: Db, rules: Rules, call: Call)
    requires Twins(n, shape, db) && AllTables(n) && |shape.families| == |ORDER| && IndexExact(db.common)
    requires Unguarded(n, shape, rules, call)
    ensures call.Update?
    ensures
      var (db', reply) := UpdateStep(db, shape, rules, call.kind, call.id, call.changes, call.holds);
      var (n', native) := NativeUpdate(n, shape, rules, call.kind, call.id, call.changes, call.holds, false);
      && reply == native
      && Twins(n'.(links := Followed(n.links, shape.slot, call.id, Or(call.changes.id, call.id))), shape, db')
  {
    hide *;
    UnguardedIff(n, shape, rules, call);
    var id, changes, now := call.id, call.changes, Or(call.changes.id, call.id);
    RowShown(n, shape, db, WorkUpdates, id);
    UpdateStepIs(db, shape, rules, WorkUpdates, id, changes, call.holds);
    NativeUpdateIs(n, shape, rules, WorkUpdates, id, changes, call.holds, false);
    var p, cells := db.common.index[(WorkUpdates, id)], Patched(n.tables[WorkUpdates][id], changes.cells);
    RefusedIff(n, shape, db, rules, WorkUpdates, id, changes, cells);
    NotRefused(db.common, db.links, shape.slot, rules, WorkUpdates, id, p, now, changes, cells);
    UpdatedLinked(n, shape, db, id, now, changes, cells);
  }

  /** Without exception: the store does what the folded step says. */
  lemma FoldedAgrees(n: Db, shape: Shape, db: Db, rules: Rules, call: Call)
    requires Twins(n, shape, db)
    ensures AllTables(n) && IndexExact(db.common) && |shape.families| == |ORDER|
    ensures
      var (db', reply) := Step(db, shape, rules, call);
      var (n', told) := FoldedStep(n, shape, rules, call);
      reply == told && Twins(n', shape, db')
  {
    hide *;
    TwinsGive(n, shape, db);
    StepAgrees(n, shape, db, rules, call);
    FoldedStepIs(n, shape, rules, call);
    if Unguarded(n, shape, rules, call) {
      UnguardedIs(n, shape, rules, call);
      StepsAre(n, shape, db, rules, call);
      UnguardedAgrees(n, shape, db, rules, call);
    }
  }

  /** That is: the ID of a linked work update changes, and nothing else refuses it. */
  lemma UnguardedIff(n: Db, shape: Shape, rules: Rules, call: Call)
    requires AllTables(n) && |shape.families| == |ORDER|
    ensures Unguarded(n, shape, rules, call) <==>
      && !rules.guarded && Wellformed(shape, call) && call.Update? && call.kind == WorkUpdates
      && Or(call.changes.id, call.id) != call.id && Linked(n.links, shape.slot, call.id)
      && NativeUpdate(n, shape, rules, call.kind, call.id, call.changes, call.holds, false).1.Wrote?
  {
    UnguardedIs(n, shape, rules, call);
    if call.Update? {
      NativeUpdateIs(n, shape, rules, call.kind, call.id, call.changes, call.holds, false);
      NativeUpdateIs(n, shape, rules, call.kind, call.id, call.changes, call.holds, true);
      KindThere(n, call.kind);
      if call.id in n.tables[call.kind] {
        CheckedOnly(n, shape.slot, rules, call.kind, call.id, Or(call.changes.id, call.id),
                    Patched(n.tables[call.kind][call.id], call.changes.cells));
      }
    }
    hide *;
  }

  const ANYTHING := Rules((k, x) => true, (k, x) => true, k => [], false)

  function OneLinked(): Db {
    var tables := map[
      WorkUpdates := map[1 := []], Drafts := map[], SendAttempts := map[], TaskFollowUps := map[], TaskSendAttempts := map[],
      TodoOutbox := map[], TaskTodoOutbox := map[], DingTalkLinks := map[], TaskDingTalkLinks := map[], TaskEvents := map[]];
    Db(Common(map[], map[]), tables, map[1 := [Number(1)]], map[])
  }

  /** It happens: a work update that a link names gets another ID. */
  lemma LinkedRenumbered(shape: Shape)
    requires WellShaped(shape) && shape.slot == 0
    ensures AllTables(OneLinked())
    ensures Unguarded(OneLinked(), shape, ANYTHING, Update(WorkUpdates, 1, Changes(Some(2), map[]), x => true))
  {
    var n, call := OneLinked(), Update(WorkUpdates, 1, Changes(Some(2), map[]), x => true);
    forall kind ensures kind in n.tables {
      match kind
      case WorkUpdates =>
      case Drafts =>
      case SendAttempts =>
      case TaskFollowUps =>
      case TaskSendAttempts =>
      case TodoOutbox =>
      case TaskTodoOutbox =>
      case DingTalkLinks =>
      case TaskDingTalkLinks =>
      case TaskEvents =>
    }
    assert 1 in n.links && n.links[1][0] == Number(1);
    assert Linked(n.links, 0, 1);
    UnguardedIff(n, shape, ANYTHING, call);
    NativeUpdateIs(n, shape, ANYTHING, WorkUpdates, 1, call.changes, call.holds, false);
    OneRow(n, shape, call.changes);
    hide NativeUpdate;
    hide Linked;
  }

  lemma OneRow(n: Db, shape: Shape, changes: Changes)
    requires n == OneLinked() && AllTables(n) && changes == Changes(Some(2), map[])
    ensures 1 in n.tables[WorkUpdates]
    ensures !NativelyRefused(n, shape.slot, ANYTHING, WorkUpdates, 1, 2, Patched(n.tables[WorkUpdates][1], changes.cells), false)
  {
  }

  // ---------- conversion, writes, and back ----------

  lemma MarksInRange(n: Db, shape: Shape, rules: Rules, call: Call)
    requires AllTables(n) && |shape.families| == |ORDER| && Capturable(n.marks, shape)
    ensures Capturable(FoldedStep(n, shape, rules, call).0.marks, shape)
  {
    hide *;
    FoldedStepIs(n, shape, rules, call);
    var id := StepsNative(n, shape, rules, call);
    MarkInRange(n.marks, shape, call.kind, id);
    if Unguarded(n, shape, rules, call) { LooseMarks(n, shape, rules, call); }
  }

  lemma LooseMarks(n: Db, shape: Shape, rules: Rules, call: Call)
    requires AllTables(n) && |shape.families| == |ORDER| && Unguarded(n, shape, rules, call)
    ensures call.Update?
    ensures NativeUpdate(n, shape, rules, call.kind, call.id, call.changes, call.holds, false).0.marks == n.marks
  {
    NativeUpdateIs(n, shape, rules, call.kind, call.id, call.changes, call.holds, false);
    hide NativeUpdate;
    hide Wellformed;
    hide NativelyRefused;
  }

  lemma MarkInRange(marks: Marks, shape: Shape, kind: Kind, id: int)
    requires Capturable(marks, shape) && Storable(id)
    ensures Capturable(MarkUp(marks, Native(kind), id), shape)
  {
  }

  lemma StepsNative(n: Db, shape: Shape, rules: Rules, call: Call) returns (id: int)
    requires AllTables(n) && |shape.families| == |ORDER|
    ensures Storable(id)
    ensures
      var marks := NativeStep(n, shape, rules, call).0.marks;
      marks == n.marks || marks == MarkUp(n.marks, Native(call.kind), id)
  {
    hide MarkUp;
    id := 0;
    if call.Insert? && Wellformed(shape, call) {
      NativeInsertIs(n, rules, call.kind, call.given, call.cells, call.ignore);
      KindThere(n, call.kind);
      var chosen := Or(call.given, NextId(Sequence(n.marks, Native(call.kind)), n.tables[call.kind].Keys));
      if Storable(chosen) { id := chosen; }
    }
    if call.Update? && Wellformed(shape, call) {
      NativeUpdateIs(n, shape, rules, call.kind, call.id, call.changes, call.holds, true);
    }
    hide Wellformed;
    hide NativeInsert;
    hide NativeUpdate;
    hide NextId;
    hide Storable;
    hide NativelyBlocked;
    hide NativelyRefused;
    hide Payload;
    hide DraftFound;
  }

  function NativeRun(n: Db, shape: Shape, rules: Rules, calls: seq<Call>): (after: Db)
    requires AllTables(n) && |shape.families| == |ORDER|
    ensures AllTables(after)
    decreases |calls|
  {
    if calls == [] then n else NativeRun(NativeStep(n, shape, rules, calls[0]).0, shape, rules, calls[1..])
  }

  /** The run with links that follow a renumbered work update where no trigger forbids it. */
  function FoldedRun(n: Db, shape: Shape, rules: Rules, calls: seq<Call>): (after: Db)
    requires AllTables(n) && |shape.families| == |ORDER|
    ensures AllTables(after)
    decreases |calls|
  {
    if calls == [] then n else FoldedRun(FoldedStep(n, shape, rules, calls[0]).0, shape, rules, calls[1..])
  }

  /** No statement of the run renumbers a linked work update without the trigger. */
  predicate AllGuarded(n: Db, shape: Shape, rules: Rules, calls: seq<Call>)
    requires AllTables(n) && |shape.families| == |ORDER|
    decreases |calls|
  {
    calls == []
    || (!Unguarded(n, shape, rules, calls[0])
        && AllGuarded(NativeStep(n, shape, rules, calls[0]).0, shape, rules, calls[1..]))
  }

  /** With the trigger, or without such a statement, the folded run is the native one. */
  lemma {:induction false} GuardedRun(n: Db, shape: Shape, rules: Rules, calls: seq<Call>)
    requires AllTables(n) && |shape.families| == |ORDER| && (rules.guarded || AllGuarded(n, shape, rules, calls))
    ensures FoldedRun(n, shape, rules, calls) == NativeRun(n, shape, rules, calls)
    decreases |calls|
  {
    hide NativeStep;
    hide FoldedStep;
    if calls != [] {
      UnguardedIs(n, shape, rules, calls[0]);
      FoldedStepIs(n, shape, rules, calls[0]);
      hide Unguarded;
      GuardedRun(NativeStep(n, shape, rules, calls[0]).0, shape, rules, calls[1..]);
    }
  }

  /** The store on the folded families; its methods are the writes as it performs them. */
  class SyncStore {
    var db: Db
    const shape: Shape
    const rules: Rules

    constructor (start: Db, shape: Shape, rules: Rules)
      ensures db == start && this.shape == shape && this.rules == rules
    {
      db := start;
      this.shape := shape;
      this.rules := rules;
    }

    method InsertSyncAction(kind: Kind, given: Option<int>, cells: seq<Cell>, ignore: bool) returns (reply: Reply)
      modifies this
      ensures (db, reply) == InsertStep(old(db), rules, kind, given, cells, ignore)
    {
      var c := db.common;
      var payload := Payload(kind, cells);
      var id := if given.Some? then given.value else NextId(Sequence(db.marks, Typed(kind)), KindIds(c, kind));
      if !Storable(id) {
        return Raised;
      }
      var marks := MarkUp(db.marks, Typed(kind), id);
      if !DraftGiven(kind, cells) || !rules.complete(kind, payload) || (kind, id) in c.index
         || !StoredFree(c, rules, kind, None, payload)
      {
        if ignore {
          db := db.(marks := marks);
          return Ignored;
        }
        return Raised;
      }
      if !DraftResolved(c, kind, cells) || !rules.found(kind, payload) {
        return Raised;
      }
      db := db.(common := Put(c, NextPhysical(c), Folded(c, kind, id, cells)), marks := marks);
      reply := Wrote(id);
    }

    method UpdateSyncAction(kind: Kind, id: int, changes: Changes, holds: seq<Cell> -> bool) returns (reply: Reply)
      requires IndexExact(db.common)
      modifies this
      ensures (db, reply) == UpdateStep(old(db), shape, rules, kind, id, changes, holds)
    {
      var c := db.common;
      UpdateStepIs(db, shape, rules, kind, id, changes, holds);
      hide *;
      if (kind, id) !in c.index {
        return NoRow;
      }
      var p := c.index[(kind, id)];
      IndexedAt(c, kind, id);
      var shown := Columns(c, c.rows[p]);
      if !holds(shown) {
        return NoRow;
      }
      var now := if changes.id.Some? then changes.id.value else id;
      OrIs(changes.id, id);
      if Refused(c, db.links, shape.slot, rules, kind, id, p, now, changes, Patched(shown, changes.cells)) {
        return Raised;
      }
      db := db.(common := Replaced(c, p, (kind, id), Restored(c, c.rows[p], now, changes)));
      reply := Wrote(now);
    }

    method Write(call: Call) returns (reply: Reply)
      requires IndexExact(db.common) && |shape.families| == |ORDER|
      modifies this
      ensures (db, reply) == Step(old(db), shape, rules, call)
    {
      CommonStepIs(db, shape, rules, call);
      hide *;
      if !Wellformed(shape, call) {
        return Raised;
      }
      match call
      case Insert(kind, given, cells, ignore) =>
        reply := InsertSyncAction(kind, given, cells, ignore);
      case Update(kind, id, changes, holds) =>
        reply := UpdateSyncAction(kind, id, changes, holds);
    }
  }

  lemma OrIs<T>(given: Option<T>, now: T)
    ensures Or(given, now) == if given.Some? then given.value else now
  {
  }

  lemma CommonStepIs(db: Db, shape: Shape, rules: Rules, call: Call)
    requires IndexExact(db.common) && |shape.families| == |ORDER|
    ensures !Wellformed(shape, call) ==> Step(db, shape, rules, call) == (db, Raised)
    ensures Wellformed(shape, call) && call.Insert? ==>
      Step(db, shape, rules, call) == InsertStep(db, rules, call.kind, call.given, call.cells, call.ignore)
    ensures Wellformed(shape, call) && call.Update? ==>
      Step(db, shape, rules, call) == UpdateStep(db, shape, rules, call.kind, call.id, call.changes, call.holds)
  {
    hide InsertStep;
    hide UpdateStep;
    hide IndexExact;
  }

  lemma RunParts(n: Db, shape: Shape, rules: Rules, calls: seq<Call>, i: nat)
    requires AllTables(n) && |shape.families| == |ORDER| && i < |calls|
    ensures FoldedRun(n, shape, rules, calls[i..]) == FoldedRun(FoldedStep(n, shape, rules, calls[i]).0, shape, rules, calls[i + 1..])
  {
    assert calls[i..][1..] == calls[i + 1..];
    hide FoldedStep;
  }

  lemma RunOver(n: Db, shape: Shape, rules: Rules)
    requires AllTables(n) && |shape.families| == |ORDER|
    ensures FoldedRun(n, shape, rules, []) == n
  {
  }

  /** After any sequence of writes the store shows what the folded run holds. */
  method WriteAll(store: SyncStore, calls: seq<Call>, ghost source: Db)
    requires Twins(source, store.shape, store.db) && AllTables(source) && |store.shape.families| == |ORDER|
    requires Capturable(source.marks, store.shape)
    modifies store
    ensures Twins(FoldedRun(source, store.shape, store.rules, calls), store.shape, store.db)
    ensures Capturable(FoldedRun(source, store.shape, store.rules, calls).marks, store.shape)
  {
    hide *;
    ghost var n := source;
    assert calls[0..] == calls;
    for i := 0 to |calls|
      invariant AllTables(n) && Twins(n, store.shape, store.db) && Capturable(n.marks, store.shape)
      invariant FoldedRun(n, store.shape, store.rules, calls[i..]) == FoldedRun(source, store.shape, store.rules, calls)
    {
      RunParts(n, store.shape, store.rules, calls, i);
      FoldedAgrees(n, store.shape, store.db, store.rules, calls[i]);
      MarksInRange(n, store.shape, store.rules, calls[i]);
      var reply := store.Write(calls[i]);
      n := FoldedStep(n, store.shape, store.rules, calls[i]).0;
    }
    assert calls[|calls|..] == [];
    RunOver(n, store.shape, store.rules);
  }

  lemma TwinsIs(n: Db, shape: Shape, db: Db)
    ensures Twins(n, shape, db) <==> WellShaped(shape) && NativeLayout(n, shape) && Folds(n, shape, db)
  {
    hide WellShaped;
    hide NativeLayout;
    hide Folds;
  }

  lemma LayoutGives(n: Db, shape: Shape)
    requires NativeLayout(n, shape)
    ensures AllTables(n) && |shape.families| == |ORDER|
  {
    hide Wide;
  }

  /**
   * Fold the families, write anything, and unfold them: the tables, links and marks those statements would
   * have left natively; where no trigger forbids it, links follow a work update that gets another ID.
   */
  method MigrateWriteRestore(source: Db, shape: Shape, rules: Rules, calls: seq<Call>) returns (result: Result<Db>)
    requires WellShaped(shape) && NativeLayout(source, shape)
    ensures AllTables(source) && |shape.families| == |ORDER|
    ensures
      result == if Capturable(source.marks, shape) && ParentsFound(source, shape)
                then Success(FoldedRun(source, shape, rules, calls)) else Failure
    ensures (rules.guarded || AllGuarded(source, shape, rules, calls)) && result.Success? ==>
      result.value == NativeRun(source, shape, rules, calls)
  {
    hide *;
    LayoutGives(source, shape);
    var folded := MigrateFollowupSync(source, shape);
    if folded.Failure? {
      return Failure;
    }
    TwinsIs(source, shape, folded.value);
    var store := new SyncStore(folded.value, shape, rules);
    WriteAll(store, calls, source);
    ghost var after := FoldedRun(source, shape, rules, calls);
    TwinsIs(after, shape, store.db);
    FoldsInvertible(after, shape, store.db);
    result := RestoreFollowupSync(store.db, shape);
    ThereAndBack(after, shape, store.db, result.value);
    if rules.guarded || AllGuarded(source, shape, rules, calls) { GuardedRun(source, shape, rules, calls); }
  }
}
