/** What each statement on the native follow-up and Todo-sync tables does, told on their rows and columns. */
module FollowupColumns {
  import opened Wrappers
  import opened Ids
  import opened FollowupSync
  import opened FollowupWrites

  // ---------- IDs, marks and columns ----------

  /** A signed 64-bit integer. */
  predicate Fits(x: int) { -0x8000_0000_0000_0000 <= x < 0x8000_0000_0000_0000 }

  predicate Refused(n: Db, after: Db, reply: Reply) { reply == Raised && after == n }

  /** One more than the largest of the mark of the table and its IDs, and 1 without either. */
  ghost predicate IsNext(n: Db, kind: Kind, id: int)
    requires kind in n.tables
  {
    && id >= 1 && (id == 1 || (Native(kind) in n.marks && n.marks[Native(kind)] == id - 1) || id - 1 in n.tables[kind])
    && (Native(kind) in n.marks ==> n.marks[Native(kind)] < id) && forall x | x in n.tables[kind] :: x < id
  }

  /** The mark of the name reaches the ID and never falls; the others stay. */
  ghost predicate MarkReaches(before: Marks, name: Name, id: int, after: Marks) {
    && after.Keys == before.Keys + {name} && (forall other | other in before && other != name :: after[other] == before[other])
    && id <= after[name] && (name in before ==> before[name] <= after[name])
    && (after[name] == id || (name in before && after[name] == before[name]) || (name !in before && after[name] == 0))
  }

  /** The columns checked: all of the row, without the follow-up a send attempt begins with. */
  function Checked(kind: Kind, cells: seq<Cell>): seq<Cell> {
    if kind == TaskSendAttempts && |cells| > 0 then cells[1..] else cells
  }

  /** The send attempt names a follow-up that is there. */
  predicate ParentThere(n: Db, kind: Kind, cells: seq<Cell>)
    requires TaskFollowUps in n.tables
  {
    kind == TaskSendAttempts ==> |cells| > 0 && cells[0].Number? && cells[0].number in n.tables[TaskFollowUps]
  }

  predicate ParentGiven(kind: Kind, cells: seq<Cell>) { kind == TaskSendAttempts ==> |cells| > 0 && !cells[0].Null? }

  /** One of the unique indexes applies to both rows and holds the same value, not NULL, for both. */
  predicate SameIndexed(rules: Rules, kind: Kind, x: seq<Cell>, y: seq<Cell>) {
    exists i :: 0 <= i < |rules.unique(kind)| && SameUnder(rules.unique(kind)[i], x, y)
  }

  predicate SameUnder(u: Unique, x: seq<Cell>, y: seq<Cell>) {
    u.applies(x) && u.applies(y) && u.column < |x| && u.column < |y| && x[u.column] == y[u.column] && !x[u.column].Null?
  }

  predicate Taken(n: Db, rules: Rules, kind: Kind, self: Option<int>, cells: seq<Cell>)
    requires kind in n.tables
  {
    exists x :: x in n.tables[kind] && self != Some(x)
                && SameIndexed(rules, kind, Checked(kind, n.tables[kind][x]), Checked(kind, cells))
  }

  /** A send attempt names the follow-up. */
  predicate Attempted(n: Db, id: int)
    requires TaskSendAttempts in n.tables
  {
    exists a :: a in n.tables[TaskSendAttempts] && |n.tables[TaskSendAttempts][a]| > 0
      && n.tables[TaskSendAttempts][a][0] == Number(id)
  }

  /** A link names the work update. */
  predicate LinkNames(n: Db, shape: Shape, id: int) {
    exists l :: l in n.links && shape.slot < |n.links[l]| && n.links[l][shape.slot] == Number(id)
  }

  /** Nothing but the rows of one table and the marks. */
  predicate OnlyTable(n: Db, kind: Kind, after: Db) {
    && after.common == n.common && after.links == n.links && after.tables.Keys == n.tables.Keys
    && forall other | other in n.tables && other != kind :: after.tables[other] == n.tables[other]
  }

  // ---------- the statements ----------

  /** The row under this ID; a row that is not accepted is passed over with `ignore`, one without its parents never. */
  ghost predicate InsertedAt(n: Db, rules: Rules, kind: Kind, id: int, cells: seq<Cell>, ignore: bool, after: Db, reply: Reply)
    requires AllTables(n)
  {
    if !Fits(id) then Refused(n, after, reply)
    else if id in n.tables[kind] || !ParentGiven(kind, cells) || !rules.complete(kind, Checked(kind, cells))
            || Taken(n, rules, kind, None, cells) then
      if ignore
      then reply == Ignored && after.tables == n.tables && OnlyTable(n, kind, after)
           && MarkReaches(n.marks, Native(kind), id, after.marks)
      else Refused(n, after, reply)
    else if !ParentThere(n, kind, cells) || !rules.found(kind, Checked(kind, cells)) then Refused(n, after, reply)
    else
      reply == Wrote(id) && OnlyTable(n, kind, after) && after.tables[kind] == n.tables[kind][id := cells]
      && MarkReaches(n.marks, Native(kind), id, after.marks)
  }

  ghost predicate Inserted(
    n: Db, shape: Shape, rules: Rules, kind: Kind, given: Option<int>, cells: seq<Cell>, ignore: bool, after: Db, reply: Reply)
    requires AllTables(n) && |shape.families| == |ORDER|
  {
    if (given.Some? && !Fits(given.value)) || |cells| != shape.families[Rank(kind)] then Refused(n, after, reply)
    else exists id: int ::
      (if given.Some? then id == given.value else IsNext(n, kind, id)) && InsertedAt(n, rules, kind, id, cells, ignore, after, reply)
  }

  /** Each named column is new and each other as it was. */
  predicate ColumnsChanged(before: seq<Cell>, changes: map<nat, Cell>, after: seq<Cell>) {
    && |after| == |before|
    && forall i | 0 <= i < |before| :: after[i] == if i in changes then changes[i] else before[i]
  }

  /** The row under its new ID with these columns, unless something stands against it. */
  ghost predicate UpdatedTo(
    n: Db, shape: Shape, rules: Rules, kind: Kind, id: int, now: int, cells: seq<Cell>, after: Db, reply: Reply)
    requires AllTables(n)
  {
    if || !ParentGiven(kind, cells) || !rules.complete(kind, Checked(kind, cells)) || (now != id && now in n.tables[kind])
       || Taken(n, rules, kind, Some(id), cells) || !ParentThere(n, kind, cells) || !rules.found(kind, Checked(kind, cells))
       || (now != id && kind == TaskFollowUps && Attempted(n, id))
       || (now != id && kind == WorkUpdates && LinkNames(n, shape, id))
    then Refused(n, after, reply)
    else
      reply == Wrote(now) && OnlyTable(n, kind, after) && after.marks == n.marks
      && after.tables[kind] == (n.tables[kind] - {id})[now := cells]
  }

  ghost predicate Updated(
    n: Db, shape: Shape, rules: Rules, kind: Kind, id: int, c: Changes, holds: seq<Cell> -> bool, after: Db, reply: Reply)
    requires AllTables(n) && |shape.families| == |ORDER|
  {
    if !Fits(id) || (c.id.Some? && !Fits(c.id.value)) || (c.id.None? && c.cells == map[])
       || exists i :: i in c.cells && i >= shape.families[Rank(kind)] then Refused(n, after, reply)
    else if id !in n.tables[kind] || !holds(n.tables[kind][id]) then reply == NoRow && after == n
    else exists cells ::
      ColumnsChanged(n.tables[kind][id], c.cells, cells)
      && UpdatedTo(n, shape, rules, kind, id, if c.id.Some? then c.id.value else id, cells, after, reply)
  }

  ghost predicate Told(n: Db, shape: Shape, rules: Rules, call: Call, after: Db, reply: Reply)
    requires AllTables(n) && |shape.families| == |ORDER|
  {
    match call
    case Insert(kind, given, cells, ignore) => Inserted(n, shape, rules, kind, given, cells, ignore, after, reply)
    case Update(kind, id, c, holds) => Updated(n, shape, rules, kind, id, c, holds, after, reply)
  }

  // ---------- they do this ----------

  lemma NextIs(n: Db, kind: Kind)
    requires AllTables(n)
    ensures kind in n.tables && IsNext(n, kind, NextId(Sequence(n.marks, Native(kind)), n.tables[kind].Keys))
  {
    var ids := n.tables[kind].Keys;
    assert forall x :: x in n.tables[kind] <==> x in ids;
    if ids != {} { assert IsLargest(ids, Largest(ids)) && Largest(ids) in n.tables[kind]; }
    hide Largest;
  }

  lemma MarkIs(marks: Marks, name: Name, id: int)
    ensures MarkReaches(marks, name, id, MarkUp(marks, name, id))
  {
  }

  lemma CheckedIs(kind: Kind, cells: seq<Cell>)
    ensures Checked(kind, cells) == Payload(kind, cells) && (ParentGiven(kind, cells) <==> DraftGiven(kind, cells))
  {
  }

  lemma TakenIs(n: Db, rules: Rules, kind: Kind, self: Option<int>, cells: seq<Cell>)
    requires AllTables(n)
    ensures kind in n.tables
    ensures Taken(n, rules, kind, self, cells) <==> !NativeFree(rules, kind, n.tables[kind], self, Payload(kind, cells))
  {
    forall x | x in n.tables[kind]
      ensures SameIndexed(rules, kind, Checked(kind, n.tables[kind][x]), Checked(kind, cells))
        <==> Clash(rules, kind, Payload(kind, n.tables[kind][x]), Payload(kind, cells))
    {
      CheckedIs(kind, n.tables[kind][x]);
      CheckedIs(kind, cells);
      SameIs(rules, kind, Checked(kind, n.tables[kind][x]), Checked(kind, cells));
    }
    hide SameIndexed;
    hide Clash;
    hide Checked;
    hide Payload;
  }

  lemma SameIs(rules: Rules, kind: Kind, x: seq<Cell>, y: seq<Cell>)
    ensures SameIndexed(rules, kind, x, y) <==> Clash(rules, kind, x, y)
  {
    forall i | 0 <= i < |rules.unique(kind)| ensures SameUnder(rules.unique(kind)[i], x, y) <==> SameValue(rules.unique(kind)[i], x, y) {
    }
    hide SameUnder;
    hide SameValue;
  }

  lemma ParentIs(n: Db, kind: Kind, cells: seq<Cell>, id: int)
    requires AllTables(n)
    ensures TaskFollowUps in n.tables && TaskSendAttempts in n.tables
    ensures ParentThere(n, kind, cells) <==> DraftFound(n, kind, cells)
    ensures Attempted(n, id) <==> NamedByAttempt(n, id)
  {
  }

  lemma LinkIs(n: Db, shape: Shape, id: int)
    ensures LinkNames(n, shape, id) <==> Linked(n.links, shape.slot, id)
  {
  }

  lemma InsertRow(n: Db, rules: Rules, kind: Kind, given: Option<int>, cells: seq<Cell>, ignore: bool)
    requires AllTables(n)
    ensures
      var id := Or(given, NextId(Sequence(n.marks, Native(kind)), n.tables[kind].Keys));
      var (after, reply) := NativeInsert(n, rules, kind, given, cells, ignore);
      InsertedAt(n, rules, kind, id, cells, ignore, after, reply)
  {
    var id := Or(given, NextId(Sequence(n.marks, Native(kind)), n.tables[kind].Keys));
    MarkIs(n.marks, Native(kind), id);
    CheckedIs(kind, cells);
    TakenIs(n, rules, kind, None, cells);
    ParentIs(n, kind, cells, id);
    FitsIs(id);
    hide Or;
    hide NextId;
    hide MarkUp;
    hide Checked;
    hide Payload;
    hide Taken;
    hide NativeFree;
    hide ParentThere;
    hide DraftFound;
    hide ParentGiven;
    hide DraftGiven;
    hide MarkReaches;
    hide Fits;
    hide Storable;
  }

  lemma InsertTold(n: Db, shape: Shape, rules: Rules, kind: Kind, given: Option<int>, cells: seq<Cell>, ignore: bool)
    requires AllTables(n) && |shape.families| == |ORDER|
    ensures
      var (after, reply) := NativeStep(n, shape, rules, Insert(kind, given, cells, ignore));
      Inserted(n, shape, rules, kind, given, cells, ignore, after, reply)
  {
    NextIs(n, kind);
    InsertRow(n, rules, kind, given, cells, ignore);
    if given.Some? { FitsIs(given.value); }
    hide NextId;
    hide NativeInsert;
    hide InsertedAt;
    hide IsNext;
    hide Fits;
    hide Storable;
    hide AllTables;
  }

  lemma FitsIs(x: int)
    ensures Fits(x) <==> Storable(x)
  {
  }

  lemma PatchedIs(cells: seq<Cell>, changes: map<nat, Cell>)
    ensures ColumnsChanged(cells, changes, Patched(cells, changes))
  {
  }

  /** One update of a row that is there, unfolded. */
  lemma NativeUpdateIs(n: Db, shape: Shape, rules: Rules, kind: Kind, id: int, c: Changes, holds: seq<Cell> -> bool)
    requires AllTables(n)
    ensures kind in n.tables && TaskFollowUps in n.tables && TaskSendAttempts in n.tables
    ensures id in n.tables[kind] && holds(n.tables[kind][id]) ==>
      var now, cells := Or(c.id, id), Patched(n.tables[kind][id], c.cells);
      NativeUpdate(n, shape, rules, kind, id, c, holds, true) ==
        if || !DraftGiven(kind, cells) || !rules.complete(kind, Payload(kind, cells)) || (now != id && now in n.tables[kind])
           || !NativeFree(rules, kind, n.tables[kind], Some(id), Payload(kind, cells))
           || !DraftFound(n, kind, cells) || !rules.found(kind, Payload(kind, cells))
           || (now != id && kind == TaskFollowUps && NamedByAttempt(n, id))
           || (now != id && kind == WorkUpdates && Linked(n.links, shape.slot, id))
        then (n, Raised)
        else (n.(tables := n.tables[kind := (n.tables[kind] - {id})[now := cells]]), Wrote(now))
  {
    hide Or;
    hide Patched;
    hide Payload;
    hide NativeFree;
    hide DraftFound;
    hide DraftGiven;
    hide NamedByAttempt;
    hide Linked;
  }

  lemma UpdateRow(n: Db, shape: Shape, rules: Rules, kind: Kind, id: int, c: Changes, holds: seq<Cell> -> bool)
    requires AllTables(n) && id in n.tables[kind] && holds(n.tables[kind][id])
    ensures
      var (after, reply) := NativeUpdate(n, shape, rules, kind, id, c, holds, true);
      UpdatedTo(n, shape, rules, kind, id, Or(c.id, id), Patched(n.tables[kind][id], c.cells), after, reply)
  {
    NativeUpdateIs(n, shape, rules, kind, id, c, holds);
    var cells := Patched(n.tables[kind][id], c.cells);
    CheckedIs(kind, cells);
    TakenIs(n, rules, kind, Some(id), cells);
    ParentIs(n, kind, cells, id);
    LinkIs(n, shape, id);
    hide NativeUpdate;
    hide Or;
    hide Patched;
    hide Checked;
    hide Payload;
    hide Taken;
    hide NativeFree;
    hide ParentThere;
    hide DraftFound;
    hide ParentGiven;
    hide DraftGiven;
    hide Attempted;
    hide NamedByAttempt;
    hide LinkNames;
    hide Linked;
  }

  lemma UpdateTold(n: Db, shape: Shape, rules: Rules, kind: Kind, id: int, c: Changes, holds: seq<Cell> -> bool)
    requires AllTables(n) && |shape.families| == |ORDER|
    ensures
      var (after, reply) := NativeStep(n, shape, rules, Update(kind, id, c, holds));
      Updated(n, shape, rules, kind, id, c, holds, after, reply)
  {
    FitsIs(id);
    if c.id.Some? { FitsIs(c.id.value); }
    if id in n.tables[kind] && holds(n.tables[kind][id]) {
      UpdateRow(n, shape, rules, kind, id, c, holds);
      PatchedIs(n.tables[kind][id], c.cells);
      hide NativeUpdate;
    }
    hide UpdatedTo;
    hide Patched;
    hide ColumnsChanged;
    hide Fits;
    hide Storable;
  }

  /** Every statement, on any tables and with any parameters. */
  lemma NativeTold(n: Db, shape: Shape, rules: Rules, call: Call)
    requires AllTables(n) && |shape.families| == |ORDER|
    ensures
      var (after, reply) := NativeStep(n, shape, rules, call);
      Told(n, shape, rules, call, after, reply)
  {
    match call
    case Insert(kind, given, cells, ignore) => InsertTold(n, shape, rules, kind, given, cells, ignore);
    case Update(kind, id, c, holds) => UpdateTold(n, shape, rules, kind, id, c, holds);
    hide NativeStep;
    hide Inserted;
    hide Updated;
  }

  /** A write on the folded families does the same to the tables they stand for, the links of a renumbered work update aside. */
  lemma StepTold(n: Db, shape: Shape, db: Db, rules: Rules, call: Call)
    requires Twins(n, shape, db)
    ensures AllTables(n) && IndexExact(db.common) && |shape.families| == |ORDER|
    ensures
      var (db', reply) := Step(db, shape, rules, call);
      Unguarded(n, shape, rules, call) || exists n' :: Twins(n', shape, db') && Told(n, shape, rules, call, n', reply)
  {
    hide *;
    StepAgrees(n, shape, db, rules, call);
    NativeTold(n, shape, rules, call);
  }
}
