/** Folding the follow-up and Todo-sync tables into `actions`, and the way back. */
module FollowupSync {
  import opened Wrappers
  import opened Ids
  import BulkCopy

  datatype Kind =
    | WorkUpdates | Drafts | SendAttempts | TaskFollowUps | TaskSendAttempts
    | TodoOutbox | TaskTodoOutbox | DingTalkLinks | TaskDingTalkLinks | TaskEvents

  /** The order in which the tables are copied. */
  const ORDER: seq<Kind> := [
    WorkUpdates, Drafts, SendAttempts, TaskFollowUps, TaskSendAttempts,
    TodoOutbox, TaskTodoOutbox, DingTalkLinks, TaskDingTalkLinks, TaskEvents]

  function Rank(kind: Kind): (r: nat)
    ensures r < |ORDER| && ORDER[r] == kind
  {
    match kind
    case WorkUpdates => 0
    case Drafts => 1
    case SendAttempts => 2
    case TaskFollowUps => 3
    case TaskSendAttempts => 4
    case TodoOutbox => 5
    case TaskTodoOutbox => 6
    case DingTalkLinks => 7
    case TaskDingTalkLinks => 8
    case TaskEvents => 9
  }

  datatype Cell = Null | Number(number: int) | Raw(payload: string)

  /** The rows of a table by ID, without the ID column. */
  type Rows = map<int, seq<Cell>>

  /**
   * The names in `sqlite_sequence`: a native table, the `actions:` allocator of its kind, the links,
   * `actions` itself, the allocators of the retained families, and tables this conversion never touches.
   */
  datatype Name =
    | Native(kind: Kind) | Typed(kind: Kind) | Links | Actions
    | Allocator(name: string) | Skill(name: string) | Other(name: string)

  type Marks = map<Name, int>

  datatype Stored = Retained(cells: seq<Cell>) | Family(kind: Kind, id: int, cells: seq<Cell>, draft: Option<int>)

  /** `actions` by physical ID, with the unique index on kind and public ID. */
  datatype Common = Common(rows: map<int, Stored>, index: map<(Kind, int), int>)

  datatype Db = Db(common: Common, tables: map<Kind, Rows>, links: Rows, marks: Marks)

  /**
   * Columns besides the ID of each table, the column of a link that names a work update, the retained
   * allocators, the tables declared AUTOINCREMENT (`actions` is not), and the number of variables a statement
   * may bind.
   */
  datatype Shape = Shape(
    actions: nat, families: seq<nat>, links: nat, slot: nat,
    retained: seq<Name>, counted: set<Name>, variables: nat)

  predicate WellShaped(shape: Shape) {
    && |shape.families| == |ORDER| && shape.slot < shape.links && shape.families[Rank(TaskSendAttempts)] > 0
    && Actions in shape.retained && Actions !in shape.counted
    && forall name | name in shape.retained :: name.Actions? || name.Allocator? || name.Skill?
  }

  predicate Wide(rows: Rows, width: nat) { forall id | id in rows :: |rows[id]| == width }

  // ---------- allocator marks ----------

  function Sequence(marks: Marks, name: Name): Option<int> {
    if name in marks then Some(marks[name]) else None
  }

  /** The row of a name is deleted, and written again unless there was none. */
  function SetSequence(marks: Marks, name: Name, value: Option<int>): Marks {
    if value.Some? then (marks - {name})[name := value.value] else marks - {name}
  }

  /** Inserting rows with their IDs into an AUTOINCREMENT table creates or raises its mark. */
  function Raised(marks: Marks, name: Name, counted: set<Name>, rows: Rows): Marks {
    if name !in counted || rows == map[] then marks
    else marks[name := BulkCopy.Max(if name in marks then marks[name] else 0, Largest(rows.Keys))]
  }

  predicate InRange(mark: int) { 0 <= mark <= MAX_ID }

  /** A family already folded in, an unknown allocator and a mark out of range are refused. */
  predicate Capturable(marks: Marks, shape: Shape) {
    forall name | name in marks ::
      && !name.Typed?
      && (name.Allocator? || name.Skill? ==> name in shape.retained)
      && (!name.Other? ==> InRange(marks[name]))
  }

  /** As on the way there; the marks of `Skill` allocators are not read on the way back. */
  predicate Invertible(marks: Marks, shape: Shape) {
    forall name | name in marks ::
      && !name.Native?
      && (name.Allocator? || name.Skill? ==> name in shape.retained)
      && (!name.Other? && !name.Skill? ==> InRange(marks[name]))
  }

  /** A mark stands against the conversion: of a family already folded in, an unknown allocator, or out of range. */
  predicate Bars(name: Name, mark: int, shape: Shape) {
    || name.Typed?
    || ((name.Allocator? || name.Skill?) && name !in shape.retained)
    || (!name.Other? && (mark < 0 || mark > 0x7FFF_FFFF_FFFF_FFFF))
  }

  /** A mark stands against the way back: of a native table, an unknown allocator, or, if it is read, out of range. */
  predicate BarsReturn(name: Name, mark: int, shape: Shape) {
    || name.Native?
    || ((name.Allocator? || name.Skill?) && name !in shape.retained)
    || ((name.Typed? || name.Links? || name.Actions? || name.Allocator?) && (mark < 0 || mark > 0x7FFF_FFFF_FFFF_FFFF))
  }

  lemma BarredIff(marks: Marks, shape: Shape)
    ensures Capturable(marks, shape) <==> !exists name :: name in marks && Bars(name, marks[name], shape)
    ensures Invertible(marks, shape) <==> !exists name :: name in marks && BarsReturn(name, marks[name], shape)
  {
  }

  function MovedMark(marks: Marks, name: Name): Option<int> {
    match name
    case Native(_) => None
    case Typed(kind) => Sequence(marks, Native(kind))
    case _ => Sequence(marks, name)
  }

  function ReturnedMark(marks: Marks, name: Name): Option<int> {
    match name
    case Native(kind) => Sequence(marks, Typed(kind))
    case Typed(_) => None
    case _ => Sequence(marks, name)
  }

  /** The marks of the listed allocators become what they were; those of `Skill` ones only when asked. */
  method SetRetained(marks: Marks, from: Marks, names: seq<Name>, skills: bool) returns (now: Marks)
    ensures forall name ::
      Sequence(now, name) == Sequence(if name in names && (skills || !name.Skill?) then from else marks, name)
  {
    now := marks;
    for i := 0 to |names|
      invariant forall name ::
        Sequence(now, name) == Sequence(if name in names[..i] && (skills || !name.Skill?) then from else marks, name)
    {
      assert names[..i + 1] == names[..i] + [names[i]];
      if skills || !names[i].Skill? {
        now := SetSequence(now, names[i], Sequence(from, names[i]));
      }
    }
    assert names[..|names|] == names;
  }

  ghost predicate DroppedFrom(left: map<Kind, Rows>, marks: Marks, now: Marks, i: nat) {
    && (forall kind | kind in left :: Rank(kind) < i)
    && forall name ::
         Sequence(now, name) == if name.Native? && i <= Rank(name.kind) then None else Sequence(marks, name)
  }

  lemma RankIs(kind: Kind, i: nat)
    requires i < |ORDER| && ORDER[i] == kind
    ensures Rank(kind) == i
  {
  }

  lemma DroppedOne(left: map<Kind, Rows>, marks: Marks, now: Marks, kind: Kind)
    requires DroppedFrom(left, marks, now, Rank(kind) + 1)
    ensures DroppedFrom(left - {kind}, marks, now - {Native(kind)}, Rank(kind))
  {
    forall other | Rank(other) == Rank(kind) ensures other == kind { assert ORDER[Rank(other)] == ORDER[Rank(kind)]; }
  }

  lemma DroppedStart(tables: map<Kind, Rows>, marks: Marks)
    ensures DroppedFrom(tables, marks, marks, |ORDER|)
  {
  }

  lemma DroppedAll(left: map<Kind, Rows>, marks: Marks, now: Marks)
    requires DroppedFrom(left, marks, now, 0)
    ensures left == map[]
    ensures forall name :: Sequence(now, name) == if name.Native? then None else Sequence(marks, name)
  {
  }

  /** The native tables and their marks go, the last one first. */
  method DropNatives(tables: map<Kind, Rows>, marks: Marks) returns (left: map<Kind, Rows>, now: Marks)
    ensures left == map[]
    ensures forall name :: Sequence(now, name) == if name.Native? then None else Sequence(marks, name)
  {
    hide *;
    left, now := tables, marks;
    DroppedStart(tables, marks);
    for i := |ORDER| downto 0
      invariant DroppedFrom(left, marks, now, i)
    {
      RankIs(ORDER[i], i);
      DroppedOne(left, marks, now, ORDER[i]);
      left, now := left - {ORDER[i]}, now - {Native(ORDER[i])};
    }
    DroppedAll(left, marks, now);
  }

  /** The allocator marks of the folded kinds go. */
  method DropTyped(marks: Marks) returns (now: Marks)
    ensures forall name :: Sequence(now, name) == if name.Typed? then None else Sequence(marks, name)
  {
    now := marks;
    for i := 0 to |ORDER|
      invariant forall name ::
        Sequence(now, name) == if name.Typed? && Rank(name.kind) < i then None else Sequence(marks, name)
    {
      now := SetSequence(now, Typed(ORDER[i]), None);
    }
  }

  // ---------- copying complete rows ----------

  /** The rows in ID order with the ID in front, as a SELECT hands them over. */
  function Listing(rows: Rows, order: seq<int>): seq<seq<Cell>>
    requires forall i | 0 <= i < |order| :: order[i] in rows
  {
    seq(|order|, i requires 0 <= i < |order| => [Number(order[i])] + rows[order[i]])
  }

  predicate Numbered(listing: seq<seq<Cell>>) {
    forall i | 0 <= i < |listing| :: listing[i] != [] && listing[i][0].Number?
  }

  /** The table a listing leaves behind. */
  function Loaded(listing: seq<seq<Cell>>): Rows
    requires Numbered(listing)
  {
    if listing == [] then map[]
    else
      var row := listing[|listing| - 1];
      Loaded(listing[..|listing| - 1])[row[0].number := row[1..]]
  }

  lemma {:induction false} LoadedIs(rows: Rows, order: seq<int>)
    requires Once(order) && forall i | 0 <= i < |order| :: order[i] in rows
    ensures Numbered(Listing(rows, order))
    ensures Loaded(Listing(rows, order)) == map id | id in rows && id in order :: rows[id]
  {
    var listing := Listing(rows, order);
    if order != [] {
      var last := |order| - 1;
      LoadedIs(rows, order[..last]);
      assert listing[..last] == Listing(rows, order[..last]);
      assert listing[last][1..] == rows[order[last]];
      assert forall id :: id in order <==> id in order[..last] || id == order[last];
    }
  }

  lemma Listable(rows: Rows, order: seq<int>)
    ensures (forall i | 0 <= i < |order| :: order[i] in rows) || !(forall id | id in order :: id in rows)
  {
    if forall id | id in order :: id in rows {
      forall i | 0 <= i < |order| ensures order[i] in rows { assert order[i] in order; }
    }
  }

  lemma ListingWide(rows: Rows, order: seq<int>, width: nat)
    requires Wide(rows, width) && forall i | 0 <= i < |order| :: order[i] in rows
    ensures BulkCopy.Wide(Listing(rows, order), width + 1)
  {
  }

  lemma AllLoaded(rows: Rows, order: seq<int>)
    requires Once(order) && forall i | 0 <= i < |order| :: order[i] in rows
    ensures Numbered(Listing(rows, order))
    ensures Loaded(Listing(rows, order)) == rows || !(forall id | id in rows :: id in order)
  {
    LoadedIs(rows, order);
    if forall id | id in rows :: id in order {
      var all: Rows := map id | id in rows && id in order :: rows[id];
      assert forall id | id in rows :: id in all;
      SameRows(all, rows);
    }
    hide Loaded;
    hide Listing;
  }

  lemma SortedOnce(ids: set<int>)
    ensures Once(Sorted(ids)) && forall x :: x in Sorted(ids) <==> x in ids
  {
    SortedIs(ids);
    hide Sorted;
  }

  method CopyRows(rows: Rows, width: nat, variables: nat) returns (stored: Rows)
    requires Wide(rows, width)
    ensures stored == rows
  {
    hide *;
    var order := Sorted(rows.Keys);
    SortedOnce(rows.Keys);
    assert forall id :: id in order <==> id in rows;
    Listable(rows, order);
    ListingWide(rows, order, width);
    AllLoaded(rows, order);
    var listing := Listing(rows, order);
    var copied, _ := BulkCopy.InsertRows([], width + 1, listing, variables);
    assert [] + listing == listing;
    stored := Loaded(copied.value);
  }

  // ---------- what the common table shows ----------

  predicate IndexExact(c: Common) {
    && (forall k | k in c.index :: c.index[k] in c.rows && c.rows[c.index[k]].Family?
          && (c.rows[c.index[k]].kind, c.rows[c.index[k]].id) == k)
    && (forall p | p in c.rows && c.rows[p].Family? ::
          (c.rows[p].kind, c.rows[p].id) in c.index && c.index[(c.rows[p].kind, c.rows[p].id)] == p)
  }

  predicate IsKind(c: Common, kind: Kind, p: int) { p in c.rows && c.rows[p].Family? && c.rows[p].kind == kind }

  /** The physical ID behind a public one. */
  function Physical(c: Common, kind: Kind, cell: Cell): Option<int> {
    if cell.Number? && (kind, cell.number) in c.index then Some(c.index[(kind, cell.number)]) else None
  }

  /** The public ID behind a physical one. */
  function Public(c: Common, kind: Kind, cell: Cell): Option<int> {
    if cell.Number? && IsKind(c, kind, cell.number) then Some(c.rows[cell.number].id) else None
  }

  lemma PublicBack(c: Common, kind: Kind, cell: Cell)
    requires IndexExact(c) && Physical(c, kind, cell).Some?
    ensures Public(c, kind, Number(Physical(c, kind, cell).value)) == Some(cell.number)
  {
    assert (kind, cell.number) in c.index;
  }

  predicate DraftTyped(c: Common, stored: Stored) {
    stored.Family? && stored.kind == TaskSendAttempts ==> stored.draft.Some? && IsKind(c, TaskFollowUps, stored.draft.value)
  }

  predicate DraftsTyped(c: Common) { forall p | p in c.rows :: DraftTyped(c, c.rows[p]) }

  /** The columns of a folded row; the left join yields NULL for a follow-up that is not there. */
  function Columns(c: Common, stored: Stored): seq<Cell> {
    if stored.Family? && stored.kind == TaskSendAttempts then
      var id := if stored.draft.Some? then Public(c, TaskFollowUps, Number(stored.draft.value)) else None;
      [if id.Some? then Number(id.value) else Null] + stored.cells
    else stored.cells
  }

  function Projection(c: Common, kind: Kind): Rows
    requires IndexExact(c)
  {
    map k | k in c.index && k.0 == kind :: k.1 := Columns(c, c.rows[c.index[k]])
  }

  function RetainedRows(c: Common): Rows {
    map p | p in c.rows && c.rows[p].Retained? :: c.rows[p].cells
  }

  // ---------- renumbering the links ----------

  function Renumbered(c: Common, slot: nat, cells: seq<Cell>, forward: bool): Option<seq<Cell>>
    requires slot < |cells|
  {
    if cells[slot] == Null then Some(cells)
    else
      var parent := if forward then Physical(c, WorkUpdates, cells[slot]) else Public(c, WorkUpdates, cells[slot]);
      if parent.Some? then Some(cells[slot := Number(parent.value)]) else None
  }

  method MapLegacyRefs(c: Common, width: nat, slot: nat, links: Rows, forward: bool) returns (result: Result<Rows>)
    requires Wide(links, width) && slot < width
    ensures result.Success? <==> forall l | l in links :: Renumbered(c, slot, links[l], forward).Some?
    ensures result.Success? ==>
      && result.value.Keys == links.Keys && Wide(result.value, width)
      && forall l | l in links :: Renumbered(c, slot, links[l], forward) == Some(result.value[l])
  {
    hide *;
    WideIs(links, width);
    var order := Sorted(links.Keys);
    SortedIs(links.Keys);
    var mapped: Rows := map[];
    NoneMapped(c, slot, links, forward, order);
    for i := 0 to |order|
      invariant MappedUpTo(c, slot, links, forward, mapped, order, i)
    {
      var l := order[i];
      assert l in order && l in links;
      var cells := Renumbered(c, slot, links[l], forward);
      if cells.None? {
        return Failure;
      }
      MappedOne(c, slot, links, forward, mapped, order, i);
      mapped := mapped[l := cells.value];
    }
    MappedAll(c, width, slot, links, forward, mapped, order);
    result := Success(mapped);
  }

  ghost predicate MappedUpTo(c: Common, slot: nat, links: Rows, forward: bool, mapped: Rows, order: seq<int>, i: nat) {
    && i <= |order| && (forall l :: l in mapped <==> l in order[..i])
    && forall l | l in mapped ::
         l in links && slot < |links[l]| && Renumbered(c, slot, links[l], forward) == Some(mapped[l])
  }

  lemma WideIs(rows: Rows, width: nat)
    requires Wide(rows, width)
    ensures forall id | id in rows :: |rows[id]| == width
  {
  }

  lemma NoneMapped(c: Common, slot: nat, links: Rows, forward: bool, order: seq<int>)
    ensures MappedUpTo(c, slot, links, forward, map[], order, 0)
  {
  }

  lemma MappedOne(c: Common, slot: nat, links: Rows, forward: bool, mapped: Rows, order: seq<int>, i: nat)
    requires i < |order| && MappedUpTo(c, slot, links, forward, mapped, order, i)
    requires order[i] in links && slot < |links[order[i]]| && Renumbered(c, slot, links[order[i]], forward).Some?
    ensures MappedUpTo(c, slot, links, forward, mapped[order[i] := Renumbered(c, slot, links[order[i]], forward).value], order, i + 1)
  {
    assert order[..i + 1] == order[..i] + [order[i]];
    hide Renumbered;
  }

  lemma SameLength(c: Common, slot: nat, cells: seq<Cell>, forward: bool)
    requires slot < |cells| && Renumbered(c, slot, cells, forward).Some?
    ensures |Renumbered(c, slot, cells, forward).value| == |cells|
  {
  }

  lemma MappedAll(c: Common, width: nat, slot: nat, links: Rows, forward: bool, mapped: Rows, order: seq<int>)
    requires MappedUpTo(c, slot, links, forward, mapped, order, |order|) && Wide(links, width) && slot < width
    requires forall l :: l in order <==> l in links
    ensures mapped.Keys == links.Keys && Wide(mapped, width)
    ensures forall l | l in links :: Renumbered(c, slot, links[l], forward) == Some(mapped[l])
  {
    assert order[..|order|] == order;
    SameIds(mapped, links);
    forall l | l in mapped ensures |mapped[l]| == width { SameLength(c, slot, links[l], forward); }
    hide Renumbered;
  }

  lemma SameIds(x: Rows, y: Rows)
    ensures x.Keys == y.Keys || !(forall id :: id in x <==> id in y)
  {
    if forall id :: id in x <==> id in y { assert x.Keys == y.Keys; }
  }

  lemma SameRows(x: Rows, y: Rows)
    ensures x == y || !((forall id :: id in x <==> id in y) && forall id | id in x :: x[id] == y[id])
  {
    if (forall id :: id in x <==> id in y) && forall id | id in x :: x[id] == y[id] { assert x == y; }
  }

  lemma LinkBack(c: Common, slot: nat, cells: seq<Cell>)
    requires IndexExact(c) && slot < |cells| && Renumbered(c, slot, cells, true).Some?
    ensures Renumbered(c, slot, Renumbered(c, slot, cells, true).value, false) == Some(cells)
  {
    if cells[slot] != Null {
      PublicBack(c, WorkUpdates, cells[slot]);
      hide IndexExact;
      var there := Renumbered(c, slot, cells, true).value;
      assert there[slot := cells[slot]] == cells;
    }
  }

  // ---------- migration ----------

  predicate NativeLayout(db: Db, shape: Shape) {
    && db.common.index == map[] && (forall p | p in db.common.rows :: db.common.rows[p].Retained?)
    && Wide(RetainedRows(db.common), shape.actions) && Wide(db.links, shape.links)
    && (forall kind :: kind in db.tables)
    && |shape.families| == |ORDER| && forall kind :: Wide(db.tables[kind], shape.families[Rank(kind)])
  }

  predicate CommonLayout(db: Db, shape: Shape) {
    && IndexExact(db.common) && db.tables == map[]
    && Wide(RetainedRows(db.common), shape.actions) && Wide(db.links, shape.links)
    && |shape.families| == |ORDER| && forall kind :: Wide(Projection(db.common, kind), shape.families[Rank(kind)])
  }

  predicate NamesRow(rows: Rows, cell: Cell) { cell.Number? && cell.number in rows }

  /** Every send attempt names a follow-up, every link that names a work update finds it. */
  predicate ParentsFound(db: Db, shape: Shape)
    requires WellShaped(shape) && NativeLayout(db, shape)
  {
    && AttemptsNamed(db)
    && (forall l | l in db.links ::
          db.links[l][shape.slot] == Null || NamesRow(db.tables[WorkUpdates], db.links[l][shape.slot]))
  }

  function NextPhysical(c: Common): int {
    if c.rows.Keys == {} then 1 else Largest(c.rows.Keys) + 1
  }

  lemma NextIsNew(c: Common)
    ensures NextPhysical(c) !in c.rows
  {
    var ids := c.rows.Keys;
    if ids != {} { assert IsLargest(ids, Largest(ids)); }
    assert forall p :: p in c.rows <==> p in ids;
  }

  /** The row an INSERT writes: a send attempt refers to its follow-up instead of naming it. */
  function Folded(c: Common, kind: Kind, id: int, cells: seq<Cell>): (stored: Stored)
    requires kind == TaskSendAttempts ==> cells != []
    ensures stored.Family? && (stored.kind, stored.id) == (kind, id)
  {
    if kind == TaskSendAttempts then Family(kind, id, cells[1..], Physical(c, TaskFollowUps, cells[0]))
    else Family(kind, id, cells, None)
  }

  function Put(c: Common, p: int, stored: Stored): Common
    requires stored.Family?
  {
    Common(c.rows[p := stored], c.index[(stored.kind, stored.id) := p])
  }

  lemma FoldedBack(c: Common, kind: Kind, id: int, cells: seq<Cell>)
    requires IndexExact(c) && (kind == TaskSendAttempts ==> cells != [] && Physical(c, TaskFollowUps, cells[0]).Some?)
    ensures Columns(c, Folded(c, kind, id, cells)) == cells && DraftTyped(c, Folded(c, kind, id, cells))
  {
    if kind == TaskSendAttempts {
      PublicBack(c, TaskFollowUps, cells[0]);
      assert [cells[0]] + cells[1..] == cells;
    }
  }

  lemma IndexGrows(c: Common, p: int, stored: Stored)
    requires IndexExact(c) && p !in c.rows && stored.Family? && (stored.kind, stored.id) !in c.index
    ensures IndexExact(Put(c, p, stored))
  {
  }

  /** A new row leaves what the others show. */
  lemma ColumnsStay(c: Common, p: int, stored: Stored, other: Stored)
    requires p !in c.rows && stored.Family? && DraftTyped(c, other)
    ensures Columns(Put(c, p, stored), other) == Columns(c, other) && DraftTyped(Put(c, p, stored), other)
  {
  }

  lemma RetainedStay(c: Common, p: int, stored: Stored)
    requires p !in c.rows && stored.Family?
    ensures RetainedRows(Put(c, p, stored)) == RetainedRows(c)
  {
    SameRows(RetainedRows(Put(c, p, stored)), RetainedRows(c));
  }

  /** The rows folded so far, `done`, show the native rows, and the retained Actions are untouched. */
  ghost predicate Copied(source: Db, c: Common, done: set<(Kind, int)>) {
    && IndexExact(c) && c.index.Keys == done && DraftsTyped(c) && RetainedRows(c) == RetainedRows(source.common)
    && forall k | k in done :: k.0 in source.tables && k.1 in source.tables[k.0]
         && Columns(c, c.rows[c.index[k]]) == source.tables[k.0][k.1]
  }

  lemma DraftsStay(c: Common, p: int, stored: Stored)
    requires p !in c.rows && stored.Family? && DraftsTyped(c) && DraftTyped(c, stored)
    ensures DraftsTyped(Put(c, p, stored))
  {
    ColumnsStay(c, p, stored, stored);
    forall q | q in c.rows ensures DraftTyped(Put(c, p, stored), c.rows[q]) {
      ColumnsStay(c, p, stored, c.rows[q]);
    }
    hide DraftTyped;
    hide Columns;
  }

  lemma ShownStays(c: Common, p: int, stored: Stored, l: (Kind, int))
    requires IndexExact(c) && DraftsTyped(c) && p !in c.rows && stored.Family? && l in c.index
    requires l != (stored.kind, stored.id)
    ensures
      var c' := Put(c, p, stored);
      c'.index[l] == c.index[l] && Columns(c', c'.rows[c'.index[l]]) == Columns(c, c.rows[c.index[l]])
  {
    IndexedRow(c, l);
    var q := c.index[l];
    assert DraftTyped(c, c.rows[q]);
    ColumnsStay(c, p, stored, c.rows[q]);
    hide IndexExact;
    hide Columns;
    hide DraftTyped;
  }

  lemma CopiedOne(source: Db, c: Common, done: set<(Kind, int)>, p: int, k: (Kind, int), cells: seq<Cell>)
    requires Copied(source, c, done) && p !in c.rows && k !in done
    requires k.0 in source.tables && k.1 in source.tables[k.0] && cells == source.tables[k.0][k.1]
    requires k.0 == TaskSendAttempts ==> cells != [] && Physical(c, TaskFollowUps, cells[0]).Some?
    ensures Copied(source, Put(c, p, Folded(c, k.0, k.1, cells)), done + {k})
  {
    hide IndexExact;
    hide Columns;
    hide DraftTyped;
    hide DraftsTyped;
    hide RetainedRows;
    var stored := Folded(c, k.0, k.1, cells);
    FoldedBack(c, k.0, k.1, cells);
    DraftsStay(c, p, stored);
    ColumnsStay(c, p, stored, stored);
    IndexGrows(c, p, stored);
    RetainedStay(c, p, stored);
    forall l | l in done
      ensures
        var c' := Put(c, p, stored);
        c'.index[l] == c.index[l] && Columns(c', c'.rows[c'.index[l]]) == source.tables[l.0][l.1]
    {
      ShownStays(c, p, stored, l);
    }
  }

  lemma IndexedRow(c: Common, l: (Kind, int))
    requires IndexExact(c) && l in c.index
    ensures c.index[l] in c.rows && c.rows[c.index[l]].Family?
  {
  }

  /** The keys folded once the tables before `i` and the listed rows of table `i` are copied. */
  ghost predicate DoneUpTo(source: Db, done: set<(Kind, int)>, i: nat, listed: seq<int>) {
    forall k :: k in done <==>
      k.0 in source.tables && k.1 in source.tables[k.0] && (Rank(k.0) < i || (Rank(k.0) == i && k.1 in listed))
  }

  lemma ParentKnown(source: Db, c: Common, done: set<(Kind, int)>, i: nat, listed: seq<int>, parent: Kind, cell: Cell)
    requires Copied(source, c, done) && DoneUpTo(source, done, i, listed) && Rank(parent) < i && parent in source.tables
    ensures Physical(c, parent, cell).Some? <==> NamesRow(source.tables[parent], cell)
  {
    if cell.Number? {
      assert (parent, cell.number) in done <==> cell.number in source.tables[parent];
    }
  }

  /** One more row of the table being copied. */
  lemma RowCopied(source: Db, c: Common, done: set<(Kind, int)>, kind: Kind, order: seq<int>, i: nat, p: int, cells: seq<Cell>)
    requires Copied(source, c, done) && i < |order| && DoneUpTo(source, done, Rank(kind), order[..i])
    requires forall x, y | 0 <= x < y < |order| :: order[x] < order[y]
    requires kind in source.tables && order[i] in source.tables[kind] && cells == source.tables[kind][order[i]]
    requires TaskFollowUps in source.tables && p !in c.rows
    requires kind == TaskSendAttempts ==> cells != [] && Physical(c, TaskFollowUps, cells[0]).Some?
    ensures
      Copied(source, Put(c, p, Folded(c, kind, order[i], cells)), done + {(kind, order[i])})
      && DoneUpTo(source, done + {(kind, order[i])}, Rank(kind), order[..i + 1])
  {
    NotYet(source, done, kind, order, i);
    OneMore(source, done, kind, order[..i], order[i]);
    assert order[..i + 1] == order[..i] + [order[i]];
    hide DoneUpTo;
    CopiedOne(source, c, done, p, (kind, order[i]), cells);
    hide Copied;
  }

  predicate AttemptNamed(source: Db, id: int)
    requires TaskSendAttempts in source.tables && TaskFollowUps in source.tables
  {
    && id in source.tables[TaskSendAttempts] && source.tables[TaskSendAttempts][id] != []
    && NamesRow(source.tables[TaskFollowUps], source.tables[TaskSendAttempts][id][0])
  }

  predicate AttemptsNamed(source: Db)
    requires TaskSendAttempts in source.tables && TaskFollowUps in source.tables
  {
    forall id | id in source.tables[TaskSendAttempts] :: AttemptNamed(source, id)
  }

  lemma AttemptIs(source: Db, shape: Shape, c: Common, done: set<(Kind, int)>, listed: seq<int>, id: int)
    requires WellShaped(shape) && NativeLayout(source, shape) && id in source.tables[TaskSendAttempts]
    requires Copied(source, c, done) && DoneUpTo(source, done, Rank(TaskSendAttempts), listed)
    ensures source.tables[TaskSendAttempts][id] != []
    ensures AttemptNamed(source, id) <==> Physical(c, TaskFollowUps, source.tables[TaskSendAttempts][id][0]).Some?
    ensures AttemptsNamed(source) ==> AttemptNamed(source, id)
  {
    assert Wide(source.tables[TaskSendAttempts], shape.families[Rank(TaskSendAttempts)]);
    ParentKnown(source, c, done, Rank(TaskSendAttempts), listed, TaskFollowUps, source.tables[TaskSendAttempts][id][0]);
    hide Copied;
    hide DoneUpTo;
  }

  /** One table row by row, in ID order; refused when a send attempt names no follow-up. */
  method CopyFamily(source: Db, shape: Shape, start: Common, kind: Kind, ghost before: set<(Kind, int)>)
    returns (result: Result<Common>, ghost done: set<(Kind, int)>)
    requires WellShaped(shape) && NativeLayout(source, shape)
    requires Copied(source, start, before) && DoneUpTo(source, before, Rank(kind), [])
    ensures result.Success? <==> kind != TaskSendAttempts || AttemptsNamed(source)
    ensures result.Success? ==> Copied(source, result.value, done) && DoneUpTo(source, done, Rank(kind) + 1, [])
  {
    hide *;
    AllThere(source, shape);
    var c := start;
    var rows := source.tables[kind];
    var order := Sorted(rows.Keys);
    SortedIs(rows.Keys);
    done := before;
    for i := 0 to |order|
      invariant Copied(source, c, done) && DoneUpTo(source, done, Rank(kind), order[..i])
      invariant kind == TaskSendAttempts ==> forall id | id in order[..i] :: AttemptNamed(source, id)
    {
      var id := order[i];
      assert id in order && id in rows;
      var cells := rows[id];
      assert order[..i + 1] == order[..i] + [id];
      if kind == TaskSendAttempts {
        AttemptIs(source, shape, c, done, order[..i], id);
        if Physical(c, TaskFollowUps, cells[0]).None? {
          return Failure, done;
        }
      }
      NextIsNew(c);
      var p := NextPhysical(c);
      RowCopied(source, c, done, kind, order, i, p, cells);
      c := Put(c, p, Folded(c, kind, id, cells));
      done := done + {(kind, id)};
    }
    assert order[..|order|] == order;
    TableDone(source, done, kind, order);
    AllNamed(source, order, kind);
    result := Success(c);
  }

  lemma AllThere(source: Db, shape: Shape)
    requires NativeLayout(source, shape)
    ensures forall kind :: kind in source.tables
  {
  }

  lemma AllNamed(source: Db, order: seq<int>, kind: Kind)
    requires TaskSendAttempts in source.tables && TaskFollowUps in source.tables && kind in source.tables
    requires forall id :: id in order <==> id in source.tables[kind]
    requires kind == TaskSendAttempts ==> forall id | id in order :: AttemptNamed(source, id)
    ensures kind == TaskSendAttempts ==> AttemptsNamed(source)
  {
  }

  lemma NotYet(source: Db, done: set<(Kind, int)>, kind: Kind, order: seq<int>, i: nat)
    requires i < |order| && DoneUpTo(source, done, Rank(kind), order[..i])
    requires forall x, y | 0 <= x < y < |order| :: order[x] < order[y]
    ensures (kind, order[i]) !in done
  {
  }

  lemma OneMore(source: Db, done: set<(Kind, int)>, kind: Kind, listed: seq<int>, id: int)
    requires DoneUpTo(source, done, Rank(kind), listed) && kind in source.tables && id in source.tables[kind]
    ensures DoneUpTo(source, done + {(kind, id)}, Rank(kind), listed + [id])
  {
    forall other | Rank(other) == Rank(kind) ensures other == kind { assert ORDER[Rank(other)] == ORDER[Rank(kind)]; }
  }

  lemma TableDone(source: Db, done: set<(Kind, int)>, kind: Kind, order: seq<int>)
    requires DoneUpTo(source, done, Rank(kind), order) && kind in source.tables
    requires forall id :: id in order <==> id in source.tables[kind]
    ensures DoneUpTo(source, done, Rank(kind) + 1, [])
  {
    forall k: (Kind, int)
      ensures k in done <==> k.0 in source.tables && k.1 in source.tables[k.0] && Rank(k.0) < Rank(kind) + 1
    {
      assert ORDER[Rank(k.0)] == k.0 && ORDER[Rank(kind)] == kind;
      if Rank(k.0) == Rank(kind) {
        var id := k.1;
        assert k == (kind, id);
        assert id in order <==> id in source.tables[kind];
      }
    }
  }

  function Held(rows: Rows): Common {
    Common(map p | p in rows :: Retained(rows[p]), map[])
  }

  lemma HeldCopied(source: Db)
    ensures RetainedRows(Held(RetainedRows(source.common))) == RetainedRows(source.common)
    ensures Copied(source, Held(RetainedRows(source.common)), {}) && DoneUpTo(source, {}, 0, [])
  {
    var rows := RetainedRows(source.common);
    SameRows(RetainedRows(Held(rows)), rows);
  }

  lemma HeldSame(c: Common)
    ensures Held(RetainedRows(c)) == c || !(c.index == map[] && forall p | p in c.rows :: c.rows[p].Retained?)
  {
    if c.index == map[] && forall p | p in c.rows :: c.rows[p].Retained? {
      var held := Held(RetainedRows(c));
      assert held.rows.Keys == c.rows.Keys;
      assert held.rows == c.rows;
    }
  }

  /** The common table shows the source, its links are renumbered, and each family's mark has its new name. */
  ghost predicate Folds(source: Db, shape: Shape, db: Db) {
    && CommonLayout(db, shape) && DraftsTyped(db.common)
    && RetainedRows(db.common) == RetainedRows(source.common)
    && (forall kind :: kind in source.tables && Projection(db.common, kind) == source.tables[kind])
    && db.links.Keys == source.links.Keys
    && (forall l | l in source.links :: shape.slot < |source.links[l]|
          && Renumbered(db.common, shape.slot, source.links[l], true) == Some(db.links[l]))
    && forall name :: Sequence(db.marks, name) == MovedMark(source.marks, name)
  }

  /** All ten tables in order, each with its mark under the new name; refused when a send attempt names no follow-up. */
  method CopyFamilies(source: Db, shape: Shape, start: Common, before: Marks)
    returns (result: Result<Common>, marks: Marks, ghost done: set<(Kind, int)>)
    requires WellShaped(shape) && NativeLayout(source, shape)
    requires Copied(source, start, {}) && DoneUpTo(source, {}, 0, [])
    ensures TaskSendAttempts in source.tables && TaskFollowUps in source.tables
    ensures result.Success? <==> AttemptsNamed(source)
    ensures result.Success? ==> Copied(source, result.value, done) && DoneUpTo(source, done, |ORDER|, [])
    ensures result.Success? ==> forall name ::
      Sequence(marks, name) == if name.Typed? then Sequence(source.marks, Native(name.kind)) else Sequence(before, name)
  {
    hide *;
    AllThere(source, shape);
    var c := start;
    TypedStart(before, source.marks);
    marks, done := before, {};
    for i := 0 to |ORDER|
      invariant Copied(source, c, done) && DoneUpTo(source, done, i, [])
      invariant i > Rank(TaskSendAttempts) ==> AttemptsNamed(source)
      invariant TypedUpTo(marks, before, source.marks, i)
    {
      var kind := ORDER[i];
      RankIs(kind, i);
      var copied;
      copied, done := CopyFamily(source, shape, c, kind, done);
      if copied.Failure? {
        return Failure, marks, done;
      }
      c := copied.value;
      TypedOne(marks, before, source.marks, kind);
      marks := SetSequence(marks, Typed(kind), Sequence(source.marks, Native(kind)));
    }
    TypedAll(marks, before, source.marks);
    result := Success(c);
  }

  ghost predicate TypedUpTo(marks: Marks, before: Marks, from: Marks, i: nat) {
    forall name :: Sequence(marks, name) ==
      if name.Typed? && Rank(name.kind) < i then Sequence(from, Native(name.kind)) else Sequence(before, name)
  }

  lemma TypedStart(marks: Marks, from: Marks)
    ensures TypedUpTo(marks, marks, from, 0)
  {
  }

  lemma TypedOne(marks: Marks, before: Marks, from: Marks, kind: Kind)
    requires TypedUpTo(marks, before, from, Rank(kind))
    ensures TypedUpTo(SetSequence(marks, Typed(kind), Sequence(from, Native(kind))), before, from, Rank(kind) + 1)
  {
    forall other | Rank(other) == Rank(kind) ensures other == kind { assert ORDER[Rank(other)] == ORDER[Rank(kind)]; }
  }

  lemma TypedAll(marks: Marks, before: Marks, from: Marks)
    requires TypedUpTo(marks, before, from, |ORDER|)
    ensures forall name ::
      Sequence(marks, name) == if name.Typed? then Sequence(from, Native(name.kind)) else Sequence(before, name)
  {
  }

  lemma AllCopied(source: Db, shape: Shape, c: Common, done: set<(Kind, int)>)
    requires NativeLayout(source, shape) && Copied(source, c, done) && DoneUpTo(source, done, |ORDER|, [])
    ensures forall kind :: kind in source.tables && Projection(c, kind) == source.tables[kind]
  {
    forall kind ensures Projection(c, kind) == source.tables[kind] {
      KindCopied(source, c, done, kind);
    }
  }

  lemma KindCopied(source: Db, c: Common, done: set<(Kind, int)>, kind: Kind)
    requires kind in source.tables && Copied(source, c, done) && DoneUpTo(source, done, |ORDER|, [])
    ensures Projection(c, kind) == source.tables[kind]
  {
    var shown, rows := Projection(c, kind), source.tables[kind];
    forall id: int ensures id in shown <==> id in rows {
      assert (kind, id) in done <==> id in rows;
    }
    forall id | id in rows ensures shown[id] == rows[id] {
      assert (kind, id) in done;
    }
    SameRows(shown, rows);
  }

  lemma ParentsKnown(source: Db, shape: Shape, c: Common, done: set<(Kind, int)>)
    requires WellShaped(shape) && NativeLayout(source, shape)
    requires Copied(source, c, done) && DoneUpTo(source, done, |ORDER|, [])
    ensures (forall l | l in source.links :: Renumbered(c, shape.slot, source.links[l], true).Some?)
      <==> (forall l | l in source.links ::
              source.links[l][shape.slot] == Null || NamesRow(source.tables[WorkUpdates], source.links[l][shape.slot]))
  {
    AllThere(source, shape);
    forall l | l in source.links
      ensures Renumbered(c, shape.slot, source.links[l], true).Some? <==>
        source.links[l][shape.slot] == Null || NamesRow(source.tables[WorkUpdates], source.links[l][shape.slot])
    {
      ParentKnown(source, c, done, |ORDER|, [], WorkUpdates, source.links[l][shape.slot]);
    }
    hide NamesRow;
    hide Physical;
    hide Copied;
    hide DoneUpTo;
  }

  /** `actions` is filled with complete rows again, and the marks of the retained allocators are put back. */
  method RebuildActions(rows: Rows, shape: Shape, marks: Marks, from: Marks, skills: bool) returns (c: Common, now: Marks)
    requires WellShaped(shape) && Wide(rows, shape.actions)
    ensures c == Held(rows)
    ensures forall name ::
      Sequence(now, name) == Sequence(if name in shape.retained && (skills || !name.Skill?) then from else marks, name)
  {
    hide Held;
    hide Wide;
    var copied := CopyRows(rows, shape.actions, shape.variables);
    now := SetRetained(marks, from, shape.retained, skills);
    c := Held(copied);
  }

  lemma RaisedOnly(marks: Marks, name: Name, counted: set<Name>, rows: Rows)
    ensures forall other | other != name :: Sequence(Raised(marks, name, counted, rows), other) == Sequence(marks, other)
  {
  }

  /** The link table is filled again and gets its own mark back. */
  method RebuildLinks(links: Rows, shape: Shape, marks: Marks, water: Option<int>) returns (stored: Rows, now: Marks)
    requires Wide(links, shape.links)
    ensures stored == links
    ensures forall name :: Sequence(now, name) == if name.Links? then water else Sequence(marks, name)
  {
    stored := CopyRows(links, shape.links, shape.variables);
    RaisedOnly(marks, Links, shape.counted, stored);
    hide Raised;
    now := SetSequence(Raised(marks, Links, shape.counted, stored), Links, water);
  }

  lemma AttemptsFirst(source: Db, shape: Shape, c: Common, done: set<(Kind, int)>)
    requires WellShaped(shape) && NativeLayout(source, shape) && AttemptsNamed(source)
    requires Copied(source, c, done) && DoneUpTo(source, done, |ORDER|, [])
    ensures ParentsFound(source, shape) <==> forall l | l in source.links :: Renumbered(c, shape.slot, source.links[l], true).Some?
  {
    ParentsKnown(source, shape, c, done);
    hide NamesRow;
    hide Physical;
    hide Renumbered;
    hide Copied;
    hide DoneUpTo;
  }

  /** What the migration reaches, piece by piece. */
  lemma FoldsWhole(source: Db, shape: Shape, c: Common, done: set<(Kind, int)>, links: Rows, marks: Marks)
    requires WellShaped(shape) && NativeLayout(source, shape)
    requires Copied(source, c, done) && DoneUpTo(source, done, |ORDER|, [])
    requires links.Keys == source.links.Keys && Wide(links, shape.links)
    requires forall l | l in source.links :: Renumbered(c, shape.slot, source.links[l], true) == Some(links[l])
    requires forall name :: Sequence(marks, name) == MovedMark(source.marks, name)
    ensures Folds(source, shape, Db(c, map[], links, marks))
  {
    AllCopied(source, shape, c, done);
    hide DoneUpTo;
    hide Projection;
    hide RetainedRows;
    hide IndexExact;
    hide DraftsTyped;
    hide Renumbered;
    hide Sequence;
    hide MovedMark;
    assert forall l | l in source.links :: shape.slot < |source.links[l]|;
  }

  /** Refused exactly for an allocator it cannot carry, or when a send attempt or a link misses its parent. */
  method MigrateFollowupSync(source: Db, shape: Shape) returns (result: Result<Db>)
    requires WellShaped(shape) && NativeLayout(source, shape)
    ensures result.Success? <==> Capturable(source.marks, shape) && ParentsFound(source, shape)
    ensures (exists name :: name in source.marks && Bars(name, source.marks[name], shape)) <==> !Capturable(source.marks, shape)
    ensures result.Success? ==> Folds(source, shape, result.value)
  {
    BarredIff(source.marks, shape);
    if !Capturable(source.marks, shape) {
      return Failure;
    }
    hide *;
    LayoutIs(source, shape);
    var tables, dropped := DropNatives(source.tables, source.marks - {Links});
    var retained, kept := RebuildActions(RetainedRows(source.common), shape, dropped - {Actions}, source.marks, true);
    HeldCopied(source);
    var copied, moved;
    ghost var done;
    copied, moved, done := CopyFamilies(source, shape, retained, kept);
    ParentsNamed(source, shape);
    if copied.Failure? {
      return Failure;
    }
    var c := copied.value;
    AttemptsFirst(source, shape, c, done);
    var mapped := MapLegacyRefs(c, shape.links, shape.slot, source.links, true);
    if mapped.Failure? {
      return Failure;
    }
    var links, marks := RebuildLinks(mapped.value, shape, moved, Sequence(source.marks, Links));
    FoldedMarks(source.marks, shape, dropped, kept, moved, marks);
    FoldsWhole(source, shape, c, done, links, marks);
    result := Success(Db(c, tables, links, marks));
  }

  lemma LayoutIs(source: Db, shape: Shape)
    requires WellShaped(shape) && NativeLayout(source, shape)
    ensures Wide(RetainedRows(source.common), shape.actions) && Wide(source.links, shape.links) && shape.slot < shape.links
    ensures TaskSendAttempts in source.tables && TaskFollowUps in source.tables
  {
  }

  lemma ParentsNamed(source: Db, shape: Shape)
    requires WellShaped(shape) && NativeLayout(source, shape)
    ensures TaskSendAttempts in source.tables && TaskFollowUps in source.tables
    ensures ParentsFound(source, shape) ==> AttemptsNamed(source)
  {
  }

  lemma FoldedMarks(from: Marks, shape: Shape, dropped: Marks, kept: Marks, moved: Marks, marks: Marks)
    requires WellShaped(shape) && Capturable(from, shape)
    requires forall name :: Sequence(dropped, name) == if name.Native? then None else Sequence(from - {Links}, name)
    requires forall name :: Sequence(kept, name) == Sequence(if name in shape.retained then from else dropped - {Actions}, name)
    requires forall name ::
      Sequence(moved, name) == if name.Typed? then Sequence(from, Native(name.kind)) else Sequence(kept, name)
    requires forall name :: Sequence(marks, name) == if name.Links? then Sequence(from, Links) else Sequence(moved, name)
    ensures forall name :: Sequence(marks, name) == MovedMark(from, name)
  {
    forall name ensures Sequence(marks, name) == MovedMark(from, name) {
      assert Sequence(moved, name) == if name.Typed? then Sequence(from, Native(name.kind)) else Sequence(kept, name);
    }
  }

  // ---------- restoration ----------

  ghost predicate NamedUpTo(marks: Marks, before: Marks, from: Marks, i: nat) {
    forall name ::
      Sequence(marks, name) == if name.Native? && Rank(name.kind) < i then Sequence(from, Typed(name.kind)) else Sequence(before, name)
  }

  lemma NamedStart(marks: Marks, from: Marks)
    ensures NamedUpTo(marks, marks, from, 0)
  {
  }

  /** Whatever filling the table does to its mark, the mark is then written. */
  lemma NamedOne(marks: Marks, before: Marks, from: Marks, kind: Kind, counted: set<Name>, rows: Rows)
    requires NamedUpTo(marks, before, from, Rank(kind))
    ensures
      var raised := Raised(marks, Native(kind), counted, rows);
      NamedUpTo(SetSequence(raised, Native(kind), Sequence(from, Typed(kind))), before, from, Rank(kind) + 1)
  {
    RaisedOnly(marks, Native(kind), counted, rows);
    hide Raised;
    forall other | Rank(other) == Rank(kind) ensures other == kind { assert ORDER[Rank(other)] == ORDER[Rank(kind)]; }
  }

  lemma NamedAll(marks: Marks, before: Marks, from: Marks)
    requires NamedUpTo(marks, before, from, |ORDER|)
    ensures forall name ::
      Sequence(marks, name) == if name.Native? then Sequence(from, Typed(name.kind)) else Sequence(before, name)
  {
  }

  ghost predicate FilledUpTo(db: Db, tables: map<Kind, Rows>, i: nat) {
    IndexExact(db.common) && forall kind | Rank(kind) < i :: kind in tables && tables[kind] == Projection(db.common, kind)
  }

  lemma FilledOne(db: Db, tables: map<Kind, Rows>, kind: Kind)
    requires FilledUpTo(db, tables, Rank(kind))
    ensures FilledUpTo(db, tables[kind := Projection(db.common, kind)], Rank(kind) + 1)
  {
    hide Projection;
    hide IndexExact;
    forall other | Rank(other) == Rank(kind) ensures other == kind { assert ORDER[Rank(other)] == ORDER[Rank(kind)]; }
  }

  lemma FilledAll(db: Db, tables: map<Kind, Rows>)
    requires FilledUpTo(db, tables, |ORDER|)
    ensures IndexExact(db.common) && forall kind :: kind in tables && tables[kind] == Projection(db.common, kind)
  {
    hide Projection;
    hide IndexExact;
  }

  lemma FamilyWide(db: Db, shape: Shape, kind: Kind)
    requires WellShaped(shape) && CommonLayout(db, shape)
    ensures IndexExact(db.common) && Rank(kind) < |shape.families|
    ensures Wide(Projection(db.common, kind), shape.families[Rank(kind)])
  {
    hide IndexExact;
    hide Projection;
    hide Wide;
  }

  lemma FilledStart(db: Db, shape: Shape)
    requires CommonLayout(db, shape)
    ensures IndexExact(db.common) && FilledUpTo(db, map[], 0)
  {
  }

  /** The ten tables are declared and filled again, each with the mark its kind had here. */
  method CopyNatives(db: Db, shape: Shape, before: Marks) returns (tables: map<Kind, Rows>, marks: Marks)
    requires WellShaped(shape) && CommonLayout(db, shape)
    ensures IndexExact(db.common) && forall kind :: kind in tables && tables[kind] == Projection(db.common, kind)
    ensures forall name ::
      Sequence(marks, name) == if name.Native? then Sequence(db.marks, Typed(name.kind)) else Sequence(before, name)
  {
    hide *;
    tables, marks := map[], before;
    FilledStart(db, shape);
    NamedStart(before, db.marks);
    for i := 0 to |ORDER|
      invariant FilledUpTo(db, tables, i) && NamedUpTo(marks, before, db.marks, i)
    {
      var kind := ORDER[i];
      RankIs(kind, i);
      FamilyWide(db, shape, kind);
      FilledOne(db, tables, kind);
      var rows := CopyRows(Projection(db.common, kind), shape.families[i], shape.variables);
      tables := tables[kind := rows];
      NamedOne(marks, before, db.marks, kind, shape.counted, rows);
      marks := SetSequence(Raised(marks, Native(kind), shape.counted, rows), Native(kind), Sequence(db.marks, Typed(kind)));
    }
    FilledAll(db, tables);
    NamedAll(marks, before, db.marks);
  }

  predicate LinksTyped(db: Db, shape: Shape)
    requires WellShaped(shape) && CommonLayout(db, shape)
  {
    forall l | l in db.links :: Renumbered(db.common, shape.slot, db.links[l], false).Some?
  }

  /** The native tables hold what the common table showed, and the marks have their old names. */
  ghost predicate Unfolds(db: Db, shape: Shape, native: Db) {
    && NativeLayout(native, shape) && IndexExact(db.common)
    && RetainedRows(native.common) == RetainedRows(db.common)
    && (forall kind :: native.tables[kind] == Projection(db.common, kind))
    && native.links.Keys == db.links.Keys
    && (forall l | l in db.links :: shape.slot < |db.links[l]|
          && Renumbered(db.common, shape.slot, db.links[l], false) == Some(native.links[l]))
    && forall name :: Sequence(native.marks, name) == ReturnedMark(db.marks, name)
  }

  /**
   * Refused exactly for an allocator it cannot carry, or when a send attempt or a link refers to a row
   * that is not of its parent's kind.
   */
  method RestoreFollowupSync(db: Db, shape: Shape) returns (result: Result<Db>)
    requires WellShaped(shape) && CommonLayout(db, shape)
    ensures result.Success? <==> Invertible(db.marks, shape) && DraftsTyped(db.common) && LinksTyped(db, shape)
    ensures (exists name :: name in db.marks && BarsReturn(name, db.marks[name], shape)) <==> !Invertible(db.marks, shape)
    ensures result.Success? ==> Unfolds(db, shape, result.value)
  {
    BarredIff(db.marks, shape);
    if !Invertible(db.marks, shape) || !DraftsTyped(db.common) {
      return Failure;
    }
    hide *;
    CommonIs(db, shape);
    var mapped := MapLegacyRefs(db.common, shape.links, shape.slot, db.links, false);
    LinksTypedIs(db, shape);
    if mapped.Failure? {
      return Failure;
    }
    var c, kept := RebuildActions(RetainedRows(db.common), shape, db.marks - {Links, Actions}, db.marks, false);
    var tables, named := CopyNatives(db, shape, kept);
    var links, whole := RebuildLinks(mapped.value, shape, named, Sequence(db.marks, Links));
    var marks := DropTyped(whole);
    UnfoldedMarks(db.marks, shape, kept, named, whole, marks);
    UnfoldsWhole(db, shape, tables, links, marks);
    result := Success(Db(c, tables, links, marks));
  }

  lemma CommonIs(db: Db, shape: Shape)
    requires WellShaped(shape) && CommonLayout(db, shape)
    ensures Wide(RetainedRows(db.common), shape.actions) && Wide(db.links, shape.links) && shape.slot < shape.links
  {
  }

  lemma LinksTypedIs(db: Db, shape: Shape)
    requires WellShaped(shape) && CommonLayout(db, shape)
    ensures LinksTyped(db, shape) <==> forall l | l in db.links :: Renumbered(db.common, shape.slot, db.links[l], false).Some?
  {
  }

  lemma UnfoldedMarks(from: Marks, shape: Shape, kept: Marks, named: Marks, whole: Marks, marks: Marks)
    requires WellShaped(shape) && Invertible(from, shape)
    requires forall name ::
      Sequence(kept, name) == Sequence(if name in shape.retained && (false || !name.Skill?) then from else from - {Links, Actions}, name)
    requires forall name ::
      Sequence(named, name) == if name.Native? then Sequence(from, Typed(name.kind)) else Sequence(kept, name)
    requires forall name :: Sequence(whole, name) == if name.Links? then Sequence(from, Links) else Sequence(named, name)
    requires forall name :: Sequence(marks, name) == if name.Typed? then None else Sequence(whole, name)
    ensures forall name :: Sequence(marks, name) == ReturnedMark(from, name)
  {
    forall name ensures Sequence(marks, name) == ReturnedMark(from, name) {
      assert Sequence(whole, name) == if name.Links? then Sequence(from, Links) else Sequence(named, name);
    }
  }

  lemma LayoutBack(db: Db, shape: Shape, tables: map<Kind, Rows>, links: Rows, marks: Marks)
    requires WellShaped(shape) && CommonLayout(db, shape) && Wide(links, shape.links)
    requires forall kind :: kind in tables && tables[kind] == Projection(db.common, kind)
    ensures
      var native := Db(Held(RetainedRows(db.common)), tables, links, marks);
      NativeLayout(native, shape) && RetainedRows(native.common) == RetainedRows(db.common)
  {
    var rows := RetainedRows(db.common);
    SameRows(RetainedRows(Held(rows)), rows);
    assert forall kind :: Wide(tables[kind], shape.families[Rank(kind)]);
    hide IndexExact;
    hide Projection;
    hide Wide;
    hide RetainedRows;
  }

  lemma UnfoldsWhole(db: Db, shape: Shape, tables: map<Kind, Rows>, links: Rows, marks: Marks)
    requires WellShaped(shape) && CommonLayout(db, shape)
    requires forall kind :: kind in tables && tables[kind] == Projection(db.common, kind)
    requires links.Keys == db.links.Keys && Wide(links, shape.links)
    requires forall l | l in db.links :: Renumbered(db.common, shape.slot, db.links[l], false) == Some(links[l])
    requires forall name :: Sequence(marks, name) == ReturnedMark(db.marks, name)
    ensures Unfolds(db, shape, Db(Held(RetainedRows(db.common)), tables, links, marks))
  {
    LayoutBack(db, shape, tables, links, marks);
    hide NativeLayout;
    hide IndexExact;
    hide Projection;
    hide Renumbered;
    hide Sequence;
    hide ReturnedMark;
    hide RetainedRows;
    hide Held;
    assert forall l | l in db.links :: shape.slot < |db.links[l]|;
  }

  // ---------- there and back ----------

  lemma SameMarks(x: Marks, y: Marks)
    ensures x == y || !(forall name :: Sequence(x, name) == Sequence(y, name))
  {
    if forall name :: Sequence(x, name) == Sequence(y, name) {
      forall name ensures name in x <==> name in y { assert Sequence(x, name) == Sequence(y, name); }
      forall name | name in x ensures x[name] == y[name] { assert Sequence(x, name) == Sequence(y, name); }
      assert x == y;
    }
  }

  /** There and back: ten families, links, retained Actions and all marks, with absent marks absent. */
  method MigrateRestore(source: Db, shape: Shape) returns (result: Result<Db>)
    requires WellShaped(shape) && NativeLayout(source, shape)
    ensures result == if Capturable(source.marks, shape) && ParentsFound(source, shape) then Success(source) else Failure
  {
    hide *;
    var folded := MigrateFollowupSync(source, shape);
    if folded.Failure? {
      return Failure;
    }
    FoldsInvertible(source, shape, folded.value);
    result := RestoreFollowupSync(folded.value, shape);
    ThereAndBack(source, shape, folded.value, result.value);
  }

  lemma FoldsInvertible(source: Db, shape: Shape, db: Db)
    requires WellShaped(shape) && NativeLayout(source, shape) && Folds(source, shape, db) && Capturable(source.marks, shape)
    ensures CommonLayout(db, shape) && Invertible(db.marks, shape) && DraftsTyped(db.common) && LinksTyped(db, shape)
  {
    MarksInvertible(source.marks, shape, db.marks);
    forall l | l in db.links ensures Renumbered(db.common, shape.slot, db.links[l], false).Some? {
      LinkBack(db.common, shape.slot, source.links[l]);
    }
    hide Renumbered;
    hide IndexExact;
    hide Projection;
    hide Invertible;
    hide DraftsTyped;
    hide Sequence;
  }

  lemma MarksInvertible(from: Marks, shape: Shape, marks: Marks)
    requires WellShaped(shape) && Capturable(from, shape) && forall name :: Sequence(marks, name) == MovedMark(from, name)
    ensures Invertible(marks, shape)
  {
    forall name | name in marks
      ensures !name.Native? && (name.Allocator? || name.Skill? ==> name in shape.retained)
      ensures !name.Other? && !name.Skill? ==> InRange(marks[name])
    {
      assert Sequence(marks, name) == MovedMark(from, name);
      if name.Typed? { assert Native(name.kind) in from; } else { assert name in from; }
    }
  }

  lemma MarksBack(source: Marks, shape: Shape, folded: Marks, marks: Marks)
    requires Capturable(source, shape)
    requires forall name :: Sequence(folded, name) == MovedMark(source, name)
    requires forall name :: Sequence(marks, name) == ReturnedMark(folded, name)
    ensures marks == source
  {
    forall name ensures Sequence(marks, name) == Sequence(source, name) {
      assert Sequence(marks, name) == ReturnedMark(folded, name);
      assert Sequence(folded, name) == MovedMark(source, name);
      if name.Typed? { assert name !in source; }
    }
    SameMarks(marks, source);
  }

  lemma LinksBack(source: Db, shape: Shape, db: Db, native: Db)
    requires Folds(source, shape, db) && Unfolds(db, shape, native)
    ensures native.links == source.links
  {
    forall l | l in source.links ensures native.links[l] == source.links[l] {
      LinkBack(db.common, shape.slot, source.links[l]);
    }
    SameRows(native.links, source.links);
    hide Renumbered;
    hide IndexExact;
    hide Projection;
    hide Sequence;
  }

  lemma TablesBack(source: Db, shape: Shape, db: Db, native: Db)
    requires NativeLayout(source, shape) && Folds(source, shape, db) && Unfolds(db, shape, native)
    ensures native.tables == source.tables && native.common == source.common
  {
    assert forall kind :: kind in native.tables && kind in source.tables && native.tables[kind] == source.tables[kind];
    HeldSame(source.common);
    HeldSame(native.common);
    hide Projection;
    hide IndexExact;
    hide Renumbered;
    hide RetainedRows;
    hide Held;
    hide Sequence;
  }

  lemma ThereAndBack(source: Db, shape: Shape, db: Db, native: Db)
    requires NativeLayout(source, shape) && Capturable(source.marks, shape)
    requires Folds(source, shape, db) && Unfolds(db, shape, native)
    ensures native == source
  {
    TablesBack(source, shape, db, native);
    LinksBack(source, shape, db, native);
    MarksBack(source.marks, shape, db.marks, native.marks);
    hide NativeLayout;
    hide IndexExact;
    hide Renumbered;
    hide Projection;
  }
}
