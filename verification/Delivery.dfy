/** Sent replies and their observers in the common table: composite keys, and the conversion both ways. */
module Delivery {
  import opened Wrappers
  import opened Ids

  /** The external key of a reply, unique unless empty, and its other columns. */
  datatype SentRow = SentRow(key: string, payload: string)

  datatype ObserverRow = ObserverRow(task: int, payload: string)

  datatype Sent = Sent(id: int, row: SentRow)

  /** `sent` is a physical reference; `key` is the stored composite identity. */
  datatype Observer = Observer(sent: int, run: int, row: ObserverRow, key: (int, int))

  /** The rows of other tables an observer refers to. */
  datatype World = World(runs: set<int>, tasks: set<int>)

  /** Rows by physical ID, the unique index on public sent IDs, and the allocator mark. */
  datatype Table = Table(
    sents: map<int, Sent>, observers: map<int, Observer>, index: map<int, int>, mark: Option<int>, world: World)

  /** Fields an update names; the others keep their values. */
  datatype SentChanges = SentChanges(id: Option<int>, key: Option<string>, payload: Option<string>)

  datatype ObserverChanges = ObserverChanges(
    sent: Option<int>, run: Option<int>, task: Option<int>, payload: Option<string>)

  /** A reply without a given ID gets one above the mark and all IDs; `ignore` is the `or ignore` form. */
  datatype Call =
    | InsertSent(given: Option<int>, sentRow: SentRow, ignore: bool)
    | UpdateSent(id: int, sentChanges: SentChanges)
    | DeleteSent(id: int)
    | InsertObserver(sent: int, run: int, row: ObserverRow, ignore: bool)
    | UpdateObserver(sent: int, run: int, changes: ObserverChanges)
    | DeleteObserver(sent: int, run: int)

  /** The row as it is now, no row found, a row passed over, or an exception. */
  datatype Reply = SentAt(id: int) | ObserverAt(pair: (int, int)) | NoRow | Ignored | Raised

  // ---------- what is kept ----------

  ghost predicate Indexed(t: Table) {
    && (forall p | p in t.sents :: t.sents[p].id in t.index && t.index[t.sents[p].id] == p)
    && (forall id | id in t.index :: t.index[id] in t.sents && t.sents[t.index[id]].id == id)
  }

  predicate SameKey(x: SentRow, y: SentRow) { x.key != "" && x.key == y.key }

  /** The partial unique index on external keys. */
  ghost predicate KeysUnique(t: Table) {
    forall p, q | p in t.sents && q in t.sents && p != q :: !SameKey(t.sents[p].row, t.sents[q].row)
  }

  /** The composite key names the reply the row refers to, by its public ID, and the row's own run; run and task are there. */
  predicate KeyRight(t: Table, o: Observer) {
    && o.sent in t.sents && o.key == (t.sents[o.sent].id, o.run)
    && o.run in t.world.runs && o.row.task in t.world.tasks
  }

  ghost predicate Valid(t: Table) {
    && Indexed(t) && KeysUnique(t)
    && (forall q | q in t.observers :: KeyRight(t, t.observers[q]))
    && (forall q, r | q in t.observers && r in t.observers && q != r ::
          (t.observers[q].sent, t.observers[q].run) != (t.observers[r].sent, t.observers[r].run))
  }

  // ---------- writes ----------

  function Next(ids: set<int>): int { if ids == {} then 1 else Largest(ids) + 1 }

  predicate Observed(t: Table, p: int) { exists q :: q in t.observers && t.observers[q].sent == p }

  predicate IsObserver(t: Table, q: int, sent: int, run: int) {
    q in t.observers && sent in t.index && t.observers[q].sent == t.index[sent] && t.observers[q].run == run
  }

  predicate KeyFree(t: Table, self: int, row: SentRow) {
    forall p | p in t.sents && p != self :: !SameKey(t.sents[p].row, row)
  }

  predicate PairFree(t: Table, self: int, p: int, run: int) {
    forall q | q in t.observers && q != self :: (t.observers[q].sent, t.observers[q].run) != (p, run)
  }

  /** The guards of a row write: reference and run there, index, key check of the trigger and of the table. */
  predicate ObserverAllowed(t: Table, self: int, o: Observer) {
    && o.run in t.world.runs && o.row.task in t.world.tasks && o.sent in t.sents && PairFree(t, self, o.sent, o.run)
    && o.key.0 == t.sents[o.sent].id && o.key.1 == o.run
  }

  function PutSent(t: Table, p: int, s: Sent): Table {
    t.(sents := t.sents[p := s],
       index := (if p in t.sents then t.index - {t.sents[p].id} else t.index)[s.id := p])
  }

  function Max(a: int, b: int): int { if a < b then b else a }

  function Marked(mark: Option<int>, id: int): Option<int> { Some(Max(if mark.Some? then mark.value else 0, id)) }

  function PutObserver(t: Table, q: int, o: Observer): (Table, bool) {
    if ObserverAllowed(t, q, o) then (t.(observers := t.observers[q := o]), true) else (t, false)
  }

  function Or<T>(given: Option<T>, now: T): T { if given.Some? then given.value else now }

  function Patched(row: SentRow, changes: SentChanges): SentRow { SentRow(Or(changes.key, row.key), Or(changes.payload, row.payload)) }

  function PatchedObserver(row: ObserverRow, changes: ObserverChanges): ObserverRow {
    ObserverRow(Or(changes.task, row.task), Or(changes.payload, row.payload))
  }

  function Moved(sent: int, run: int, changes: ObserverChanges): (int, int) { (Or(changes.sent, sent), Or(changes.run, run)) }

  /** The largest ID handed out or present; zero at least. */
  function HighWater(mark: Option<int>, ids: set<int>): int {
    Max(if mark.Some? then mark.value else 0, Max(0, if ids == {} then 0 else Largest(ids)))
  }

  function ChosenId(mark: Option<int>, ids: set<int>, given: Option<int>): int { Or(given, HighWater(mark, ids) + 1) }

  predicate OptionStorable(id: Option<int>) { id.Some? ==> Storable(id.value) }

  /** Every integer fits a binding, and an update names a field. */
  predicate Wellformed(call: Call) {
    match call
    case InsertSent(given, _, _) => OptionStorable(given)
    case UpdateSent(id, c) => Storable(id) && OptionStorable(c.id) && (c.id.Some? || c.key.Some? || c.payload.Some?)
    case DeleteSent(id) => Storable(id)
    case InsertObserver(sent, run, row, _) => Storable(sent) && Storable(run) && Storable(row.task)
    case UpdateObserver(sent, run, c) =>
      && Storable(sent) && Storable(run) && OptionStorable(c.sent) && OptionStorable(c.run) && OptionStorable(c.task)
      && (c.sent.Some? || c.run.Some? || c.task.Some? || c.payload.Some?)
    case DeleteObserver(sent, run) => Storable(sent) && Storable(run)
  }

  /** The references an update names are looked up by public ID before the statement is sent. */
  predicate LookupsFound(sents: set<int>, world: World, changes: ObserverChanges) {
    && (changes.sent.Some? ==> changes.sent.value in sents)
    && (changes.run.Some? ==> changes.run.value in world.runs)
    && (changes.task.Some? ==> changes.task.value in world.tasks)
  }

  function InsertSentStep(t: Table, given: Option<int>, row: SentRow, ignore: bool): (Table, Reply) {
    var id, p := ChosenId(t.mark, t.index.Keys, given), Next(t.sents.Keys);
    if !Storable(id) then (t, Raised)
    else if id in t.index || !KeyFree(t, p, row) then
      if ignore then (t.(mark := Marked(t.mark, id)), Ignored) else (t, Raised)
    else (PutSent(t, p, Sent(id, row)).(mark := Marked(t.mark, id)), SentAt(id))
  }

  function UpdateSentStep(t: Table, id: int, c: SentChanges): (Table, Reply) {
    if id !in t.index || t.index[id] !in t.sents then (t, NoRow)
    else
      var p, now := t.index[id], Or(c.id, id);
      var row := Patched(t.sents[p].row, c);
      if (now != id && (now in t.index || Observed(t, p))) || !KeyFree(t, p, row) then (t, Raised)
      else (PutSent(t, p, Sent(now, row)), SentAt(now))
  }

  function DeleteSentStep(t: Table, id: int): (Table, Reply) {
    if id !in t.index then (t, NoRow)
    else if Observed(t, t.index[id]) then (t, Raised)
    else (t.(sents := t.sents - {t.index[id]}, index := t.index - {id}), SentAt(id))
  }

  function InsertObserverStep(t: Table, sent: int, run: int, row: ObserverRow, ignore: bool): (Table, Reply) {
    if sent !in t.index || run !in t.world.runs || row.task !in t.world.tasks then (t, Raised)
    else
      var (put, ok) := PutObserver(t, Next(t.observers.Keys), Observer(t.index[sent], run, row, (sent, run)));
      (put, if ok then ObserverAt((sent, run)) else if ignore then Ignored else Raised)
  }

  function ChangedObserver(t: Table, was: Observer, sent: int, run: int, c: ObserverChanges): Observer
    requires c.sent.Some? ==> c.sent.value in t.index
  {
    Observer(
      if c.sent.Some? then t.index[c.sent.value] else was.sent, Or(c.run, was.run), PatchedObserver(was.row, c),
      if c.sent.Some? || c.run.Some? then Moved(sent, run, c) else was.key)
  }

  function WriteObserver(t: Table, q: int, o: Observer): (Table, Reply) {
    var (put, ok) := PutObserver(t, q, o);
    (put, if ok then ObserverAt(o.key) else Raised)
  }

  ghost function UpdateObserverStep(t: Table, sent: int, run: int, c: ObserverChanges): (Table, Reply) {
    if !LookupsFound(t.index.Keys, t.world, c) then (t, Raised)
    else if q :| IsObserver(t, q, sent, run) then WriteObserver(t, q, ChangedObserver(t, t.observers[q], sent, run, c))
    else (t, NoRow)
  }

  ghost function DeleteObserverStep(t: Table, sent: int, run: int): (Table, Reply) {
    if q :| IsObserver(t, q, sent, run) then (t.(observers := t.observers - {q}), ObserverAt((sent, run))) else (t, NoRow)
  }

  /** One write of the store on the converted families. */
  ghost function Step(t: Table, call: Call): (Table, Reply) {
    if !Wellformed(call) then (t, Raised)
    else
      match call
      case InsertSent(given, row, ignore) => InsertSentStep(t, given, row, ignore)
      case UpdateSent(id, c) => UpdateSentStep(t, id, c)
      case DeleteSent(id) => DeleteSentStep(t, id)
      case InsertObserver(sent, run, row, ignore) => InsertObserverStep(t, sent, run, row, ignore)
      case UpdateObserver(sent, run, c) => UpdateObserverStep(t, sent, run, c)
      case DeleteObserver(sent, run) => DeleteObserverStep(t, sent, run)
  }

  lemma PutSentIndexed(t: Table, p: int, s: Sent)
    requires Indexed(t) && (s.id in t.index ==> t.index[s.id] == p)
    ensures Indexed(PutSent(t, p, s))
  {
  }

  lemma NextNew(ids: set<int>)
    ensures Next(ids) !in ids
  {
    if ids != {} { assert IsLargest(ids, Largest(ids)); }
  }

  /** Observers keep their keys when a reply is written that keeps its ID or has none of them. */
  lemma KeysStay(t: Table, p: int, s: Sent)
    requires Valid(t) && Indexed(PutSent(t, p, s)) && (p in t.sents && t.sents[p].id != s.id ==> !Observed(t, p))
    requires KeyFree(t, p, s.row)
    ensures Valid(PutSent(t, p, s))
  {
    assert KeysUnique(PutSent(t, p, s));
    hide KeysUnique;
    var t' := PutSent(t, p, s);
    forall q | q in t.observers ensures KeyRight(t', t.observers[q]) {
      assert KeyRight(t, t.observers[q]);
    }
    hide Indexed;
    hide KeyRight;
  }

  lemma PutObserverValid(t: Table, q: int, o: Observer)
    requires Valid(t)
    ensures Valid(PutObserver(t, q, o).0)
  {
  }

  lemma MarkKeepsValid(t: Table, mark: Option<int>)
    requires Valid(t)
    ensures Valid(t.(mark := mark))
  {
    var t' := t.(mark := mark);
    forall q | q in t.observers ensures KeyRight(t', t.observers[q]) { assert KeyRight(t, t.observers[q]); }
    assert Indexed(t') && KeysUnique(t');
    hide Indexed;
    hide KeyRight;
    hide KeysUnique;
  }

  lemma InsertSentValid(t: Table, given: Option<int>, row: SentRow, ignore: bool)
    requires Valid(t)
    ensures Valid(InsertSentStep(t, given, row, ignore).0)
  {
    var id, p := ChosenId(t.mark, t.index.Keys, given), Next(t.sents.Keys);
    NextNew(t.sents.Keys);
    MarkKeepsValid(t, Marked(t.mark, id));
    if id !in t.index && KeyFree(t, p, row) {
      PutSentIndexed(t, p, Sent(id, row));
      KeysStay(t, p, Sent(id, row));
      MarkKeepsValid(PutSent(t, p, Sent(id, row)), Marked(t.mark, id));
    }
    hide Valid;
    hide PutSent;
    hide KeyFree;
    hide ChosenId;
  }

  lemma UpdateSentValid(t: Table, id: int, c: SentChanges)
    requires Valid(t)
    ensures Valid(UpdateSentStep(t, id, c).0)
  {
    if id in t.index && t.index[id] in t.sents {
      var p, now := t.index[id], Or(c.id, id);
      var row := Patched(t.sents[p].row, c);
      if (now == id || (now !in t.index && !Observed(t, p))) && KeyFree(t, p, row) {
        assert t.sents[p].id == id;
        PutSentIndexed(t, p, Sent(now, row));
        KeysStay(t, p, Sent(now, row));
      }
    }
    hide Valid;
    hide PutSent;
    hide KeyFree;
    hide Observed;
  }

  lemma DeleteSentValid(t: Table, id: int)
    requires Valid(t)
    ensures Valid(DeleteSentStep(t, id).0)
  {
  }

  lemma ObserverStepValid(t: Table, call: Call)
    requires Valid(t) && (call.InsertObserver? || call.UpdateObserver?)
    ensures Valid(Step(t, call).0)
  {
    forall q, o: Observer ensures Valid(PutObserver(t, q, o).0) { PutObserverValid(t, q, o); }
    hide PutObserver;
    hide Valid;
    hide ChangedObserver;
    hide LookupsFound;
    hide Wellformed;
  }

  lemma DeleteObserverValid(t: Table, sent: int, run: int)
    requires Valid(t)
    ensures Valid(DeleteObserverStep(t, sent, run).0)
  {
  }

  lemma StepIs(t: Table, call: Call)
    ensures !Wellformed(call) ==> Step(t, call) == (t, Raised)
    ensures Wellformed(call) ==>
      match call
      case InsertSent(given, row, ignore) => Step(t, call) == InsertSentStep(t, given, row, ignore)
      case UpdateSent(id, c) => Step(t, call) == UpdateSentStep(t, id, c)
      case DeleteSent(id) => Step(t, call) == DeleteSentStep(t, id)
      case InsertObserver(sent, run, row, ignore) => Step(t, call) == InsertObserverStep(t, sent, run, row, ignore)
      case UpdateObserver(sent, run, c) => Step(t, call) == UpdateObserverStep(t, sent, run, c)
      case DeleteObserver(sent, run) => Step(t, call) == DeleteObserverStep(t, sent, run)
  {
    hide Wellformed;
  }

  lemma StepValid(t: Table, call: Call)
    requires Valid(t)
    ensures Valid(Step(t, call).0)
  {
    hide *;
    StepIs(t, call);
    match call
    case InsertSent(given, row, ignore) => InsertSentValid(t, given, row, ignore);
    case UpdateSent(id, c) => UpdateSentValid(t, id, c);
    case DeleteSent(id) => DeleteSentValid(t, id);
    case InsertObserver(_, _, _, _) => ObserverStepValid(t, call);
    case UpdateObserver(_, _, _) => ObserverStepValid(t, call);
    case DeleteObserver(sent, run) => DeleteObserverValid(t, sent, run);
  }

  ghost function Run(t: Table, calls: seq<Call>): Table
    decreases |calls|
  {
    if calls == [] then t else Run(Step(t, calls[0]).0, calls[1..])
  }

  /** An observer refers to a reply, a run and a task that are there, under the key made of the first two. */
  predicate ObserverFound(t: Table, q: int)
    requires q in t.observers
  {
    var o := t.observers[q];
    o.sent in t.sents && o.key.0 == t.sents[o.sent].id && o.key.1 == o.run && o.run in t.world.runs && o.row.task in t.world.tasks
  }

  /** Public IDs, external keys that are not empty, and pairs of reply and run are there once. */
  ghost predicate RowsOnce(t: Table) {
    && (forall p, q | p in t.sents && q in t.sents && p != q ::
          t.sents[p].id != t.sents[q].id && (t.sents[p].row.key != "" ==> t.sents[p].row.key != t.sents[q].row.key))
    && (forall q, r | q in t.observers && r in t.observers && q != r :: t.observers[q].key != t.observers[r].key)
  }

  lemma ValidRows(t: Table)
    requires Valid(t)
    ensures RowsOnce(t) && forall q | q in t.observers :: ObserverFound(t, q)
  {
    forall q | q in t.observers ensures KeyRight(t, t.observers[q]) && ObserverFound(t, q) {
    }
    forall q, r | q in t.observers && r in t.observers && q != r ensures t.observers[q].key != t.observers[r].key {
      assert KeyRight(t, t.observers[q]) && KeyRight(t, t.observers[r]);
      var a, b := t.observers[q].sent, t.observers[r].sent;
      assert t.index[t.sents[a].id] == a && t.index[t.sents[b].id] == b;
    }
  }

  /** In every state a run reaches, each observer's key is (public ID of its reply, its run), and keys are unique. */
  lemma {:induction false} RunValid(t: Table, calls: seq<Call>)
    requires Valid(t)
    ensures
      var after := Run(t, calls);
      Valid(after) && RowsOnce(after) && forall q | q in after.observers :: ObserverFound(after, q)
    decreases |calls|
  {
    ValidRows(t);
    hide Valid;
    hide RowsOnce;
    hide ObserverFound;
    hide Step;
    if calls != [] {
      StepValid(t, calls[0]);
      RunValid(Step(t, calls[0]).0, calls[1..]);
    }
  }

  // ---------- conversion ----------

  /** The two native tables: replies by ID, observers by (reply, run), and the allocator mark of the replies. */
  datatype Native = Native(sents: map<int, SentRow>, observers: map<(int, int), ObserverRow>, mark: Option<int>)

  ghost predicate SentsShown(t: Table, sents: map<int, SentRow>) {
    && (forall id :: id in t.index <==> id in sents)
    && (forall id | id in t.index :: t.index[id] in t.sents && t.sents[t.index[id]].row == sents[id])
  }

  /** What the join of an observer with its reply shows. */
  function PairOf(t: Table, q: int): (int, int)
    requires q in t.observers && t.observers[q].sent in t.sents
  {
    (t.sents[t.observers[q].sent].id, t.observers[q].run)
  }

  predicate ShowsPair(t: Table, q: int, pair: (int, int)) {
    q in t.observers && t.observers[q].sent in t.sents && pair == PairOf(t, q)
  }

  predicate AllListed(t: Table, observers: map<(int, int), ObserverRow>) {
    forall q | q in t.observers ::
      t.observers[q].sent in t.sents && PairOf(t, q) in observers && observers[PairOf(t, q)] == t.observers[q].row
  }

  predicate AllBacked(t: Table, observers: map<(int, int), ObserverRow>) {
    forall pair | pair in observers :: exists q :: q in t.observers && ShowsPair(t, q, pair)
  }

  predicate ObserversShown(t: Table, observers: map<(int, int), ObserverRow>) {
    AllListed(t, observers) && AllBacked(t, observers)
  }

  ghost predicate Shows(t: Table, n: Native) {
    SentsShown(t, n.sents) && ObserversShown(t, n.observers) && n.mark == t.mark
  }

  lemma SameMap(x: map<int, SentRow>, y: map<int, SentRow>)
    ensures x == y || !((forall id :: id in x <==> id in y) && forall id | id in x :: x[id] == y[id])
  {
    if (forall id :: id in x <==> id in y) && forall id | id in x :: x[id] == y[id] { assert x == y; }
  }

  lemma SentsOnce(t: Table, x: map<int, SentRow>, y: map<int, SentRow>)
    requires SentsShown(t, x) && SentsShown(t, y)
    ensures x == y
  {
    assert forall id | id in t.index :: x[id] == y[id];
    SameMap(x, y);
  }

  lemma ObserverBehind(t: Table, x: map<(int, int), ObserverRow>, pair: (int, int)) returns (q: int)
    requires ObserversShown(t, x) && pair in x
    ensures ShowsPair(t, q, pair)
  {
    hide AllListed;
    q :| q in t.observers && ShowsPair(t, q, pair);
  }

  lemma ObserverListed(t: Table, x: map<(int, int), ObserverRow>, q: int, pair: (int, int))
    requires ObserversShown(t, x) && ShowsPair(t, q, pair)
    ensures pair in x && x[pair] == t.observers[q].row
  {
    hide AllBacked;
  }

  lemma ObserversWithin(t: Table, x: map<(int, int), ObserverRow>, y: map<(int, int), ObserverRow>)
    requires ObserversShown(t, x) && ObserversShown(t, y)
    ensures forall pair | pair in x :: pair in y && y[pair] == x[pair]
  {
    hide ObserversShown;
    forall pair | pair in x ensures pair in y && y[pair] == x[pair] {
      var q := ObserverBehind(t, x, pair);
      ObserverListed(t, x, q, pair);
      ObserverListed(t, y, q, pair);
    }
  }

  lemma ObserversOnce(t: Table, x: map<(int, int), ObserverRow>, y: map<(int, int), ObserverRow>)
    requires ObserversShown(t, x) && ObserversShown(t, y)
    ensures x == y
  {
    hide ObserversShown;
    ObserversWithin(t, x, y);
    ObserversWithin(t, y, x);
  }

  lemma ShownOnce(t: Table, n: Native, m: Native)
    requires Shows(t, n) && Shows(t, m)
    ensures n == m
  {
    SentsOnce(t, n.sents, m.sents);
    ObserversOnce(t, n.observers, m.observers);
    hide SentsShown;
    hide ObserversShown;
  }

  /** Both directions refuse an allocator mark that does not cover every reply. */
  predicate MarkCovers(ids: set<int>, mark: Option<int>) {
    forall id | id in ids :: mark.Some? && id <= mark.value
  }

  predicate ParentFound(sents: map<int, SentRow>, world: World, pair: (int, int), row: ObserverRow) {
    pair.0 in sents && pair.1 in world.runs && row.task in world.tasks
  }

  predicate ParentsFound(n: Native, world: World) {
    forall pair | pair in n.observers :: ParentFound(n.sents, world, pair, n.observers[pair])
  }

  /** What the native table of replies declares: 64-bit IDs and unique external keys. */
  ghost predicate Declared(sents: map<int, SentRow>) {
    && (forall id | id in sents :: Storable(id))
    && forall x, y | x in sents && y in sents && x != y :: !SameKey(sents[x], sents[y])
  }

  /** The replies copied so far. */
  ghost predicate SentsCopied(t: Table, sents: map<int, SentRow>, done: seq<int>) {
    && (forall id :: id in t.index <==> id in done)
    && (forall id | id in t.index :: id in sents && t.index[id] in t.sents && t.sents[t.index[id]].row == sents[id])
    && t.observers == map[]
  }

  lemma SentCopied(t: Table, id: int, sents: map<int, SentRow>, done: seq<int>)
    requires Valid(t) && SentsCopied(t, sents, done) && id !in done && id in sents && Declared(sents)
    ensures
      var t' := InsertSentStep(t, Some(id), sents[id], false).0;
      Valid(t') && SentsCopied(t', sents, done + [id]) && t'.world == t.world
  {
    InsertSentValid(t, Some(id), sents[id], false);
    NextNew(t.sents.Keys);
    KeyNew(t, sents, done, id);
    hide Valid;
    hide KeyFree;
  }

  lemma KeyNew(t: Table, sents: map<int, SentRow>, done: seq<int>, id: int)
    requires Valid(t) && SentsCopied(t, sents, done) && id !in done && id in sents && Declared(sents)
    ensures KeyFree(t, Next(t.sents.Keys), sents[id])
  {
    forall p | p in t.sents ensures !SameKey(t.sents[p].row, sents[id]) {
      var other := t.sents[p].id;
      assert other in t.index && other in sents && other in done;
    }
  }

  method CopySents(start: Table, sents: map<int, SentRow>) returns (t: Table)
    requires Valid(start) && start.index == map[] && start.sents == map[] && start.observers == map[]
    requires Declared(sents)
    ensures Valid(t) && SentsShown(t, sents) && t.observers == map[] && t.world == start.world
  {
    t := start;
    var order := Listed(sents.Keys);
    hide Valid;
    for i := 0 to |order|
      invariant Valid(t) && SentsCopied(t, sents, order[..i]) && t.world == start.world
    {
      var id := order[i];
      assert id in order && id !in order[..i] && order[..i + 1] == order[..i] + [id];
      SentCopied(t, id, sents, order[..i]);
      t := PutSent(t, Next(t.sents.Keys), Sent(id, sents[id])).(mark := Marked(t.mark, id));
    }
    assert order[..|order|] == order;
  }

  lemma ObserverCopied(t: Table, sents: map<int, SentRow>, done: map<(int, int), ObserverRow>, pair: (int, int), row: ObserverRow)
    requires Valid(t) && SentsShown(t, sents) && ObserversShown(t, done) && pair !in done
    requires ParentFound(sents, t.world, pair, row)
    ensures pair.0 in t.index
    ensures
      var (t', ok) := PutObserver(t, Next(t.observers.Keys), Observer(t.index[pair.0], pair.1, row, pair));
      ok && Valid(t') && SentsShown(t', sents) && ObserversShown(t', done[pair := row])
  {
    var q, id, run := Next(t.observers.Keys), pair.0, pair.1;
    NextNew(t.observers.Keys);
    IndexedSents(t, sents, id);
    assert id in t.index && t.index[id] in t.sents && t.sents[t.index[id]].id == id;
    var o := Observer(t.index[id], run, row, pair);
    PairIsFree(t, done, q, o.sent, run);
    PutObserverValid(t, q, o);
    ObserverShown(t, done, q, o);
    hide Valid;
    hide ObserversShown;
  }

  lemma PairIsFree(t: Table, done: map<(int, int), ObserverRow>, q: int, p: int, run: int)
    requires ObserversShown(t, done) && p in t.sents && (t.sents[p].id, run) !in done
    ensures PairFree(t, q, p, run)
  {
  }

  lemma ObserverShown(t: Table, done: map<(int, int), ObserverRow>, q: int, o: Observer)
    requires ObserversShown(t, done) && q !in t.observers && KeyRight(t, o)
    ensures ObserversShown(t.(observers := t.observers[q := o]), done[o.key := o.row]) || o.key in done
  {
    var t' := t.(observers := t.observers[q := o]);
    assert ShowsPair(t', q, o.key);
    forall x | x in done ensures exists r :: r in t'.observers && ShowsPair(t', r, x) {
      var r :| r in t.observers && ShowsPair(t, r, x);
      assert r in t'.observers && ShowsPair(t', r, x);
    }
  }

  method CopyObservers(start: Table, sents: map<int, SentRow>, observers: map<(int, int), ObserverRow>)
    returns (result: Result<Table>)
    requires Valid(start) && SentsShown(start, sents) && start.observers == map[]
    ensures result.Success? <==> forall pair | pair in observers :: ParentFound(sents, start.world, pair, observers[pair])
    ensures result.Success? ==> Valid(result.value) && SentsShown(result.value, sents) && ObserversShown(result.value, observers)
    ensures result.Success? ==> result.value.world == start.world
  {
    var t := start;
    var order := Listed(observers.Keys);
    ghost var done: map<(int, int), ObserverRow> := map[];
    hide Valid;
    hide SentsShown;
    for i := 0 to |order|
      invariant Valid(t) && SentsShown(t, sents) && ObserversShown(t, done) && t.world == start.world
      invariant forall pair :: pair in done <==> pair in order[..i]
      invariant forall pair | pair in done ::
        pair in observers && done[pair] == observers[pair] && ParentFound(sents, start.world, pair, observers[pair])
    {
      var pair := order[i];
      assert pair in order && pair !in order[..i] && order[..i + 1] == order[..i] + [pair];
      IndexedSents(t, sents, pair.0);
      if pair.0 !in t.index || pair.1 !in t.world.runs || observers[pair].task !in t.world.tasks {
        return Failure;
      }
      ObserverCopied(t, sents, done, pair, observers[pair]);
      var ok;
      t, ok := PutObserver(t, Next(t.observers.Keys), Observer(t.index[pair.0], pair.1, observers[pair], pair)).0, true;
      done := done[pair := observers[pair]];
    }
    assert order[..|order|] == order;
    assert forall pair | pair in observers :: pair in done;
    assert done == observers;
    result := Success(t);
  }

  lemma IndexedSents(t: Table, sents: map<int, SentRow>, id: int)
    requires SentsShown(t, sents)
    ensures id in t.index <==> id in sents
  {
  }

  lemma MarkSet(t: Table, n: Native)
    requires Valid(t) && SentsShown(t, n.sents) && ObserversShown(t, n.observers)
    ensures Valid(t.(mark := n.mark)) && Shows(t.(mark := n.mark), n)
  {
    MarkKeepsValid(t, n.mark);
    hide Valid;
    var t' := t.(mark := n.mark);
    forall pair | pair in n.observers ensures exists q :: q in t'.observers && ShowsPair(t', q, pair) {
      var q :| q in t.observers && ShowsPair(t, q, pair);
      assert ShowsPair(t', q, pair);
    }
  }

  /** Refused exactly when the mark misses a reply, or an observer names a reply or run that is not there. */
  method MigrateActionDelivery(n: Native, world: World) returns (result: Result<Table>)
    requires Declared(n.sents)
    ensures result.Success? <==> MarkCovers(n.sents.Keys, n.mark) && ParentsFound(n, world)
    ensures result.Success? ==> Valid(result.value) && Shows(result.value, n) && result.value.world == world
  {
    if !MarkCovers(n.sents.Keys, n.mark) {
      return Failure;
    }
    var start := Table(map[], map[], map[], None, world);
    var sents := CopySents(start, n.sents);
    hide Valid;
    var copied := CopyObservers(sents, n.sents, n.observers);
    if copied.Failure? {
      return Failure;
    }
    MarkSet(copied.value, n);
    result := Success(copied.value.(mark := n.mark));
  }

  predicate Listing(t: Table, observers: map<(int, int), ObserverRow>, q: int)
    requires q in t.observers
  {
    t.observers[q].key in observers && observers[t.observers[q].key] == t.observers[q].row
  }

  predicate ListedUpTo(t: Table, observers: map<(int, int), ObserverRow>, order: seq<int>, i: nat) {
    && i <= |order| && (forall k | 0 <= k < i :: order[k] in t.observers && Listing(t, observers, order[k]))
    && AllBacked(t, observers)
  }

  lemma ListedOne(t: Table, observers: map<(int, int), ObserverRow>, order: seq<int>, i: nat)
    requires Valid(t) && Once(order) && i < |order| && order[i] in t.observers && ListedUpTo(t, observers, order, i)
    ensures t.observers[order[i]].sent in t.sents
    ensures ListedUpTo(t, observers[PairOf(t, order[i]) := t.observers[order[i]].row], order, i + 1)
  {
    var q := order[i];
    assert KeyRight(t, t.observers[q]) && ShowsPair(t, q, t.observers[q].key);
    forall k | 0 <= k < i ensures t.observers[order[k]].key != t.observers[q].key {
      KeyOnce(t, order[k], q);
    }
    hide Valid;
  }

  lemma ListedAll(t: Table, observers: map<(int, int), ObserverRow>, order: seq<int>)
    requires Valid(t) && ListedUpTo(t, observers, order, |order|) && forall q :: q in order <==> q in t.observers
    ensures ObserversShown(t, observers)
  {
    forall q | q in t.observers
      ensures t.observers[q].sent in t.sents && PairOf(t, q) == t.observers[q].key && Listing(t, observers, q)
    {
      assert q in order && KeyRight(t, t.observers[q]);
      var k :| 0 <= k < |order| && order[k] == q;
    }
    hide Valid;
  }

  lemma SentsListed(t: Table)
    requires Valid(t)
    ensures forall id | id in t.index :: t.index[id] in t.sents
    ensures SentsShown(t, map id | id in t.index :: t.sents[t.index[id]].row)
  {
  }

  lemma StartListed(t: Table, order: seq<int>)
    ensures ListedUpTo(t, map[], order, 0)
  {
  }

  lemma ShowsIs(t: Table, n: Native)
    ensures Shows(t, n) <==> SentsShown(t, n.sents) && ObserversShown(t, n.observers) && n.mark == t.mark
  {
  }

  /** The facts of the table now; an ID moved above the mark is refused here as well. */
  method RestoreActionDelivery(t: Table) returns (result: Result<Native>)
    requires Valid(t)
    ensures result.Success? <==> MarkCovers(t.index.Keys, t.mark)
    ensures result.Success? ==> Shows(t, result.value)
  {
    if !MarkCovers(t.index.Keys, t.mark) {
      return Failure;
    }
    hide *;
    SentsListed(t);
    var sents := map id | id in t.index :: t.sents[t.index[id]].row;
    var observers: map<(int, int), ObserverRow> := map[];
    var order := Listed(t.observers.Keys);
    StartListed(t, order);
    for i := 0 to |order|
      invariant ListedUpTo(t, observers, order, i)
    {
      var q := order[i];
      assert q in order && q in t.observers;
      ListedOne(t, observers, order, i);
      observers := observers[PairOf(t, q) := t.observers[q].row];
    }
    assert forall q :: q in order <==> q in t.observers.Keys;
    ListedAll(t, observers, order);
    result := Success(Native(sents, observers, t.mark));
    ShowsIs(t, result.value);
  }

  /** Composite keys are unique, because replies and pairs are. */
  lemma KeyOnce(t: Table, q: int, r: int)
    requires Valid(t) && q in t.observers && r in t.observers && q != r
    ensures t.observers[q].key != t.observers[r].key
  {
    assert KeyRight(t, t.observers[q]) && KeyRight(t, t.observers[r]);
  }

  /** Both families and the mark come back, absent marks included. */
  method MigrateRestore(n: Native, world: World) returns (result: Result<Native>)
    requires Declared(n.sents)
    ensures result == if MarkCovers(n.sents.Keys, n.mark) && ParentsFound(n, world) then Success(n) else Failure
  {
    var t := MigrateActionDelivery(n, world);
    if t.Failure? {
      return Failure;
    }
    assert forall id :: id in t.value.index <==> id in n.sents;
    result := RestoreActionDelivery(t.value);
    hide Valid;
    ShownOnce(t.value, n, result.value);
  }
}
