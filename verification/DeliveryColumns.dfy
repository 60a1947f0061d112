/** What each statement on the native tables of replies and observers does, told on their rows and columns. */
module DeliveryColumns {
  import opened Wrappers
  import opened Ids
  import opened Delivery
  import opened DeliveryWrites

  // ---------- IDs, keys and marks ----------

  /** A signed 64-bit integer. */
  predicate Fits(x: int) { -0x8000_0000_0000_0000 <= x < 0x8000_0000_0000_0000 }

  predicate FitsIf(x: Option<int>) { x.Some? ==> Fits(x.value) }

  /** One more than the largest of the mark and the IDs there are, and 1 without either. */
  ghost predicate IsNext(n: Native, id: int) {
    && id >= 1 && (id == 1 || n.mark == Some(id - 1) || id - 1 in n.sents)
    && (n.mark.Some? ==> n.mark.value < id) && forall x | x in n.sents :: x < id
  }

  /** The mark reaches the ID and never falls. */
  predicate MarkReaches(before: Option<int>, id: int, after: Option<int>) {
    && after.Some? && id <= after.value && (before.Some? ==> before.value <= after.value)
    && (after.value == id || before == after || (before.None? && after.value == 0))
  }

  /** Another reply has this key, and the key is not empty. */
  predicate KeyTaken(n: Native, self: int, key: string) {
    key != "" && exists x :: x in n.sents && x != self && n.sents[x].key == key
  }

  predicate HasObserver(n: Native, id: int) { exists pair :: pair in n.observers && pair.0 == id }

  /** Reply, run and task are there. */
  predicate Parents(n: Native, world: World, pair: (int, int), task: int) {
    pair.0 in n.sents && pair.1 in world.runs && task in world.tasks
  }

  predicate Refused(n: Native, after: Native, reply: Reply) { reply == Raised && after == n }

  // ---------- replies ----------

  ghost predicate SentInserted(n: Native, given: Option<int>, row: SentRow, ignore: bool, after: Native, reply: Reply) {
    exists id: int ::
      && (if given.Some? then id == given.value else IsNext(n, id))
      && if !Fits(id) then Refused(n, after, reply)
         else if id in n.sents || KeyTaken(n, id, row.key) then
           if ignore
           then reply == Ignored && after.sents == n.sents && after.observers == n.observers && MarkReaches(n.mark, id, after.mark)
           else Refused(n, after, reply)
         else
           reply == SentAt(id) && after.sents == n.sents[id := row] && after.observers == n.observers
           && MarkReaches(n.mark, id, after.mark)
  }

  /** The reply is under its new ID, with each named column new and the other as it was; no other row changes. */
  ghost predicate SentMoved(n: Native, id: int, now: int, c: SentChanges, after: Native) {
    && id in n.sents && after.observers == n.observers && after.mark == n.mark
    && after.sents.Keys == n.sents.Keys - {id} + {now}
    && (forall x | x in n.sents && x != id && x != now :: after.sents[x] == n.sents[x])
    && (match c.key case Some(k) => after.sents[now].key == k case None => after.sents[now].key == n.sents[id].key)
    && (match c.payload case Some(v) => after.sents[now].payload == v case None => after.sents[now].payload == n.sents[id].payload)
  }

  ghost predicate SentUpdated(n: Native, id: int, c: SentChanges, after: Native, reply: Reply) {
    if !Fits(id) || !FitsIf(c.id) || (c.id.None? && c.key.None? && c.payload.None?) then Refused(n, after, reply)
    else if id !in n.sents then reply == NoRow && after == n
    else
      var now, key := if c.id.Some? then c.id.value else id, if c.key.Some? then c.key.value else n.sents[id].key;
      if (now != id && (now in n.sents || HasObserver(n, id))) || KeyTaken(n, id, key) then Refused(n, after, reply)
      else reply == SentAt(now) && SentMoved(n, id, now, c, after)
  }

  ghost predicate SentDeleted(n: Native, id: int, after: Native, reply: Reply) {
    if !Fits(id) || (id in n.sents && HasObserver(n, id)) then Refused(n, after, reply)
    else if id !in n.sents then reply == NoRow && after == n
    else reply == SentAt(id) && after.sents == n.sents - {id} && after.observers == n.observers && after.mark == n.mark
  }

  // ---------- observers ----------

  ghost predicate ObserverInserted(
    n: Native, world: World, pair: (int, int), row: ObserverRow, ignore: bool, after: Native, reply: Reply)
  {
    if !Fits(pair.0) || !Fits(pair.1) || !Fits(row.task) then Refused(n, after, reply)
    else if pair in n.observers then after == n && reply == if ignore then Ignored else Raised
    else if !Parents(n, world, pair, row.task) then Refused(n, after, reply)
    else
      reply == ObserverAt(pair) && after.observers == n.observers[pair := row] && after.sents == n.sents && after.mark == n.mark
  }

  ghost predicate ObserverMoved(n: Native, pair: (int, int), to: (int, int), c: ObserverChanges, after: Native) {
    && pair in n.observers && after.sents == n.sents && after.mark == n.mark
    && after.observers.Keys == n.observers.Keys - {pair} + {to}
    && (forall x | x in n.observers && x != pair && x != to :: after.observers[x] == n.observers[x])
    && (match c.task case Some(t) => after.observers[to].task == t case None => after.observers[to].task == n.observers[pair].task)
    && (match c.payload
        case Some(v) => after.observers[to].payload == v
        case None => after.observers[to].payload == n.observers[pair].payload)
  }

  ghost predicate ObserverUpdated(n: Native, world: World, pair: (int, int), c: ObserverChanges, after: Native, reply: Reply) {
    if !Fits(pair.0) || !Fits(pair.1) || !FitsIf(c.sent) || !FitsIf(c.run) || !FitsIf(c.task)
       || (c.sent.None? && c.run.None? && c.task.None? && c.payload.None?) then Refused(n, after, reply)
    else if pair !in n.observers then reply == NoRow && after == n
    else
      var sent, run := if c.sent.Some? then c.sent.value else pair.0, if c.run.Some? then c.run.value else pair.1;
      var task := if c.task.Some? then c.task.value else n.observers[pair].task;
      if !Parents(n, world, (sent, run), task) || ((sent, run) != pair && (sent, run) in n.observers)
      then Refused(n, after, reply)
      else reply == ObserverAt((sent, run)) && ObserverMoved(n, pair, (sent, run), c, after)
  }

  ghost predicate ObserverDeleted(n: Native, pair: (int, int), after: Native, reply: Reply) {
    if !Fits(pair.0) || !Fits(pair.1) then Refused(n, after, reply)
    else if pair !in n.observers then reply == NoRow && after == n
    else reply == ObserverAt(pair) && after.observers == n.observers - {pair} && after.sents == n.sents && after.mark == n.mark
  }

  ghost predicate Told(n: Native, world: World, call: Call, after: Native, reply: Reply) {
    match call
    case InsertSent(given, row, ignore) => SentInserted(n, given, row, ignore, after, reply)
    case UpdateSent(id, c) => SentUpdated(n, id, c, after, reply)
    case DeleteSent(id) => SentDeleted(n, id, after, reply)
    case InsertObserver(sent, run, row, ignore) => ObserverInserted(n, world, (sent, run), row, ignore, after, reply)
    case UpdateObserver(sent, run, c) => ObserverUpdated(n, world, (sent, run), c, after, reply)
    case DeleteObserver(sent, run) => ObserverDeleted(n, (sent, run), after, reply)
  }

  // ---------- the statements do this ----------

  lemma KeyIs(n: Native, self: int, row: SentRow)
    ensures NativeKeyFree(n.sents, self, row) <==> !KeyTaken(n, self, row.key)
  {
  }

  lemma ObservedIs(n: Native, id: int)
    ensures NativeObserved(n, id) <==> HasObserver(n, id)
  {
  }

  lemma NextIs(n: Native)
    ensures IsNext(n, ChosenId(n.mark, n.sents.Keys, None))
  {
    var ids := n.sents.Keys;
    assert forall x :: x in n.sents <==> x in ids;
    if ids != {} { assert IsLargest(ids, Largest(ids)) && Largest(ids) in n.sents; }
    hide Largest;
  }

  lemma MarkIs(mark: Option<int>, id: int)
    ensures MarkReaches(mark, id, Marked(mark, id))
  {
  }

  lemma InsertSentTold(n: Native, world: World, given: Option<int>, row: SentRow, ignore: bool)
    ensures
      var (after, reply) := NativeStep(n, world, InsertSent(given, row, ignore));
      SentInserted(n, given, row, ignore, after, reply)
  {
    var id := ChosenId(n.mark, n.sents.Keys, given);
    if given.None? { NextIs(n); }
    GivenIs(n, given);
    KeyIs(n, id, row);
    MarkIs(n.mark, id);
    assert Storable(id) <==> Fits(id);
    hide ChosenId;
    hide Marked;
    hide NativeKeyFree;
    hide KeyTaken;
    hide IsNext;
    hide MarkReaches;
    hide Fits;
    hide Storable;
  }

  lemma GivenIs(n: Native, given: Option<int>)
    ensures given.Some? ==> ChosenId(n.mark, n.sents.Keys, given) == given.value
  {
  }

  lemma UpdateSentTold(n: Native, world: World, id: int, c: SentChanges)
    ensures
      var (after, reply) := NativeStep(n, world, UpdateSent(id, c));
      SentUpdated(n, id, c, after, reply)
  {
    if id in n.sents {
      KeyIs(n, id, Patched(n.sents[id], c));
      ObservedIs(n, id);
    }
    hide NativeKeyFree;
    hide KeyTaken;
    hide NativeObserved;
    hide HasObserver;
  }

  /** Every statement, on any tables and with any parameters. */
  lemma NativeTold(n: Native, world: World, call: Call)
    ensures
      var (after, reply) := NativeStep(n, world, call);
      Told(n, world, call, after, reply)
  {
    match call
    case InsertSent(given, row, ignore) => InsertSentTold(n, world, given, row, ignore);
    case UpdateSent(id, c) => UpdateSentTold(n, world, id, c);
    case DeleteSent(id) => ObservedIs(n, id);
    case InsertObserver(sent, run, row, ignore) =>
    case UpdateObserver(sent, run, c) =>
    case DeleteObserver(sent, run) =>
    hide SentInserted;
    hide SentUpdated;
    hide NativeObserved;
    hide HasObserver;
  }

  /** A missing reply, run or task is looked up although the statement itself would not have come to it. */
  predicate Early(n: Native, world: World, call: Call) {
    match call
    case InsertObserver(sent, run, row, ignore) =>
      Fits(sent) && Fits(run) && Fits(row.task) && ignore && (sent, run) in n.observers && !Parents(n, world, (sent, run), row.task)
    case UpdateObserver(sent, run, c) =>
      && Fits(sent) && Fits(run) && FitsIf(c.sent) && FitsIf(c.run) && FitsIf(c.task) && (sent, run) !in n.observers
      && ((c.sent.Some? && c.sent.value !in n.sents) || (c.run.Some? && c.run.value !in world.runs)
          || (c.task.Some? && c.task.value !in world.tasks))
    case _ => false
  }

  lemma EarlyIs(n: Native, world: World, call: Call)
    ensures TooEarly(n, world, call) <==> Early(n, world, call)
  {
  }

  /** A write on converted tables does the same to what they show, and answers the same unless it raises too early. */
  lemma StepTold(t: Table, n: Native, call: Call)
    requires Valid(t) && Shows(t, n)
    ensures
      var (after, reply) := Step(t, call);
      exists n', native :: Shows(after, n') && Told(n, t.world, call, n', native)
        && reply == if Early(n, t.world, call) then Raised else native
  {
    StepAgrees(t, n, call);
    NativeTold(n, t.world, call);
    EarlyIs(n, t.world, call);
    AgreesGives(t, n, call);
    hide *;
    var (n', native) := NativeStep(n, t.world, call);
    assert Told(n, t.world, call, n', native);
  }

  lemma AgreesGives(t: Table, n: Native, call: Call)
    requires Agrees(t, n, call)
    ensures
      var ((after, reply), (n', native)) := (Step(t, call), NativeStep(n, t.world, call));
      Shows(after, n') && reply == if TooEarly(n, t.world, call) then Raised else native
  {
    hide Step;
    hide NativeStep;
    hide TooEarly;
    hide Shows;
  }
}
