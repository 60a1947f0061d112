/** Writes on converted replies and observers do what the native tables would have done. */
module DeliveryWrites {
  import opened Wrappers
  import opened Ids
  import opened Delivery

  // ---------- the native tables ----------

  predicate NativeKeyFree(sents: map<int, SentRow>, self: int, row: SentRow) {
    forall x | x in sents && x != self :: !SameKey(sents[x], row)
  }

  predicate NativeObserved(n: Native, id: int) { exists pair :: pair in n.observers && pair.0 == id }

  function NativeInsertSent(n: Native, given: Option<int>, row: SentRow, ignore: bool): (Native, Reply) {
    var id := ChosenId(n.mark, n.sents.Keys, given);
    if !Storable(id) then (n, Raised)
    else if id in n.sents || !NativeKeyFree(n.sents, id, row) then
      if ignore then (n.(mark := Marked(n.mark, id)), Ignored) else (n, Raised)
    else (n.(sents := n.sents[id := row], mark := Marked(n.mark, id)), SentAt(id))
  }

  function NativeUpdateSent(n: Native, id: int, c: SentChanges): (Native, Reply) {
    if id !in n.sents then (n, NoRow)
    else
      var now, row := Or(c.id, id), Patched(n.sents[id], c);
      if (now != id && (now in n.sents || NativeObserved(n, id))) || !NativeKeyFree(n.sents, id, row) then (n, Raised)
      else (n.(sents := (n.sents - {id})[now := row]), SentAt(now))
  }

  function NativeDeleteSent(n: Native, id: int): (Native, Reply) {
    if id !in n.sents then (n, NoRow)
    else if NativeObserved(n, id) then (n, Raised)
    else (n.(sents := n.sents - {id}), SentAt(id))
  }

  /** A duplicate is passed over before any reference is checked. */
  function NativeInsertObserver(n: Native, world: World, pair: (int, int), row: ObserverRow, ignore: bool): (Native, Reply) {
    if pair in n.observers then (n, if ignore then Ignored else Raised)
    else if !ParentFound(n.sents, world, pair, row) then (n, Raised)
    else (n.(observers := n.observers[pair := row]), ObserverAt(pair))
  }

  function NativeUpdateObserver(n: Native, world: World, pair: (int, int), c: ObserverChanges): (Native, Reply) {
    if pair !in n.observers then (n, NoRow)
    else
      var to, row := Moved(pair.0, pair.1, c), PatchedObserver(n.observers[pair], c);
      if !ParentFound(n.sents, world, to, row) || (to != pair && to in n.observers) then (n, Raised)
      else (n.(observers := (n.observers - {pair})[to := row]), ObserverAt(to))
  }

  function NativeDeleteObserver(n: Native, pair: (int, int)): (Native, Reply) {
    if pair !in n.observers then (n, NoRow) else (n.(observers := n.observers - {pair}), ObserverAt(pair))
  }

  /** The statement on the predecessor's two tables, with their keys and references. */
  function NativeStep(n: Native, world: World, call: Call): (Native, Reply) {
    if !Wellformed(call) then (n, Raised)
    else
      match call
      case InsertSent(given, row, ignore) => NativeInsertSent(n, given, row, ignore)
      case UpdateSent(id, c) => NativeUpdateSent(n, id, c)
      case DeleteSent(id) => NativeDeleteSent(n, id)
      case InsertObserver(sent, run, row, ignore) => NativeInsertObserver(n, world, (sent, run), row, ignore)
      case UpdateObserver(sent, run, c) => NativeUpdateObserver(n, world, (sent, run), c)
      case DeleteObserver(sent, run) => NativeDeleteObserver(n, (sent, run))
  }

  /**
   * A reference is looked up and missing although the native statement would have passed over a duplicate,
   * or found no row to update.
   */
  predicate TooEarly(n: Native, world: World, call: Call) {
    Wellformed(call)
    && match call
       case InsertObserver(sent, run, row, ignore) =>
         ignore && (sent, run) in n.observers && !ParentFound(n.sents, world, (sent, run), row)
       case UpdateObserver(sent, run, c) => (sent, run) !in n.observers && !LookupsFound(n.sents.Keys, world, c)
       case _ => false
  }

  // ---------- the guards agree ----------

  lemma ObservedIff(t: Table, n: Native, id: int)
    requires Valid(t) && Shows(t, n) && id in t.index
    ensures Observed(t, t.index[id]) <==> NativeObserved(n, id)
  {
    if q :| q in t.observers && t.observers[q].sent == t.index[id] {
      assert PairOf(t, q) in n.observers && PairOf(t, q).0 == id;
    }
    if pair :| pair in n.observers && pair.0 == id {
      var q := ObserverBehind(t, n.observers, pair);
      assert t.sents[t.observers[q].sent].id == id;
    }
  }

  lemma KeyFreeIff(t: Table, n: Native, id: int, p: int, row: SentRow)
    requires Valid(t) && Shows(t, n)
    requires if id in t.index then p == t.index[id] else p !in t.sents
    ensures KeyFree(t, p, row) <==> NativeKeyFree(n.sents, id, row)
  {
    SentIs(t, n);
    forall x | x in n.sents && x != id && KeyFree(t, p, row) ensures !SameKey(n.sents[x], row) {
      var y := t.index[x];
      assert y in t.sents && y != p;
    }
    forall y | y in t.sents && y != p && NativeKeyFree(n.sents, id, row) ensures !SameKey(t.sents[y].row, row) {
      var x := t.sents[y].id;
      assert x in n.sents && x != id;
    }
    hide Valid;
    hide Shows;
  }

  lemma SentIs(t: Table, n: Native)
    requires Valid(t) && Shows(t, n)
    ensures forall x :: x in n.sents <==> x in t.index
    ensures forall x | x in n.sents :: t.index[x] in t.sents && t.sents[t.index[x]].id == x && t.sents[t.index[x]].row == n.sents[x]
    ensures forall y | y in t.sents :: t.sents[y].id in t.index && t.index[t.sents[y].id] == y
  {
  }

  lemma FoundIff(t: Table, n: Native, q: int, sent: int, run: int)
    requires Valid(t) && Shows(t, n)
    ensures IsObserver(t, q, sent, run) <==> q in t.observers && ShowsPair(t, q, (sent, run))
    ensures IsObserver(t, q, sent, run) ==>
      (sent, run) in n.observers && n.observers[(sent, run)] == t.observers[q].row && t.observers[q].key == (sent, run)
  {
    SentIs(t, n);
    if q in t.observers {
      assert KeyRight(t, t.observers[q]);
      if t.observers[q].sent in t.sents && PairOf(t, q) == (sent, run) { ObserverListed(t, n.observers, q, (sent, run)); }
    }
    hide Valid;
    hide AllBacked;
  }

  lemma NotFound(t: Table, n: Native, sent: int, run: int)
    requires Valid(t) && Shows(t, n)
    ensures (sent, run) in n.observers <==> exists q :: IsObserver(t, q, sent, run)
  {
    forall q ensures IsObserver(t, q, sent, run) ==> (sent, run) in n.observers { FoundIff(t, n, q, sent, run); }
    if (sent, run) in n.observers {
      var q := ObserverBehind(t, n.observers, (sent, run));
      FoundIff(t, n, q, sent, run);
    }
    hide Valid;
    hide Shows;
    hide IsObserver;
  }

  lemma AllowedIff(t: Table, n: Native, q: int, o: Observer)
    requires Valid(t) && Shows(t, n) && o.sent in t.sents && o.key == (t.sents[o.sent].id, o.run)
    ensures ObserverAllowed(t, q, o) <==>
      ParentFound(n.sents, t.world, o.key, o.row) && (o.key in n.observers ==> q in t.observers && ShowsPair(t, q, o.key))
  {
    SentIs(t, n);
    PairFreeIff(t, n, q, o);
    hide Valid;
    hide Shows;
    hide PairFree;
    hide ShowsPair;
  }

  lemma PairFreeIff(t: Table, n: Native, q: int, o: Observer)
    requires Valid(t) && Shows(t, n) && o.sent in t.sents && o.key == (t.sents[o.sent].id, o.run)
    ensures PairFree(t, q, o.sent, o.run) <==> (o.key in n.observers ==> q in t.observers && ShowsPair(t, q, o.key))
  {
    SentIs(t, n);
    forall x | x in t.observers ensures (t.observers[x].sent, t.observers[x].run) == (o.sent, o.run) <==> ShowsPair(t, x, o.key) {
      assert KeyRight(t, t.observers[x]);
    }
    if o.key in n.observers {
      var x := ObserverBehind(t, n.observers, o.key);
      if x != q && ShowsPair(t, q, o.key) { KeyOnce(t, x, q); }
    }
    forall x | x in t.observers && ShowsPair(t, x, o.key) ensures o.key in n.observers {
      ObserverListed(t, n.observers, x, o.key);
    }
    hide Shows;
  }

  // ---------- the writes agree ----------

  /** Replies are shown as before, with the written one in place of the old. */
  lemma SentPut(t: Table, n: Native, p: int, s: Sent)
    requires Valid(t) && Shows(t, n) && (s.id in t.index ==> t.index[s.id] == p)
    requires p in t.sents && t.sents[p].id != s.id ==> !Observed(t, p)
    ensures Shows(PutSent(t, p, s), n.(sents := (if p in t.sents then n.sents - {t.sents[p].id} else n.sents)[s.id := s.row]))
  {
    SentIs(t, n);
    SentPutSents(t, n, p, s);
    SentPutObservers(t, n, p, s);
    hide Valid;
    hide SentsShown;
    hide ObserversShown;
  }

  lemma SentPutSents(t: Table, n: Native, p: int, s: Sent)
    requires Valid(t) && Shows(t, n) && (s.id in t.index ==> t.index[s.id] == p)
    ensures SentsShown(PutSent(t, p, s), (if p in t.sents then n.sents - {t.sents[p].id} else n.sents)[s.id := s.row])
  {
    SentIs(t, n);
    hide Valid;
    hide ObserversShown;
  }

  lemma SamePairs(t: Table, t': Table, observers: map<(int, int), ObserverRow>)
    requires ObserversShown(t, observers) && t'.observers == t.observers
    requires forall q | q in t.observers :: t.observers[q].sent in t'.sents && t.observers[q].sent in t.sents
               && t'.sents[t.observers[q].sent].id == t.sents[t.observers[q].sent].id
    ensures ObserversShown(t', observers)
  {
    forall pair | pair in observers ensures exists q :: q in t'.observers && ShowsPair(t', q, pair) {
      var q := ObserverBehind(t, observers, pair);
      assert ShowsPair(t', q, pair);
    }
    assert forall q | q in t.observers :: PairOf(t', q) == PairOf(t, q);
  }

  lemma SentPutObservers(t: Table, n: Native, p: int, s: Sent)
    requires Valid(t) && Shows(t, n)
    requires p in t.sents && t.sents[p].id != s.id ==> !Observed(t, p)
    ensures ObserversShown(PutSent(t, p, s), n.observers)
  {
    assert forall q | q in t.observers :: KeyRight(t, t.observers[q]);
    hide Valid;
    SamePairs(t, PutSent(t, p, s), n.observers);
    hide ObserversShown;
  }

  lemma SentDropped(t: Table, n: Native, id: int)
    requires Valid(t) && Shows(t, n) && id in t.index && !Observed(t, t.index[id])
    ensures Shows(t.(sents := t.sents - {t.index[id]}, index := t.index - {id}), n.(sents := n.sents - {id}))
  {
    var t' := t.(sents := t.sents - {t.index[id]}, index := t.index - {id});
    SentIs(t, n);
    assert forall q | q in t.observers :: KeyRight(t, t.observers[q]);
    assert forall x | x in t'.index :: t.index[x] != t.index[id];
    hide Valid;
    SamePairs(t, t', n.observers);
    hide ObserversShown;
  }

  function Without(t: Table, n: Native, q: int): map<(int, int), ObserverRow> {
    if q in t.observers && t.observers[q].sent in t.sents then n.observers - {PairOf(t, q)} else n.observers
  }

  lemma ObserverPut(t: Table, n: Native, q: int, o: Observer)
    requires Valid(t) && Shows(t, n) && ObserverAllowed(t, q, o)
    ensures Shows(PutObserver(t, q, o).0, n.(observers := Without(t, n, q)[o.key := o.row]))
  {
    var t', after := PutObserver(t, q, o).0, Without(t, n, q)[o.key := o.row];
    assert KeyRight(t', o) && ShowsPair(t', q, o.key);
    forall x | x in t.observers && x != q
      ensures t.observers[x].sent in t.sents && PairOf(t', x) == PairOf(t, x) && PairOf(t, x) != o.key
      ensures PairOf(t, x) in after && after[PairOf(t, x)] == t.observers[x].row
    {
      OtherPair(t, n, q, o, x);
    }
    forall pair | pair in after ensures exists x :: x in t'.observers && ShowsPair(t', x, pair) {
      if pair != o.key {
        var x := ObserverBehind(t, n.observers, pair);
        assert x != q && ShowsPair(t', x, pair);
      }
    }
    assert t'.observers.Keys == t.observers.Keys + {q};
    assert AllListed(t', after) && AllBacked(t', after);
    hide Valid;
    hide AllListed;
    hide AllBacked;
    assert SentsShown(t', n.sents);
  }

  /** Another observer keeps its pair, which is neither the one that goes nor the one that comes. */
  lemma OtherPair(t: Table, n: Native, q: int, o: Observer, x: int)
    requires Valid(t) && Shows(t, n) && ObserverAllowed(t, q, o) && x in t.observers && x != q
    ensures t.observers[x].sent in t.sents && PairOf(t, x) != o.key
    ensures PairOf(t, x) in Without(t, n, q) && Without(t, n, q)[PairOf(t, x)] == t.observers[x].row
  {
    SentIs(t, n);
    assert KeyRight(t, t.observers[x]);
    ObserverListed(t, n.observers, x, PairOf(t, x));
    if q in t.observers {
      assert KeyRight(t, t.observers[q]);
      KeyOnce(t, x, q);
    }
    hide Valid;
    hide Shows;
  }

  lemma ObserverDropped(t: Table, n: Native, q: int)
    requires Valid(t) && Shows(t, n) && q in t.observers
    ensures t.observers[q].sent in t.sents
    ensures Shows(t.(observers := t.observers - {q}), n.(observers := n.observers - {PairOf(t, q)}))
  {
    assert KeyRight(t, t.observers[q]);
    var t', after := t.(observers := t.observers - {q}), n.observers - {PairOf(t, q)};
    forall x | x in t'.observers
      ensures t.observers[x].sent in t.sents && PairOf(t', x) in after && after[PairOf(t', x)] == t.observers[x].row
    {
      assert KeyRight(t, t.observers[x]);
      ObserverListed(t, n.observers, x, PairOf(t, x));
      KeyOnce(t, x, q);
    }
    forall pair | pair in after ensures exists x :: x in t'.observers && ShowsPair(t', x, pair) {
      var x := ObserverBehind(t, n.observers, pair);
      assert x != q && ShowsPair(t', x, pair);
    }
    assert AllListed(t', after) && AllBacked(t', after);
    hide Valid;
    hide AllListed;
    hide AllBacked;
    assert SentsShown(t', n.sents);
  }

  // ---------- every statement ----------

  /** The table shows what the native tables hold after the statement, and the answer is theirs unless it is too early. */
  ghost predicate Agrees(t: Table, n: Native, call: Call) {
    && Shows(Step(t, call).0, NativeStep(n, t.world, call).0)
    && Step(t, call).1 == (if TooEarly(n, t.world, call) then Raised else NativeStep(n, t.world, call).1)
    && (TooEarly(n, t.world, call) ==> NativeStep(n, t.world, call).1 != Raised)
    && Step(t, call).0.world == t.world
  }

  /** Two states and answers that belong together. */
  ghost predicate Same(now: (Table, Reply), native: (Native, Reply), world: World) {
    Shows(now.0, native.0) && now.1 == native.1 && now.0.world == world
  }

  lemma MarkShown(t: Table, n: Native, mark: Option<int>)
    requires Shows(t, n)
    ensures Shows(t.(mark := mark), n.(mark := mark))
  {
    SamePairs(t, t.(mark := mark), n.observers);
    hide ObserversShown;
  }

  lemma IdsShown(t: Table, n: Native)
    requires Shows(t, n)
    ensures t.index.Keys == n.sents.Keys && t.mark == n.mark
  {
    forall id: int ensures id in t.index <==> id in n.sents { IndexedSents(t, n.sents, id); }
    hide SentsShown;
    hide ObserversShown;
    SameIds(t.index, n.sents);
  }

  lemma SameIds(x: map<int, int>, y: map<int, SentRow>)
    ensures x.Keys == y.Keys || !(forall id :: id in x <==> id in y)
  {
    if forall id :: id in x <==> id in y { assert x.Keys == y.Keys; }
  }

  lemma InsertSentAgrees(t: Table, n: Native, given: Option<int>, row: SentRow, ignore: bool)
    requires Valid(t) && Shows(t, n)
    ensures Same(InsertSentStep(t, given, row, ignore), NativeInsertSent(n, given, row, ignore), t.world)
  {
    SentIs(t, n);
    IdsShown(t, n);
    var p, id := Next(t.sents.Keys), ChosenId(t.mark, t.index.Keys, given);
    NextNew(t.sents.Keys);
    MarkShown(t, n, Marked(t.mark, id));
    if id !in t.index {
      KeyFreeIff(t, n, id, p, row);
      SentPut(t, n, p, Sent(id, row));
      MarkShown(PutSent(t, p, Sent(id, row)), n.(sents := n.sents[id := row]), Marked(t.mark, id));
    }
    hide Valid;
    hide Shows;
    hide KeyFree;
    hide NativeKeyFree;
    hide Marked;
    hide ChosenId;
  }

  lemma UpdateSentAgrees(t: Table, n: Native, id: int, c: SentChanges)
    requires Valid(t) && Shows(t, n)
    ensures Same(UpdateSentStep(t, id, c), NativeUpdateSent(n, id, c), t.world)
  {
    SentIs(t, n);
    if id in t.index {
      ObservedIff(t, n, id);
      var p, now := t.index[id], Or(c.id, id);
      var row := Patched(t.sents[p].row, c);
      KeyFreeIff(t, n, id, p, row);
      if now == id || (now !in t.index && !Observed(t, p)) { SentPut(t, n, p, Sent(now, row)); }
    }
    hide Valid;
    hide Shows;
    hide Observed;
    hide NativeObserved;
    hide KeyFree;
    hide NativeKeyFree;
    hide Patched;
  }

  lemma DeleteSentAgrees(t: Table, n: Native, id: int)
    requires Valid(t) && Shows(t, n)
    ensures Same(DeleteSentStep(t, id), NativeDeleteSent(n, id), t.world)
  {
    SentIs(t, n);
    if id in t.index {
      ObservedIff(t, n, id);
      if !Observed(t, t.index[id]) { SentDropped(t, n, id); }
    }
    hide Valid;
    hide Shows;
    hide Observed;
    hide NativeObserved;
  }

  /** A fresh row of observers takes part in no pair. */
  lemma InsertObserverAgrees(t: Table, n: Native, sent: int, run: int, row: ObserverRow, ignore: bool)
    requires Valid(t) && Shows(t, n)
    ensures
      var found := ParentFound(n.sents, t.world, (sent, run), row);
      var native := NativeInsertObserver(n, t.world, (sent, run), row, ignore);
      Same(InsertObserverStep(t, sent, run, row, ignore), (native.0, if found then native.1 else Raised), t.world)
  {
    SentIs(t, n);
    var q := Next(t.observers.Keys);
    NextNew(t.observers.Keys);
    assert q !in t.observers;
    if sent in t.index {
      var o := Observer(t.index[sent], run, row, (sent, run));
      AllowedIff(t, n, q, o);
      if ObserverAllowed(t, q, o) { ObserverPut(t, n, q, o); }
    }
    hide Valid;
    hide Shows;
    hide ObserverAllowed;
  }

  /** The changed row stands for the changed pair, and is allowed exactly when the native row is. */
  lemma Changed(t: Table, n: Native, q: int, sent: int, run: int, c: ObserverChanges)
    requires Valid(t) && Shows(t, n) && IsObserver(t, q, sent, run) && LookupsFound(t.index.Keys, t.world, c)
    ensures (sent, run) in n.observers
    ensures
      var o := ChangedObserver(t, t.observers[q], sent, run, c);
      Same(WriteObserver(t, q, o), NativeUpdateObserver(n, t.world, (sent, run), c), t.world)
  {
    SentIs(t, n);
    FoundIff(t, n, q, sent, run);
    var o := ChangedObserver(t, t.observers[q], sent, run, c);
    ChangedIs(t, q, sent, run, c);
    AllowedIff(t, n, q, o);
    if ObserverAllowed(t, q, o) { ObserverPut(t, n, q, o); }
    hide Valid;
    hide Shows;
    hide ObserverAllowed;
    hide ChangedObserver;
    hide LookupsFound;
    hide ParentFound;
  }

  lemma ChangedIs(t: Table, q: int, sent: int, run: int, c: ObserverChanges)
    requires Valid(t) && IsObserver(t, q, sent, run) && LookupsFound(t.index.Keys, t.world, c)
    ensures
      var o := ChangedObserver(t, t.observers[q], sent, run, c);
      && o.sent in t.sents && o.key == (t.sents[o.sent].id, o.run) && o.key == Moved(sent, run, c)
      && o.row == PatchedObserver(t.observers[q].row, c)
  {
    assert KeyRight(t, t.observers[q]) && t.observers[q].key == (sent, run);
    if c.sent.Some? {
      var s := c.sent.value;
      assert s in t.index && t.index[s] in t.sents && t.sents[t.index[s]].id == s;
    }
  }

  lemma UpdateObserverAgrees(t: Table, n: Native, sent: int, run: int, c: ObserverChanges)
    requires Valid(t) && Shows(t, n)
    ensures
      var native := NativeUpdateObserver(n, t.world, (sent, run), c);
      var found := LookupsFound(t.index.Keys, t.world, c);
      && Same(UpdateObserverStep(t, sent, run, c), (native.0, if found then native.1 else Raised), t.world)
      && (!found && (sent, run) in n.observers ==> native.1 == Raised)
  {
    NotFound(t, n, sent, run);
    IdsShown(t, n);
    if LookupsFound(t.index.Keys, t.world, c) {
      forall q | IsObserver(t, q, sent, run)
        ensures
          Same(WriteObserver(t, q, ChangedObserver(t, t.observers[q], sent, run, c)),
               NativeUpdateObserver(n, t.world, (sent, run), c), t.world)
      {
        Changed(t, n, q, sent, run, c);
      }
    } else if (sent, run) in n.observers {
      LookupsDecide(n, t.world, sent, run, c);
    }
    hide Valid;
    hide Shows;
    hide LookupsFound;
    hide IsObserver;
    hide NativeUpdateObserver;
    hide WriteObserver;
    hide ChangedObserver;
    if (sent, run) !in n.observers { MissingPair(n, t.world, (sent, run), c); }
  }

  lemma MissingPair(n: Native, world: World, pair: (int, int), c: ObserverChanges)
    requires pair !in n.observers
    ensures NativeUpdateObserver(n, world, pair, c) == (n, NoRow)
  {
  }

  /** A reference that is not found refuses the native update of a row that is there. */
  lemma LookupsDecide(n: Native, world: World, sent: int, run: int, c: ObserverChanges)
    requires (sent, run) in n.observers && !LookupsFound(n.sents.Keys, world, c)
    ensures NativeUpdateObserver(n, world, (sent, run), c) == (n, Raised)
  {
  }

  lemma DeleteObserverAgrees(t: Table, n: Native, sent: int, run: int)
    requires Valid(t) && Shows(t, n)
    ensures Same(DeleteObserverStep(t, sent, run), NativeDeleteObserver(n, (sent, run)), t.world)
  {
    NotFound(t, n, sent, run);
    forall q | IsObserver(t, q, sent, run)
      ensures (sent, run) in n.observers
      ensures Shows(t.(observers := t.observers - {q}), n.(observers := n.observers - {(sent, run)}))
    {
      FoundIff(t, n, q, sent, run);
      ObserverDropped(t, n, q);
    }
    hide Valid;
    hide Shows;
  }

  lemma NativeStepIs(n: Native, world: World, call: Call)
    ensures !Wellformed(call) ==> NativeStep(n, world, call) == (n, Raised)
    ensures Wellformed(call) ==>
      match call
      case InsertSent(given, row, ignore) => NativeStep(n, world, call) == NativeInsertSent(n, given, row, ignore)
      case UpdateSent(id, c) => NativeStep(n, world, call) == NativeUpdateSent(n, id, c)
      case DeleteSent(id) => NativeStep(n, world, call) == NativeDeleteSent(n, id)
      case InsertObserver(sent, run, row, ignore) =>
        NativeStep(n, world, call) == NativeInsertObserver(n, world, (sent, run), row, ignore)
      case UpdateObserver(sent, run, c) => NativeStep(n, world, call) == NativeUpdateObserver(n, world, (sent, run), c)
      case DeleteObserver(sent, run) => NativeStep(n, world, call) == NativeDeleteObserver(n, (sent, run))
  {
    hide Wellformed;
  }

  lemma TooEarlyIs(n: Native, world: World, call: Call)
    ensures TooEarly(n, world, call) ==> Wellformed(call) && (call.InsertObserver? || call.UpdateObserver?)
    ensures call.InsertObserver? && Wellformed(call) ==>
      var native := NativeInsertObserver(n, world, (call.sent, call.run), call.row, call.ignore);
      var found := ParentFound(n.sents, world, (call.sent, call.run), call.row);
      && (TooEarly(n, world, call) <==> !found && native.1 != Raised)
    ensures call.UpdateObserver? && Wellformed(call) ==>
      (TooEarly(n, world, call) <==> (call.sent, call.run) !in n.observers && !LookupsFound(n.sents.Keys, world, call.changes))
  {
    hide Wellformed;
    hide LookupsFound;
    hide ParentFound;
  }

  lemma AgreesIs(t: Table, n: Native, call: Call)
    requires
      var native := NativeStep(n, t.world, call);
      && Same(Step(t, call), (native.0, if TooEarly(n, t.world, call) then Raised else native.1), t.world)
      && (TooEarly(n, t.world, call) ==> native.1 != Raised)
    ensures Agrees(t, n, call)
  {
    hide Shows;
    hide Step;
    hide NativeStep;
    hide TooEarly;
  }

  lemma SameIs(now: (Table, Reply), native: (Native, Reply), world: World)
    ensures Same(now, native, world) <==> Shows(now.0, native.0) && now.1 == native.1 && now.0.world == world
  {
  }

  /** Every statement commutes with what the table shows, and the answers differ exactly where a lookup comes too early. */
  lemma StepAgrees(t: Table, n: Native, call: Call)
    requires Valid(t) && Shows(t, n)
    ensures Agrees(t, n, call)
  {
    hide *;
    StepIs(t, call);
    NativeStepIs(n, t.world, call);
    TooEarlyIs(n, t.world, call);
    IdsShown(t, n);
    SameIs((t, Raised), (n, Raised), t.world);
    if Wellformed(call) {
      match call
      case InsertSent(given, row, ignore) => InsertSentAgrees(t, n, given, row, ignore);
      case UpdateSent(id, c) => UpdateSentAgrees(t, n, id, c);
      case DeleteSent(id) => DeleteSentAgrees(t, n, id);
      case InsertObserver(sent, run, row, ignore) =>
        InsertObserverAgrees(t, n, sent, run, row, ignore);
      case UpdateObserver(sent, run, c) =>
        UpdateObserverAgrees(t, n, sent, run, c);
        if (sent, run) !in n.observers { MissingPair(n, t.world, (sent, run), c); }
      case DeleteObserver(sent, run) => DeleteObserverAgrees(t, n, sent, run);
    }
    AgreesIs(t, n, call);
  }

  /** No observer, and a run that is not there: the store raises where the native update finds no row. */
  lemma MissingRunTooEarly()
    ensures
      var n, world := Native(map[], map[], None), World({}, {});
      var call := UpdateObserver(1, 1, ObserverChanges(None, Some(99), None, None));
      TooEarly(n, world, call) && NativeStep(n, world, call).1 == NoRow
  {
  }

  /** The same for a reply the pair would move to. */
  lemma MissingReplyTooEarly()
    ensures
      var n, world := Native(map[], map[], None), World({}, {});
      var call := UpdateObserver(1, 1, ObserverChanges(Some(9), None, None, None));
      TooEarly(n, world, call) && NativeStep(n, world, call).1 == NoRow
  {
  }

  /** The same for a task, the pair left as it is. */
  lemma MissingTaskTooEarly()
    ensures
      var n, world := Native(map[], map[], None), World({}, {});
      var call := UpdateObserver(1, 1, ObserverChanges(None, None, Some(7), None));
      TooEarly(n, world, call) && NativeStep(n, world, call).1 == NoRow
  {
  }

  /** A duplicate observer for a missing task raises where it would have been passed over. */
  lemma MissingTaskNotIgnored()
    ensures
      var n, world := Native(map[1 := SentRow("", "")], map[(1, 1) := ObserverRow(5, "")], Some(1)), World({1}, {5});
      var call := InsertObserver(1, 1, ObserverRow(7, ""), true);
      TooEarly(n, world, call) && NativeStep(n, world, call).1 == Ignored
  {
  }

  function NativeRun(n: Native, world: World, calls: seq<Call>): Native
    decreases |calls|
  {
    if calls == [] then n else NativeRun(NativeStep(n, world, calls[0]).0, world, calls[1..])
  }

  /** After any sequence of statements the table shows what the native tables would hold. */
  lemma {:induction false} RunAgrees(t: Table, n: Native, calls: seq<Call>)
    requires Valid(t) && Shows(t, n)
    ensures Valid(Run(t, calls)) && Shows(Run(t, calls), NativeRun(n, t.world, calls))
    decreases |calls|
  {
    RunValid(t, calls);
    if calls != [] {
      StepAgrees(t, n, calls[0]);
      StepValid(t, calls[0]);
      RunAgrees(Step(t, calls[0]).0, NativeStep(n, t.world, calls[0]).0, calls[1..]);
    }
    hide Valid;
    hide Shows;
    hide Step;
    hide NativeStep;
  }

  // ---------- conversion, writes, and back ----------

  method FindObserver(t: Table, sent: int, run: int) returns (found: Option<int>)
    ensures found.Some? ==> IsObserver(t, found.value, sent, run)
    ensures found.None? ==> forall q :: !IsObserver(t, q, sent, run)
  {
    var order := Listed(t.observers.Keys);
    for i := 0 to |order|
      invariant forall k | 0 <= k < i :: !IsObserver(t, order[k], sent, run)
    {
      if IsObserver(t, order[i], sent, run) {
        return Some(order[i]);
      }
    }
    assert forall q | q in t.observers :: q in order;
    found := None;
  }

  lemma OneObserver(t: Table, q: int, r: int, sent: int, run: int)
    requires Valid(t) && IsObserver(t, q, sent, run) && IsObserver(t, r, sent, run)
    ensures q == r
  {
  }

  lemma OnlyObserver(t: Table, q: int, sent: int, run: int)
    requires Valid(t) && IsObserver(t, q, sent, run)
    ensures forall r | IsObserver(t, r, sent, run) :: r == q
  {
    forall r | IsObserver(t, r, sent, run) ensures r == q { OneObserver(t, q, r, sent, run); }
  }

  method UpdateOneObserver(t: Table, sent: int, run: int, c: ObserverChanges) returns (now: Table, reply: Reply)
    requires Valid(t)
    ensures (now, reply) == UpdateObserverStep(t, sent, run, c)
  {
    if !LookupsFound(t.index.Keys, t.world, c) {
      return t, Raised;
    }
    var found := FindObserver(t, sent, run);
    if found.None? {
      return t, NoRow;
    }
    OnlyObserver(t, found.value, sent, run);
    hide IsObserver;
    hide WriteObserver;
    hide ChangedObserver;
    var written := WriteObserver(t, found.value, ChangedObserver(t, t.observers[found.value], sent, run, c));
    return written.0, written.1;
  }

  method DeleteOneObserver(t: Table, sent: int, run: int) returns (now: Table, reply: Reply)
    requires Valid(t)
    ensures (now, reply) == DeleteObserverStep(t, sent, run)
  {
    var found := FindObserver(t, sent, run);
    if found.None? {
      return t, NoRow;
    }
    OnlyObserver(t, found.value, sent, run);
    hide IsObserver;
    return t.(observers := t.observers - {found.value}), ObserverAt((sent, run));
  }

  method Write(t: Table, call: Call) returns (now: Table, reply: Reply)
    requires Valid(t)
    ensures (now, reply) == Step(t, call)
  {
    StepIs(t, call);
    hide *;
    if !Wellformed(call) {
      return t, Raised;
    }
    match call
    case InsertSent(given, row, ignore) =>
      var step := InsertSentStep(t, given, row, ignore);
      return step.0, step.1;
    case UpdateSent(id, c) =>
      var step := UpdateSentStep(t, id, c);
      return step.0, step.1;
    case DeleteSent(id) =>
      var step := DeleteSentStep(t, id);
      return step.0, step.1;
    case InsertObserver(sent, run, row, ignore) =>
      var step := InsertObserverStep(t, sent, run, row, ignore);
      return step.0, step.1;
    case UpdateObserver(sent, run, c) =>
      now, reply := UpdateOneObserver(t, sent, run, c);
    case DeleteObserver(sent, run) =>
      now, reply := DeleteOneObserver(t, sent, run);
  }

  /** The statements of a session, one after the other; a refused one leaves the table as it was. */
  method WriteAll(start: Table, calls: seq<Call>) returns (t: Table)
    requires Valid(start)
    ensures t == Run(start, calls)
  {
    hide *;
    t := start;
    assert calls[0..] == calls;
    for i := 0 to |calls|
      invariant Valid(t) && Run(start, calls) == Run(t, calls[i..])
    {
      RunStep(t, calls, i);
      StepValid(t, calls[i]);
      var reply;
      t, reply := Write(t, calls[i]);
    }
    assert calls[|calls|..] == [];
    RunNothing(t);
  }

  lemma RunStep(t: Table, calls: seq<Call>, i: nat)
    requires i < |calls|
    ensures Run(t, calls[i..]) == Run(Step(t, calls[i]).0, calls[i + 1..])
  {
    assert calls[i..][1..] == calls[i + 1..];
    hide Step;
  }

  lemma RunNothing(t: Table)
    ensures Run(t, []) == t
  {
  }

  /**
   * Converted, written to and converted back, the tables are those the same statements would have left
   * without the conversion; refused exactly when a parent is missing or an ID lies above its mark.
   */
  method MigrateWriteRestore(n: Native, world: World, calls: seq<Call>) returns (result: Result<Native>)
    requires Declared(n.sents)
    ensures
      var after := NativeRun(n, world, calls);
      result ==
        if MarkCovers(n.sents.Keys, n.mark) && ParentsFound(n, world) && MarkCovers(after.sents.Keys, after.mark)
        then Success(after) else Failure
  {
    hide *;
    var converted := MigrateActionDelivery(n, world);
    if converted.Failure? {
      return Failure;
    }
    RunAgrees(converted.value, n, calls);
    var t := WriteAll(converted.value, calls);
    IdsShown(t, NativeRun(n, world, calls));
    result := RestoreActionDelivery(t);
    if result.Success? { ShownOnce(t, result.value, NativeRun(n, world, calls)); }
  }
}
