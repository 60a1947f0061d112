/** The whole inverse after the whole transfer: it succeeds, and what it returns is the facts. */
module Recovery {
  import opened Wrappers
  import opened ActionEntity
  import opened TransferModel
  import opened CandidatePhase
  import opened PostfixPhase
  import opened SentPhase
  import opened Transfer
  import opened Capture
  import opened RoundTrip
  import opened ResultPhase

  // ---------- one Action ----------

  /** What an Action contributes, told from the account alone. */
  ghost function BackParts(layout: Layout, book: Book, a: int, rs: seq<int>): Parts
    requires a in layout.homes && forall r | r in rs :: r in layout.pieces
  {
    var home := layout.homes[a];
    var external := CanonicalRow(home, book.canon.rows);
    var message := home.postfix;
    Parts(
      if external.Some? then Some(BackExternal(external.value)) else None,
      if message.Some? then Some(BackPostfix(book.facts, message.value, home.sent)) else None,
      if message.Some? then BackReceipt(book.facts, message.value, home.sent) else None,
      if message.Some? then BackDispatch(book.facts, message.value, home.sent) else None,
      BackAttempts(layout, rs),
      if home.sent.Some? then Some(BackSent(book.canon.rows, home.sent.value, a)) else None)
  }

  lemma CanonicalTextIs(home: Home, canon: map<string, External>)
    ensures CanonicalText(
      if CanonicalRow(home, canon).Some? then Some(BackExternal(CanonicalRow(home, canon).value)) else None)
      == CanonicalAt(home, canon)
  {
  }

  lemma ActionPartsIs(
    db: Db, slots: Slots, a: int, rs: seq<int>, external: Option<CapturedExternal>, canonical: Text,
    attempts: seq<CapturedAttempt>, sent: Option<CapturedSent>)
    requires a in db.actions && forall r | r in rs :: r in db.receipts
    requires ExternalPart(db, a, rs) == Success(external) && CanonicalText(external) == canonical
    requires AttemptParts(db, slots, a, rs, canonical) == Success(attempts)
    requires SentPart(db, slots, a, canonical) == Success(sent)
    ensures ActionParts(db, slots, a, rs) ==
      Success(Parts(external, PostfixPart(db, a, rs), ReceiptPart(db, a), DispatchPart(db, a, rs), attempts, sent))
  {
    hide ExternalPart;
    hide CanonicalText;
    hide AttemptParts;
    hide SentPart;
    hide PostfixPart;
    hide ReceiptPart;
    hide DispatchPart;
  }

  lemma PartsBack(db: Db, layout: Layout, book: Book, slots: Slots, a: int, rs: seq<int>)
    requires Kept(db, layout) && AllPlaced(layout, db.identities, book, Rows(book.facts.sents))
    requires SlotsIndex(slots, db.identities, db.identities.Keys)
    requires a in layout.homes && a in db.actions
    requires forall r :: r in rs <==> r in db.receipts && db.receipts[r].owner == a
    requires forall r | r in rs :: r in layout.pieces && layout.pieces[r].owner == a
    ensures ActionParts(db, slots, a, rs) == Success(BackParts(layout, book, a, rs))
  {
    AllPlacedIs(layout, db.identities, book, Rows(book.facts.sents));
    FirstPhasesIs(layout, db.identities, book);
    KeptIs(db, layout);
    var home := layout.homes[a];
    var external := CanonicalRow(home, book.canon.rows);
    var back := if external.Some? then Some(BackExternal(external.value)) else None;
    var sent := if home.sent.Some? then Some(BackSent(book.canon.rows, home.sent.value, a)) else None;
    hide *;
    BackPartsIs(layout, book, a, rs);
    ExternalBack(db, layout, book.canon, a, rs);
    CanonicalTextIs(home, book.canon.rows);
    AttemptsBack(db, layout, slots, book.plan, book.canon, book.Attempts(), a, rs);
    SentBack(db, layout, slots, book.canon, Rows(book.facts.sents), a);
    MessageBack(db, layout, book.facts, Rows(book.facts.postfixes), a, rs);
    ActionPartsIs(db, slots, a, rs, back, CanonicalAt(home, book.canon.rows), BackAttempts(layout, rs), sent);
  }

  lemma KeptIs(db: Db, layout: Layout)
    requires Kept(db, layout)
    ensures Coherent(db) && Rendered(db, layout)
  {
  }

  lemma BackPartsIs(layout: Layout, book: Book, a: int, rs: seq<int>)
    requires a in layout.homes && forall r | r in rs :: r in layout.pieces
    ensures
      var home := layout.homes[a];
      var external := CanonicalRow(home, book.canon.rows);
      BackParts(layout, book, a, rs) == Parts(
        if external.Some? then Some(BackExternal(external.value)) else None,
        if home.postfix.Some? then Some(BackPostfix(book.facts, home.postfix.value, home.sent)) else None,
        if home.postfix.Some? then BackReceipt(book.facts, home.postfix.value, home.sent) else None,
        if home.postfix.Some? then BackDispatch(book.facts, home.postfix.value, home.sent) else None,
        BackAttempts(layout, rs),
        if home.sent.Some? then Some(BackSent(book.canon.rows, home.sent.value, a)) else None)
  {
  }

  // ---------- the lists as a whole ----------

  /** The lists of all Actions, one after the other. */
  ghost function Gather<T(!new)>(rows: seq<seq<T>>): (all: seq<T>)
    ensures forall x :: x in all <==> exists i :: 0 <= i < |rows| && x in rows[i]
  {
    if rows == [] then []
    else
      var last := |rows| - 1;
      assert rows == rows[..last] + [rows[last]];
      Gather(rows[..last]) + rows[last]
  }

  lemma {:induction false} GatherOnce<T(!new)>(rows: seq<seq<T>>)
    requires forall i | 0 <= i < |rows| :: Once(rows[i])
    requires forall i, j, x | 0 <= i < j < |rows| && x in rows[i] :: x !in rows[j]
    ensures Once(Gather(rows))
  {
    if rows != [] {
      var last := |rows| - 1;
      GatherOnce(rows[..last]);
      var before, after := Gather(rows[..last]), rows[last];
      forall i, j | 0 <= i < j < |before + after| ensures (before + after)[i] != (before + after)[j] {
        if i < |before| <= j {
          assert before[i] in before && after[j - |before|] in after;
        }
      }
    }
  }

  ghost function Externals(parts: seq<Parts>): seq<seq<CapturedExternal>> {
    seq(|parts|, i requires 0 <= i < |parts| => OneOrNone(parts[i].external))
  }

  ghost function Postfixes(parts: seq<Parts>): seq<seq<CapturedPostfix>> {
    seq(|parts|, i requires 0 <= i < |parts| => OneOrNone(parts[i].postfix))
  }

  ghost function Receipts(parts: seq<Parts>): seq<seq<CapturedReceipt>> {
    seq(|parts|, i requires 0 <= i < |parts| => OneOrNone(parts[i].receipt))
  }

  ghost function Dispatches(parts: seq<Parts>): seq<seq<CapturedDispatch>> {
    seq(|parts|, i requires 0 <= i < |parts| => OneOrNone(parts[i].dispatch))
  }

  ghost function Attempts(parts: seq<Parts>): seq<seq<CapturedAttempt>> {
    seq(|parts|, i requires 0 <= i < |parts| => parts[i].attempts)
  }

  ghost function Sents(parts: seq<Parts>): seq<seq<CapturedSent>> {
    seq(|parts|, i requires 0 <= i < |parts| => OneOrNone(parts[i].sent))
  }

  lemma GatherNothing<T(!new)>()
    ensures Gather<T>([]) == []
  {
  }

  lemma GatherMore<T(!new)>(rows: seq<seq<T>>)
    requires rows != []
    ensures Gather(rows) == Gather(rows[..|rows| - 1]) + rows[|rows| - 1]
  {
  }

  lemma {:induction false} CollectIs(parts: seq<Parts>)
    ensures Collect(parts).externals == Gather(Externals(parts)) && Collect(parts).postfixes == Gather(Postfixes(parts))
    ensures Collect(parts).receipts == Gather(Receipts(parts)) && Collect(parts).dispatches == Gather(Dispatches(parts))
    ensures Collect(parts).attempts == Gather(Attempts(parts)) && Collect(parts).sents == Gather(Sents(parts))
  {
    hide Gather;
    if parts == [] {
      GatherNothing<CapturedExternal>();
      GatherNothing<CapturedPostfix>();
      GatherNothing<CapturedReceipt>();
      GatherNothing<CapturedDispatch>();
      GatherNothing<CapturedAttempt>();
      GatherNothing<CapturedSent>();
    } else {
      var last := |parts| - 1;
      CollectIs(parts[..last]);
      GatherMore(Externals(parts));
      GatherMore(Postfixes(parts));
      GatherMore(Receipts(parts));
      GatherMore(Dispatches(parts));
      GatherMore(Attempts(parts));
      GatherMore(Sents(parts));
      assert Externals(parts)[..last] == Externals(parts[..last]) && Postfixes(parts)[..last] == Postfixes(parts[..last]);
      assert Receipts(parts)[..last] == Receipts(parts[..last]) && Dispatches(parts)[..last] == Dispatches(parts[..last]);
      assert Attempts(parts)[..last] == Attempts(parts[..last]) && Sents(parts)[..last] == Sents(parts[..last]);
    }
  }

  // ---------- the inverse never lists a source row twice, whatever coherent tables it reads ----------

  lemma PartsFrom(db: Db, slots: Slots, a: int, rs: seq<int>, parts: Parts)
    requires a in db.actions && forall r | r in rs :: r in db.receipts
    requires ActionParts(db, slots, a, rs) == Success(parts)
    ensures parts.external.Some? ==> db.actions[a].externalKey == Some(parts.external.value.key)
    ensures parts.postfix.Some? ==>
      db.actions[a].deliveryChannel == Some(parts.postfix.value.channel) && db.actions[a].deliveryKey == Some(parts.postfix.value.key)
    ensures parts.receipt.Some? ==>
      db.actions[a].deliveryChannel == Some(parts.receipt.value.channel) && db.actions[a].deliveryKey == Some(parts.receipt.value.key)
    ensures parts.dispatch.Some? ==>
      db.actions[a].deliveryChannel == Some(parts.dispatch.value.channel) && db.actions[a].deliveryKey == Some(parts.dispatch.value.key)
    ensures parts.sent.Some? ==> parts.sent.value.action == a
    ensures AttemptParts(db, slots, a, rs, CanonicalText(parts.external)) == Success(parts.attempts)
  {
    hide AttemptParts;
    hide FirstDispatch;
    hide BodyOf;
    hide OwnOutcome;
    hide BindingOf;
  }

  predicate InSlot(receipt: Receipt, x: CapturedAttempt) {
    receipt.execution == Some(x.execution) && receipt.actionIndex == Some(x.index)
  }

  lemma {:induction false} AttemptSource(
    db: Db, slots: Slots, a: int, rs: seq<int>, canonical: Text, x: CapturedAttempt)
    requires a in db.actions && forall r | r in rs :: r in db.receipts
    requires AttemptParts(db, slots, a, rs, canonical).Success? && x in AttemptParts(db, slots, a, rs, canonical).value
    ensures exists r :: r in rs && InSlot(db.receipts[r], x)
    decreases |rs|
  {
    var last := rs[|rs| - 1];
    assert rs == rs[..|rs| - 1] + [last];
    if x in AttemptParts(db, slots, a, rs[..|rs| - 1], canonical).value {
      AttemptSource(db, slots, a, rs[..|rs| - 1], canonical, x);
    } else {
      hide OwnOutcome;
      hide AttemptParts;
      assert last in rs && InSlot(db.receipts[last], x);
    }
  }

  lemma SlotOnce(db: Db, r: int, s: int, x: CapturedAttempt)
    requires Coherent(db) && r in db.receipts && s in db.receipts
    requires InSlot(db.receipts[r], x) && InSlot(db.receipts[s], x)
    ensures r == s
  {
    assert SlotFree(db.receipts, r, db.receipts[r]);
  }

  lemma {:induction false} AttemptsOnce(db: Db, slots: Slots, a: int, rs: seq<int>, canonical: Text)
    requires Coherent(db) && a in db.actions && (forall r | r in rs :: r in db.receipts) && Once(rs)
    requires AttemptParts(db, slots, a, rs, canonical).Success?
    ensures Once(AttemptParts(db, slots, a, rs, canonical).value)
    decreases |rs|
  {
    hide Coherent;
    if rs != [] {
      var last := rs[|rs| - 1];
      AttemptsOnce(db, slots, a, rs[..|rs| - 1], canonical);
      var before := AttemptParts(db, slots, a, rs[..|rs| - 1], canonical).value;
      forall x | x in before ensures !InSlot(db.receipts[last], x) {
        AttemptSource(db, slots, a, rs[..|rs| - 1], canonical, x);
        var r :| r in rs[..|rs| - 1] && InSlot(db.receipts[r], x);
        if InSlot(db.receipts[last], x) { SlotOnce(db, r, last, x); }
      }
      hide OwnOutcome;
      var all := AttemptParts(db, slots, a, rs, canonical).value;
      forall i, j | 0 <= i < j < |all| ensures all[i] != all[j] {
        if j == |before| { assert InSlot(db.receipts[last], all[j]) && before[i] in before; }
      }
    }
  }

  /** Two Actions in the order: they are different rows, so no unique column value is on both. */
  lemma Apart(db: Db, order: seq<int>, i: nat, j: nat)
    requires Coherent(db) && (forall a | a in order :: a in db.actions) && Once(order) && i < j < |order|
    ensures order[i] != order[j] && !Clash(db.actions[order[i]], db.actions[order[j]])
  {
    var a, b := order[i], order[j];
    assert a in order && b in order;
    assert NoOtherClashes(db.actions, b, db.actions[b]);
  }

  lemma ReceiptsOnce(db: Db, a: int, order: seq<int>)
    requires (forall r | r in order :: r in db.receipts) && Once(order)
    ensures Once(ReceiptsOf(db, a, order))
  {
    if order != [] {
      var last := |order| - 1;
      ReceiptsOnce(db, a, order[..last]);
      var before := ReceiptsOf(db, a, order[..last]);
      forall i | 0 <= i < |before| ensures before[i] != order[last] {
        assert before[i] in before;
      }
    }
  }

  /** What two different Actions contribute never coincides. */
  ghost predicate PartsApart(x: Parts, y: Parts) {
    && (x.external.Some? ==> x.external != y.external)
    && (x.postfix.Some? ==> x.postfix != y.postfix)
    && (x.receipt.Some? ==> x.receipt != y.receipt)
    && (x.dispatch.Some? ==> x.dispatch != y.dispatch)
    && (x.sent.Some? ==> x.sent != y.sent)
    && (forall t | t in x.attempts :: t !in y.attempts)
  }

  lemma PairApart(db: Db, slots: Slots, order: seq<int>, receipts: seq<int>, parts: seq<Parts>, i: nat, j: nat)
    requires Coherent(db) && (forall a | a in order :: a in db.actions) && Once(order)
    requires (forall r | r in receipts :: r in db.receipts) && PartsOf(db, slots, order, receipts, parts)
    requires i < j < |order|
    ensures PartsApart(parts[i], parts[j])
  {
    var a, b := order[i], order[j];
    Apart(db, order, i, j);
    var rs, ss := ReceiptsOf(db, a, receipts), ReceiptsOf(db, b, receipts);
    PartsFrom(db, slots, a, rs, parts[i]);
    PartsFrom(db, slots, b, ss, parts[j]);
    hide AttemptParts;
    hide ActionParts;
    hide CanonicalText;
    forall t | t in parts[i].attempts ensures t !in parts[j].attempts {
      AttemptSource(db, slots, a, rs, CanonicalText(parts[i].external), t);
      var r :| r in rs && InSlot(db.receipts[r], t);
      if t in parts[j].attempts {
        AttemptSource(db, slots, b, ss, CanonicalText(parts[j].external), t);
        var q :| q in ss && InSlot(db.receipts[q], t);
        SlotOnce(db, r, q, t);
        assert false;
      }
    }
    hide Coherent;
    hide PartsOf;
  }

  lemma OwnAttemptsOnce(db: Db, slots: Slots, order: seq<int>, receipts: seq<int>, parts: seq<Parts>, i: nat)
    requires Coherent(db) && (forall a | a in order :: a in db.actions)
    requires (forall r | r in receipts :: r in db.receipts) && Once(receipts)
    requires PartsOf(db, slots, order, receipts, parts) && i < |order|
    ensures Once(parts[i].attempts)
  {
    var a := order[i];
    assert a in order;
    var rs := ReceiptsOf(db, a, receipts);
    assert ActionParts(db, slots, a, rs) == Success(parts[i]);
    hide Coherent;
    hide PartsOf;
    hide ReceiptsOf;
    PartsFrom(db, slots, a, rs, parts[i]);
    ReceiptsOnce(db, a, receipts);
    AttemptsOnce(db, slots, a, rs, CanonicalText(parts[i].external));
  }

  ghost predicate ListsOnce(captured: Captured) {
    && Once(captured.externals) && Once(captured.attempts) && Once(captured.postfixes)
    && Once(captured.receipts) && Once(captured.dispatches) && Once(captured.sents)
  }

  ghost function Options<T>(rows: seq<Option<T>>): seq<seq<T>> {
    seq(|rows|, i requires 0 <= i < |rows| => OneOrNone(rows[i]))
  }

  lemma OptionsOnce<T(!new)>(rows: seq<Option<T>>)
    requires forall i, j | 0 <= i < j < |rows| :: rows[i].Some? ==> rows[i] != rows[j]
    ensures Once(Gather(Options(rows)))
  {
    GatherOnce(Options(rows));
  }

  lemma ApartOnce(parts: seq<Parts>)
    requires forall i | 0 <= i < |parts| :: Once(parts[i].attempts)
    requires forall i, j | 0 <= i < j < |parts| :: PartsApart(parts[i], parts[j])
    ensures ListsOnce(Collect(parts))
  {
    CollectIs(parts);
    hide *;
    ApartIs(parts);
    var n := |parts|;
    OptionsOnce(seq(n, i requires 0 <= i < n => parts[i].external));
    OptionsOnce(seq(n, i requires 0 <= i < n => parts[i].postfix));
    OptionsOnce(seq(n, i requires 0 <= i < n => parts[i].receipt));
    OptionsOnce(seq(n, i requires 0 <= i < n => parts[i].dispatch));
    OptionsOnce(seq(n, i requires 0 <= i < n => parts[i].sent));
    ListsAre(parts);
    AttemptListsOnce(parts);
    ListsOnceIs(Collect(parts));
  }

  lemma ApartIs(parts: seq<Parts>)
    requires forall i, j | 0 <= i < j < |parts| :: PartsApart(parts[i], parts[j])
    ensures forall i, j | 0 <= i < j < |parts| ::
      && (parts[i].external.Some? ==> parts[i].external != parts[j].external)
      && (parts[i].postfix.Some? ==> parts[i].postfix != parts[j].postfix)
      && (parts[i].receipt.Some? ==> parts[i].receipt != parts[j].receipt)
      && (parts[i].dispatch.Some? ==> parts[i].dispatch != parts[j].dispatch)
      && (parts[i].sent.Some? ==> parts[i].sent != parts[j].sent)
    ensures forall i, j, t | 0 <= i < j < |parts| && t in parts[i].attempts :: t !in parts[j].attempts
  {
    forall i, j | 0 <= i < j < |parts|
      ensures PartsApart(parts[i], parts[j])
    {
    }
  }

  lemma AttemptListsOnce(parts: seq<Parts>)
    requires forall i | 0 <= i < |parts| :: Once(parts[i].attempts)
    requires forall i, j, t | 0 <= i < j < |parts| && t in parts[i].attempts :: t !in parts[j].attempts
    ensures Once(Gather(Attempts(parts)))
  {
    GatherOnce(Attempts(parts));
  }

  lemma ListsAre(parts: seq<Parts>)
    ensures Externals(parts) == Options(seq(|parts|, i requires 0 <= i < |parts| => parts[i].external))
    ensures Postfixes(parts) == Options(seq(|parts|, i requires 0 <= i < |parts| => parts[i].postfix))
    ensures Receipts(parts) == Options(seq(|parts|, i requires 0 <= i < |parts| => parts[i].receipt))
    ensures Dispatches(parts) == Options(seq(|parts|, i requires 0 <= i < |parts| => parts[i].dispatch))
    ensures Sents(parts) == Options(seq(|parts|, i requires 0 <= i < |parts| => parts[i].sent))
  {
  }

  lemma ListsOnceIs(captured: Captured)
    ensures ListsOnce(captured) <==>
      Once(captured.externals) && Once(captured.attempts) && Once(captured.postfixes)
      && Once(captured.receipts) && Once(captured.dispatches) && Once(captured.sents)
  {
  }

  /** From any coherent tables, in any order of reading, no captured row appears twice. */
  lemma CapturedOnce(db: Db, slots: Slots, orders: Orders, parts: seq<Parts>)
    requires Coherent(db) && OrdersOf(orders, db)
    requires PartsOf(db, slots, orders.actions, orders.receipts, parts)
    ensures ListsOnce(Collect(parts))
  {
    hide Coherent;
    hide ActionParts;
    forall i | 0 <= i < |parts| ensures Once(parts[i].attempts) {
      OwnAttemptsOnce(db, slots, orders.actions, orders.receipts, parts, i);
    }
    forall i, j | 0 <= i < j < |parts| ensures PartsApart(parts[i], parts[j]) {
      PairApart(db, slots, orders.actions, orders.receipts, parts, i, j);
    }
    ApartOnce(parts);
  }

  // ---------- which rows are captured ----------

  ghost predicate AllBack(layout: Layout, book: Book, db: Db, orders: Orders, parts: seq<Parts>)
    requires forall r | r in orders.receipts :: r in db.receipts
  {
    && |parts| == |orders.actions|
    && (forall a :: a in orders.actions <==> a in layout.homes)
    && (forall r :: r in orders.receipts <==> r in layout.pieces)
    && (forall r | r in layout.pieces :: r in db.receipts && db.receipts[r].owner == layout.pieces[r].owner)
    && (forall i | 0 <= i < |parts| ::
          orders.actions[i] in layout.homes
          && parts[i] == BackParts(layout, book, orders.actions[i], ReceiptsOf(db, orders.actions[i], orders.receipts)))
  }

  lemma PartBack(db: Db, layout: Layout, book: Book, slots: Slots, orders: Orders, a: int)
    requires Kept(db, layout) && AllPlaced(layout, db.identities, book, Rows(book.facts.sents))
    requires SlotsIndex(slots, db.identities, db.identities.Keys) && OrdersOf(orders, db)
    requires a in db.actions
    ensures a in layout.homes
    ensures forall r | r in ReceiptsOf(db, a, orders.receipts) :: r in layout.pieces
    ensures ActionParts(db, slots, a, ReceiptsOf(db, a, orders.receipts))
            == Success(BackParts(layout, book, a, ReceiptsOf(db, a, orders.receipts)))
  {
    RowsRendered(db, layout, a);
    OwnersRendered(db, layout);
    var rs := ReceiptsOf(db, a, orders.receipts);
    assert forall r :: r in orders.receipts <==> r in db.receipts;
    hide *;
    PartsBack(db, layout, book, slots, a, rs);
  }

  lemma OwnersRendered(db: Db, layout: Layout)
    requires Kept(db, layout)
    ensures forall r | r in layout.pieces :: r in db.receipts && db.receipts[r].owner == layout.pieces[r].owner
    ensures forall r | r in db.receipts :: r in layout.pieces
  {
    forall r | r in layout.pieces ensures r in db.receipts && db.receipts[r].owner == layout.pieces[r].owner {
      assert db.receipts[r] == ReceiptOf(layout.pieces[r]);
    }
  }

  ghost predicate ReturnsExternals(xs: seq<CapturedExternal>, rows: seq<External>) {
    forall x :: x in xs <==> exists e :: e in rows && x == BackExternal(e)
  }

  lemma ExternalHome(layout: Layout, ids: Identities, book: Book, e: External) returns (a: int)
    requires ExternalsPlaced(layout, ids, book.canon) && ByKey(book.canon.rows, book.facts.externals)
    requires e in book.facts.externals
    ensures a in layout.homes && CanonicalRow(layout.homes[a], book.canon.rows) == Some(e)
  {
    assert ExternalPlaced(layout, ids, book.canon, e.key);
    a := book.canon.owners[e.key];
  }

  /** The part of an Action, wherever it comes in the order. */
  lemma PartAt(layout: Layout, book: Book, db: Db, orders: Orders, parts: seq<Parts>, a: int) returns (i: nat)
    requires (forall r | r in orders.receipts :: r in db.receipts) && AllBack(layout, book, db, orders, parts) && a in layout.homes
    ensures i < |parts| && i < |orders.actions| && orders.actions[i] == a
    ensures forall r | r in ReceiptsOf(db, a, orders.receipts) :: r in layout.pieces
    ensures parts[i] == BackParts(layout, book, a, ReceiptsOf(db, a, orders.receipts))
  {
    assert a in orders.actions;
    i :| 0 <= i < |orders.actions| && orders.actions[i] == a;
    hide BackParts;
  }

  lemma PartFrom(layout: Layout, book: Book, db: Db, orders: Orders, parts: seq<Parts>, i: nat) returns (a: int)
    requires (forall r | r in orders.receipts :: r in db.receipts) && AllBack(layout, book, db, orders, parts) && i < |parts|
    ensures a in layout.homes
    ensures forall r | r in ReceiptsOf(db, a, orders.receipts) :: r in layout.pieces
    ensures parts[i] == BackParts(layout, book, a, ReceiptsOf(db, a, orders.receipts))
  {
    a := orders.actions[i];
    hide BackParts;
  }

  lemma BackExternalIn(layout: Layout, book: Book, a: int, rs: seq<int>, x: CapturedExternal)
    requires a in layout.homes && forall r | r in rs :: r in layout.pieces
    ensures BackParts(layout, book, a, rs).external == Some(x) <==>
      CanonicalRow(layout.homes[a], book.canon.rows).Some? && x == BackExternal(CanonicalRow(layout.homes[a], book.canon.rows).value)
  {
    hide CanonicalRow;
    hide BackExternal;
  }

  lemma ExternalSource(home: Home, book: Book)
    requires ByKey(book.canon.rows, book.facts.externals) && CanonicalRow(home, book.canon.rows).Some?
    ensures CanonicalRow(home, book.canon.rows).value in book.facts.externals
  {
  }

  lemma ExternalsReturned(layout: Layout, ids: Identities, book: Book, db: Db, orders: Orders, parts: seq<Parts>)
    requires (forall r | r in orders.receipts :: r in db.receipts) && AllBack(layout, book, db, orders, parts)
    requires ExternalsPlaced(layout, ids, book.canon) && ByKey(book.canon.rows, book.facts.externals)
    ensures ReturnsExternals(Gather(Externals(parts)), book.facts.externals)
  {
    hide ExternalsPlaced;
    hide AllBack;
    hide ByKey;
    hide CanonicalRow;
    hide BackExternal;
    hide BackParts;
    hide ReceiptsOf;
    var xs := Gather(Externals(parts));
    forall x | x in xs ensures exists e :: e in book.facts.externals && x == BackExternal(e) {
      var i :| 0 <= i < |parts| && x in Externals(parts)[i];
      var a := PartFrom(layout, book, db, orders, parts, i);
      BackExternalIn(layout, book, a, ReceiptsOf(db, a, orders.receipts), x);
      ExternalSource(layout.homes[a], book);
    }
    forall e | e in book.facts.externals ensures BackExternal(e) in xs {
      var a := ExternalHome(layout, ids, book, e);
      var i := PartAt(layout, book, db, orders, parts, a);
      BackExternalIn(layout, book, a, ReceiptsOf(db, a, orders.receipts), BackExternal(e));
      assert BackExternal(e) in Externals(parts)[i];
    }
  }

  ghost predicate ReturnsAttempts(xs: seq<CapturedAttempt>, rows: seq<Attempt>) {
    forall x :: x in xs <==> exists t :: t in rows && x == BackAttempt(t)
  }

  lemma AttemptSourceOf(layout: Layout, ids: Identities, book: Book, a: int, rs: seq<int>, x: CapturedAttempt) returns (t: Attempt)
    requires a in layout.homes && forall r | r in rs :: r in layout.pieces
    requires AttemptsPlaced(layout, ids, book.plan, book.canon, book.Attempts())
    requires x in BackParts(layout, book, a, rs).attempts
    ensures t in book.facts.attempts && x == BackAttempt(t)
  {
    hide AttemptPlaced;
    var r :| r in rs && layout.pieces[r].origin.Observed? && x == BackAttempt(layout.pieces[r].origin.attempt);
    t := layout.pieces[r].origin.attempt;
    assert t in book.Attempts();
  }

  lemma AttemptOwnerOf(layout: Layout, ids: Identities, book: Book, t: Attempt) returns (a: int, r: int)
    requires AttemptsPlaced(layout, ids, book.plan, book.canon, book.Attempts()) && t in book.facts.attempts
    ensures a in layout.homes && r in layout.pieces && layout.pieces[r].owner == a
    ensures layout.pieces[r].origin.Observed? && layout.pieces[r].origin.attempt == t
  {
    assert t in book.Attempts() && AttemptPlaced(layout, ids, book.plan, book.canon, t);
    var at := ids[(CandidateAttempt, IntegerId(t.id))];
    a, r := at.action, at.receipt.value;
  }

  lemma PieceRead(layout: Layout, book: Book, db: Db, orders: Orders, parts: seq<Parts>, r: int)
    requires (forall x | x in orders.receipts :: x in db.receipts) && AllBack(layout, book, db, orders, parts)
    requires r in layout.pieces
    ensures r in ReceiptsOf(db, layout.pieces[r].owner, orders.receipts)
  {
  }

  lemma AttemptsReturned(layout: Layout, ids: Identities, book: Book, db: Db, orders: Orders, parts: seq<Parts>)
    requires (forall r | r in orders.receipts :: r in db.receipts) && AllBack(layout, book, db, orders, parts)
    requires AttemptsPlaced(layout, ids, book.plan, book.canon, book.Attempts())
    ensures ReturnsAttempts(Gather(Attempts(parts)), book.facts.attempts)
  {
    hide AllBack;
    hide AttemptsPlaced;
    hide BackAttempt;
    hide ReceiptsOf;
    var xs := Gather(Attempts(parts));
    forall x | x in xs ensures exists t :: t in book.facts.attempts && x == BackAttempt(t) {
      var i :| 0 <= i < |parts| && x in Attempts(parts)[i];
      hide BackParts;
      var a := PartFrom(layout, book, db, orders, parts, i);
      var t := AttemptSourceOf(layout, ids, book, a, ReceiptsOf(db, a, orders.receipts), x);
    }
    forall t | t in book.facts.attempts ensures BackAttempt(t) in xs {
      var a, r := AttemptOwnerOf(layout, ids, book, t);
      var i := PartAt(layout, book, db, orders, parts, a);
      PieceRead(layout, book, db, orders, parts, r);
      assert BackAttempt(t) in BackAttempts(layout, ReceiptsOf(db, a, orders.receipts));
      assert BackAttempt(t) in Attempts(parts)[i];
    }
  }

  ghost predicate ReturnsSents(xs: seq<CapturedSent>, ids: Identities, canon: map<string, External>, rows: seq<Sent>) {
    && (forall s | s in rows :: (SentReply, IntegerId(s.id)) in ids)
    && forall x :: x in xs <==> exists s :: s in rows && x == BackSent(canon, s, ids[(SentReply, IntegerId(s.id))].action)
  }

  lemma ReplyPlace(layout: Layout, ids: Identities, canon: Canon, rows: set<Sent>, s: Sent)
    requires SentsPlaced(layout, ids, canon, rows) && s in rows
    ensures (SentReply, IntegerId(s.id)) in ids
    ensures
      var a := ids[(SentReply, IntegerId(s.id))].action;
      a in layout.homes && layout.homes[a].sent == Some(s)
  {
    assert SentPlaced(layout, ids, canon, s);
  }

  lemma ReplyHere(layout: Layout, ids: Identities, canon: Canon, rows: set<Sent>, a: int)
    requires SentsPlaced(layout, ids, canon, rows) && a in layout.homes && layout.homes[a].sent.Some?
    ensures
      var s := layout.homes[a].sent.value;
      s in rows && (SentReply, IntegerId(s.id)) in ids && ids[(SentReply, IntegerId(s.id))].action == a
  {
    assert SentPlaced(layout, ids, canon, layout.homes[a].sent.value);
  }

  lemma BackSentIn(layout: Layout, book: Book, a: int, rs: seq<int>, x: CapturedSent)
    requires a in layout.homes && forall r | r in rs :: r in layout.pieces
    ensures BackParts(layout, book, a, rs).sent == Some(x) <==>
      layout.homes[a].sent.Some? && x == BackSent(book.canon.rows, layout.homes[a].sent.value, a)
  {
    hide BackSent;
  }

  lemma SentsReturned(layout: Layout, ids: Identities, book: Book, db: Db, orders: Orders, parts: seq<Parts>)
    requires (forall r | r in orders.receipts :: r in db.receipts) && AllBack(layout, book, db, orders, parts)
    requires SentsPlaced(layout, ids, book.canon, Rows(book.facts.sents))
    ensures ReturnsSents(Gather(Sents(parts)), ids, book.canon.rows, book.facts.sents)
  {
    hide AllBack;
    hide SentsPlaced;
    hide BackParts;
    hide BackSent;
    hide ReceiptsOf;
    var xs := Gather(Sents(parts));
    forall s | s in book.facts.sents
      ensures (SentReply, IntegerId(s.id)) in ids && BackSent(book.canon.rows, s, ids[(SentReply, IntegerId(s.id))].action) in xs
    {
      ReplyPlace(layout, ids, book.canon, Rows(book.facts.sents), s);
      var a := ids[(SentReply, IntegerId(s.id))].action;
      var i := PartAt(layout, book, db, orders, parts, a);
      BackSentIn(layout, book, a, ReceiptsOf(db, a, orders.receipts), BackSent(book.canon.rows, s, a));
      assert BackSent(book.canon.rows, s, a) in Sents(parts)[i];
    }
    forall x | x in xs
      ensures exists s :: s in book.facts.sents && x == BackSent(book.canon.rows, s, ids[(SentReply, IntegerId(s.id))].action)
    {
      var i :| 0 <= i < |parts| && x in Sents(parts)[i];
      var a := PartFrom(layout, book, db, orders, parts, i);
      BackSentIn(layout, book, a, ReceiptsOf(db, a, orders.receipts), x);
      ReplyHere(layout, ids, book.canon, Rows(book.facts.sents), a);
    }
  }

  // ---------- prepared messages, and the reply that may share their Action ----------

  /** The reply that ended up on the Action of prepared message `p`, told from the facts alone. */
  ghost predicate SharedReply(book: Book, p: Postfix, reply: Option<Sent>) {
    if reply.Some? then reply.value in book.facts.sents && SharesAction(book, reply.value.key, p)
    else forall s | s in book.facts.sents :: !SharesAction(book, s.key, p)
  }

  lemma ReplyOf(db: Db, layout: Layout, book: Book, a: int, p: Postfix, reply: Option<Sent>)
    requires Kept(db, layout) && AllPlaced(layout, db.identities, book, Rows(book.facts.sents))
    requires a in layout.homes && layout.homes[a].postfix == Some(p)
    ensures SharedReply(book, p, reply) <==> layout.homes[a].sent == reply
  {
    var home := layout.homes[a];
    AllPlacedIs(layout, db.identities, book, Rows(book.facts.sents));
    ReplyListed(layout, db.identities, book, Rows(book.facts.sents), a);
    hide *;
    SharedReplyIs(book, p, reply);
    forall s | s in book.facts.sents ensures SharesAction(book, s.key, p) <==> home.sent == Some(s) {
      RowsIs(book.facts.sents, s);
      ReplyAt(db, layout, book, Rows(book.facts.sents), a, p, s);
    }
  }

  lemma SharedReplyIs(book: Book, p: Postfix, reply: Option<Sent>)
    ensures SharedReply(book, p, reply) <==>
      if reply.Some? then reply.value in book.facts.sents && SharesAction(book, reply.value.key, p)
      else forall s | s in book.facts.sents :: !SharesAction(book, s.key, p)
  {
  }

  ghost predicate MessageOf(book: Book, p: Postfix, reply: Option<Sent>) {
    p in book.facts.postfixes && SharedReply(book, p, reply)
  }

  ghost predicate ReturnsMessages(
    postfixes: seq<CapturedPostfix>, receipts: seq<CapturedReceipt>, dispatches: seq<CapturedDispatch>, book: Book)
  {
    && (forall x :: x in postfixes <==> exists p, reply :: MessageOf(book, p, reply) && x == BackPostfix(book.facts, p, reply))
    && (forall x :: x in receipts <==> exists p, reply :: MessageOf(book, p, reply) && Some(x) == BackReceipt(book.facts, p, reply))
    && (forall x :: x in dispatches <==> exists p, reply :: MessageOf(book, p, reply) && Some(x) == BackDispatch(book.facts, p, reply))
  }

  /** Every Action with a prepared message holds one of the facts, and every one of them is on an Action. */
  lemma MessageHomes(db: Db, layout: Layout, book: Book)
    requires Kept(db, layout) && AllPlaced(layout, db.identities, book, Rows(book.facts.sents))
    ensures forall a | a in layout.homes && layout.homes[a].postfix.Some? ::
      MessageOf(book, layout.homes[a].postfix.value, layout.homes[a].sent)
    ensures forall p, reply | MessageOf(book, p, reply) ::
      exists a :: a in layout.homes && layout.homes[a].postfix == Some(p) && layout.homes[a].sent == reply
  {
    AllPlacedIs(layout, db.identities, book, Rows(book.facts.sents));
    hide AllPlaced;
    hide Kept;
    hide SharedReply;
    forall a | a in layout.homes && layout.homes[a].postfix.Some?
      ensures MessageOf(book, layout.homes[a].postfix.value, layout.homes[a].sent)
    {
      PlacedHere(layout, db.identities, book, layout.homes[a].postfix.value, a);
      ReplyOf(db, layout, book, a, layout.homes[a].postfix.value, layout.homes[a].sent);
    }
    forall p, reply | MessageOf(book, p, reply)
      ensures exists a :: a in layout.homes && layout.homes[a].postfix == Some(p) && layout.homes[a].sent == reply
    {
      var a := MessageAt(layout, db.identities, book, p);
      ReplyOf(db, layout, book, a, p, reply);
    }
  }

  ghost predicate PartIs(part: Parts, book: Book, p: Postfix, reply: Option<Sent>) {
    && part.postfix == Some(BackPostfix(book.facts, p, reply))
    && part.receipt == BackReceipt(book.facts, p, reply)
    && part.dispatch == BackDispatch(book.facts, p, reply)
  }

  predicate HasMessage(part: Parts) { part.postfix.Some? || part.receipt.Some? || part.dispatch.Some? }

  lemma MessagePart(layout: Layout, book: Book, db: Db, orders: Orders, parts: seq<Parts>, p: Postfix, reply: Option<Sent>)
    returns (i: nat)
    requires (forall r | r in orders.receipts :: r in db.receipts) && AllBack(layout, book, db, orders, parts)
    requires exists a :: a in layout.homes && layout.homes[a].postfix == Some(p) && layout.homes[a].sent == reply
    ensures i < |parts| && PartIs(parts[i], book, p, reply)
  {
    var a :| a in layout.homes && layout.homes[a].postfix == Some(p) && layout.homes[a].sent == reply;
    assert a in orders.actions;
    i :| 0 <= i < |orders.actions| && orders.actions[i] == a;
  }

  lemma MessagePartFrom(layout: Layout, book: Book, db: Db, orders: Orders, parts: seq<Parts>, i: nat)
    requires (forall r | r in orders.receipts :: r in db.receipts) && AllBack(layout, book, db, orders, parts)
    requires forall a | a in layout.homes && layout.homes[a].postfix.Some? ::
      MessageOf(book, layout.homes[a].postfix.value, layout.homes[a].sent)
    requires i < |parts| && HasMessage(parts[i])
    ensures exists p, reply :: MessageOf(book, p, reply) && PartIs(parts[i], book, p, reply)
  {
    hide MessageOf;
    var home := layout.homes[orders.actions[i]];
    assert MessageOf(book, home.postfix.value, home.sent) && PartIs(parts[i], book, home.postfix.value, home.sent);
  }

  lemma MessagesReturned(db: Db, layout: Layout, book: Book, orders: Orders, parts: seq<Parts>)
    requires Kept(db, layout) && AllPlaced(layout, db.identities, book, Rows(book.facts.sents))
    requires (forall r | r in orders.receipts :: r in db.receipts) && AllBack(layout, book, db, orders, parts)
    ensures ReturnsMessages(Gather(Postfixes(parts)), Gather(Receipts(parts)), Gather(Dispatches(parts)), book)
  {
    hide *;
    MessageHomes(db, layout, book);
    forall i: nat | i < |parts| && HasMessage(parts[i])
      ensures exists p, reply :: MessageOf(book, p, reply) && PartIs(parts[i], book, p, reply)
    {
      MessagePartFrom(layout, book, db, orders, parts, i);
    }
    forall p, reply | MessageOf(book, p, reply)
      ensures exists i: nat :: i < |parts| && PartIs(parts[i], book, p, reply)
    {
      var i := MessagePart(layout, book, db, orders, parts, p, reply);
    }
    MessagesFrom(parts, book);
    MessagesTo(parts, book);
    MessagesAre(Gather(Postfixes(parts)), Gather(Receipts(parts)), Gather(Dispatches(parts)), book);
  }

  lemma MessagesAre(
    postfixes: seq<CapturedPostfix>, receipts: seq<CapturedReceipt>, dispatches: seq<CapturedDispatch>, book: Book)
    requires forall x | x in postfixes :: exists p, reply :: MessageOf(book, p, reply) && x == BackPostfix(book.facts, p, reply)
    requires forall x | x in receipts :: exists p, reply :: MessageOf(book, p, reply) && Some(x) == BackReceipt(book.facts, p, reply)
    requires forall x | x in dispatches ::
      exists p, reply :: MessageOf(book, p, reply) && Some(x) == BackDispatch(book.facts, p, reply)
    requires forall p, reply | MessageOf(book, p, reply) ::
      && BackPostfix(book.facts, p, reply) in postfixes
      && (BackReceipt(book.facts, p, reply).Some? ==> BackReceipt(book.facts, p, reply).value in receipts)
      && (BackDispatch(book.facts, p, reply).Some? ==> BackDispatch(book.facts, p, reply).value in dispatches)
    ensures ReturnsMessages(postfixes, receipts, dispatches, book)
  {
    hide MessageOf;
    hide BackPostfix;
    hide BackReceipt;
    hide BackDispatch;
  }

  lemma MessagesTo(parts: seq<Parts>, book: Book)
    requires forall p, reply | MessageOf(book, p, reply) :: exists i: nat :: i < |parts| && PartIs(parts[i], book, p, reply)
    ensures forall p, reply | MessageOf(book, p, reply) ::
      && BackPostfix(book.facts, p, reply) in Gather(Postfixes(parts))
      && (BackReceipt(book.facts, p, reply).Some? ==> BackReceipt(book.facts, p, reply).value in Gather(Receipts(parts)))
      && (BackDispatch(book.facts, p, reply).Some? ==> BackDispatch(book.facts, p, reply).value in Gather(Dispatches(parts)))
  {
    hide MessageOf;
    hide BackPostfix;
    hide BackReceipt;
    hide BackDispatch;
    forall p, reply | MessageOf(book, p, reply)
      ensures BackPostfix(book.facts, p, reply) in Gather(Postfixes(parts))
      ensures BackReceipt(book.facts, p, reply).Some? ==> BackReceipt(book.facts, p, reply).value in Gather(Receipts(parts))
      ensures BackDispatch(book.facts, p, reply).Some? ==> BackDispatch(book.facts, p, reply).value in Gather(Dispatches(parts))
    {
      var i: nat :| i < |parts| && PartIs(parts[i], book, p, reply);
      assert BackPostfix(book.facts, p, reply) in Postfixes(parts)[i];
      assert parts[i].receipt.Some? ==> parts[i].receipt.value in Receipts(parts)[i];
      assert parts[i].dispatch.Some? ==> parts[i].dispatch.value in Dispatches(parts)[i];
    }
  }

  lemma MessagesFrom(parts: seq<Parts>, book: Book)
    requires forall i: nat | i < |parts| && HasMessage(parts[i]) ::
      exists p, reply :: MessageOf(book, p, reply) && PartIs(parts[i], book, p, reply)
    ensures forall x | x in Gather(Postfixes(parts)) ::
      exists p, reply :: MessageOf(book, p, reply) && x == BackPostfix(book.facts, p, reply)
    ensures forall x | x in Gather(Receipts(parts)) ::
      exists p, reply :: MessageOf(book, p, reply) && Some(x) == BackReceipt(book.facts, p, reply)
    ensures forall x | x in Gather(Dispatches(parts)) ::
      exists p, reply :: MessageOf(book, p, reply) && Some(x) == BackDispatch(book.facts, p, reply)
  {
    hide MessageOf;
    hide BackPostfix;
    hide BackReceipt;
    hide BackDispatch;
    forall x | x in Gather(Postfixes(parts))
      ensures exists p, reply :: MessageOf(book, p, reply) && x == BackPostfix(book.facts, p, reply)
    {
      var i: nat :| i < |parts| && x in Postfixes(parts)[i];
      assert parts[i].postfix == Some(x) && HasMessage(parts[i]);
    }
    forall x | x in Gather(Receipts(parts))
      ensures exists p, reply :: MessageOf(book, p, reply) && Some(x) == BackReceipt(book.facts, p, reply)
    {
      var i: nat :| i < |parts| && x in Receipts(parts)[i];
      assert parts[i].receipt == Some(x) && HasMessage(parts[i]);
    }
    forall x | x in Gather(Dispatches(parts))
      ensures exists p, reply :: MessageOf(book, p, reply) && Some(x) == BackDispatch(book.facts, p, reply)
    {
      var i: nat :| i < |parts| && x in Dispatches(parts)[i];
      assert parts[i].dispatch == Some(x) && HasMessage(parts[i]);
    }
  }

  // ---------- observers, and the closing check ----------

  function BackObserver(ids: Identities, o: Observer): CapturedObserver
    requires (SentReply, IntegerId(o.sent)) in ids
  {
    CapturedObserver(ids[(SentReply, IntegerId(o.sent))].action, o.run, o.task, o.createdAt,
                     if o.sent != 0 then Some((IntegerId(o.sent), o.run)) else None)
  }

  ghost predicate ReturnsObservers(xs: seq<CapturedObserver>, ids: Identities, rows: seq<Observer>) {
    && (forall o | o in rows :: (SentReply, IntegerId(o.sent)) in ids)
    && forall x :: x in xs <==> exists o :: o in rows && x == BackObserver(ids, o)
  }

  /** Only one reply identity points at an Action, so the index finds the observed one. */
  lemma FirstReply(
    layout: Layout, ids: Identities, canon: Canon, sents: set<Sent>, firsts: map<(Family, int), Identity>, number: int)
    requires SentsPlaced(layout, ids, canon, sents) && FirstsIndex(firsts, ids, ids.Keys)
    requires (SentReply, IntegerId(number)) in ids
    ensures
      var a := ids[(SentReply, IntegerId(number))].action;
      (SentReply, a) in firsts && firsts[(SentReply, a)] == IntegerId(number)
  {
    var k := (SentReply, IntegerId(number));
    assert k in ids.Keys && (k.0, ids[k].action) in firsts;
    var s :| s in sents && IntegerId(number) == IntegerId(s.id);
    var other := firsts[(SentReply, ids[k].action)];
    var u :| u in sents && other == IntegerId(u.id);
    assert SentPlaced(layout, ids, canon, s) && SentPlaced(layout, ids, canon, u);
  }

  lemma ObserverBack(
    db: Db, layout: Layout, canon: Canon, sents: set<Sent>, firsts: map<(Family, int), Identity>,
    rows: set<Observer>, o: Observer)
    requires SentsPlaced(layout, db.identities, canon, sents) && FirstsIndex(firsts, db.identities, db.identities.Keys)
    requires ObserversPlaced(db.observers, db.identities, rows) && o in rows
    ensures (SentReply, IntegerId(o.sent)) in db.identities
    ensures
      var pair := (db.identities[(SentReply, IntegerId(o.sent))].action, o.run);
      pair in db.observers && ObserverPart(db, firsts, pair) == Success(BackObserver(db.identities, o))
  {
    ObserverThere(db.observers, db.identities, rows, o);
    FirstReply(layout, db.identities, canon, sents, firsts, o.sent);
    hide ObserversPlaced;
    hide SentsPlaced;
    hide FirstsIndex;
  }

  lemma ObserverThere(observers: map<(int, int), Observation>, ids: Identities, rows: set<Observer>, o: Observer)
    requires ObserversPlaced(observers, ids, rows) && o in rows
    ensures (SentReply, IntegerId(o.sent)) in ids
    ensures
      var pair := (ids[(SentReply, IntegerId(o.sent))].action, o.run);
      pair in observers && observers[pair] == Observation(o.task, o.createdAt)
  {
    assert ObserverPlaced(observers, ids, o);
  }

  lemma ObserverFrom(observers: map<(int, int), Observation>, ids: Identities, rows: set<Observer>, pair: (int, int))
    returns (o: Observer)
    requires ObserversPlaced(observers, ids, rows) && pair in observers
    ensures o in rows && (SentReply, IntegerId(o.sent)) in ids
    ensures pair == (ids[(SentReply, IntegerId(o.sent))].action, o.run)
  {
    o :| o in rows && (SentReply, IntegerId(o.sent)) in ids && pair == (ids[(SentReply, IntegerId(o.sent))].action, o.run);
  }

  lemma ObserversSucceed(
    db: Db, layout: Layout, canon: Canon, sents: set<Sent>, firsts: map<(Family, int), Identity>, rows: set<Observer>)
    requires SentsPlaced(layout, db.identities, canon, sents) && FirstsIndex(firsts, db.identities, db.identities.Keys)
    requires ObserversPlaced(db.observers, db.identities, rows)
    ensures forall pair | pair in db.observers :: ObserverPart(db, firsts, pair).Success?
  {
    forall pair | pair in db.observers ensures ObserverPart(db, firsts, pair).Success? {
      var o := ObserverFrom(db.observers, db.identities, rows, pair);
      ObserverBack(db, layout, canon, sents, firsts, rows, o);
    }
  }

  lemma ObserversReturned(
    db: Db, layout: Layout, canon: Canon, sents: set<Sent>, firsts: map<(Family, int), Identity>,
    rows: seq<Observer>, order: seq<(int, int)>, xs: seq<CapturedObserver>)
    requires SentsPlaced(layout, db.identities, canon, sents) && FirstsIndex(firsts, db.identities, db.identities.Keys)
    requires ObserversPlaced(db.observers, db.identities, Rows(rows))
    requires (forall pair :: pair in order <==> pair in db.observers) && Once(order) && |xs| == |order|
    requires forall i | 0 <= i < |order| :: ObserverPart(db, firsts, order[i]) == Success(xs[i])
    ensures ReturnsObservers(xs, db.identities, rows) && Once(xs)
  {
    hide SentsPlaced;
    hide FirstsIndex;
    forall o | o in rows ensures (SentReply, IntegerId(o.sent)) in db.identities && BackObserver(db.identities, o) in xs {
      assert o in Rows(rows);
      ObserverBack(db, layout, canon, sents, firsts, Rows(rows), o);
      var pair := (db.identities[(SentReply, IntegerId(o.sent))].action, o.run);
      assert pair in order;
      var i :| 0 <= i < |order| && order[i] == pair;
    }
    forall i | 0 <= i < |xs|
      ensures (xs[i].action, xs[i].run) == order[i]
      ensures exists o :: o in rows && xs[i] == BackObserver(db.identities, o)
    {
      assert order[i] in db.observers;
      var o := ObserverFrom(db.observers, db.identities, Rows(rows), order[i]);
      ObserverBack(db, layout, canon, sents, firsts, Rows(rows), o);
    }
  }

  lemma ActionColumns(db: Db, layout: Layout, a: int)
    requires Rendered(db, layout) && a in layout.homes
    ensures a in db.actions && db.actions[a].externalKey == layout.homes[a].core.key
    ensures layout.homes[a].postfix.Some? ==> Addressed(db.actions[a])
  {
  }

  lemma RepresentedBack(
    db: Db, layout: Layout, book: Book, orders: Orders, parts: seq<Parts>, a: int)
    requires Rendered(db, layout) && Represented(layout, db.identities) && a in db.actions
    requires (forall r | r in orders.receipts :: r in db.receipts) && AllBack(layout, book, db, orders, parts)
    ensures a in RepresentedActions(db, Gather(Sents(parts)))
  {
    RowsRendered(db, layout, a);
    ActionColumns(db, layout, a);
    assert Shown(layout.homes[a]) || FactMapped(db.identities, a);
    hide Rendered;
    hide Represented;
    hide Addressed;
    if layout.homes[a].sent.Some? {
      assert a in orders.actions;
      var i :| 0 <= i < |orders.actions| && orders.actions[i] == a;
      assert BackSent(book.canon.rows, layout.homes[a].sent.value, a) in Sents(parts)[i];
    } else if FactMapped(db.identities, a) {
      var k :| k in db.identities && (k.0 == ExternalResult || k.0 == CandidateAttempt) && db.identities[k].action == a;
      assert k.0 in MAPPED_FAMILIES;
    }
  }

  lemma AllBackIs(db: Db, layout: Layout, book: Book, slots: Slots, orders: Orders, parts: seq<Parts>)
    requires Kept(db, layout) && AllPlaced(layout, db.identities, book, Rows(book.facts.sents))
    requires SlotsIndex(slots, db.identities, db.identities.Keys) && OrdersOf(orders, db)
    requires PartsOf(db, slots, orders.actions, orders.receipts, parts)
    ensures AllBack(layout, book, db, orders, parts)
  {
    hide *;
    OwnersRendered(db, layout);
    HomesRendered(db, layout);
    OrdersOfIs(orders, db);
    PartsCount(db, slots, orders, parts);
    forall i | 0 <= i < |parts|
      ensures orders.actions[i] in layout.homes
      ensures parts[i] == BackParts(layout, book, orders.actions[i], ReceiptsOf(db, orders.actions[i], orders.receipts))
    {
      assert orders.actions[i] in orders.actions;
      PartBack(db, layout, book, slots, orders, orders.actions[i]);
      PartIsOne(db, slots, orders, parts, i);
    }
    AllBackFrom(layout, book, db, orders, parts);
  }

  lemma PartsCount(db: Db, slots: Slots, orders: Orders, parts: seq<Parts>)
    requires OrdersOf(orders, db) && PartsOf(db, slots, orders.actions, orders.receipts, parts)
    ensures |parts| == |orders.actions|
  {
  }

  lemma PartIsOne(db: Db, slots: Slots, orders: Orders, parts: seq<Parts>, i: nat)
    requires OrdersOf(orders, db) && PartsOf(db, slots, orders.actions, orders.receipts, parts) && i < |parts|
    ensures i < |orders.actions| && orders.actions[i] in db.actions && forall r | r in orders.receipts :: r in db.receipts
    ensures ActionParts(db, slots, orders.actions[i], ReceiptsOf(db, orders.actions[i], orders.receipts)) == Success(parts[i])
  {
    assert orders.actions[i] in orders.actions;
    hide ActionParts;
  }

  lemma AllBackFrom(layout: Layout, book: Book, db: Db, orders: Orders, parts: seq<Parts>)
    requires |parts| == |orders.actions|
    requires forall a :: a in orders.actions <==> a in layout.homes
    requires forall r :: r in orders.receipts <==> r in layout.pieces
    requires forall r | r in layout.pieces :: r in db.receipts && db.receipts[r].owner == layout.pieces[r].owner
    requires forall i | 0 <= i < |parts| ::
      && orders.actions[i] in layout.homes
      && parts[i] == BackParts(layout, book, orders.actions[i], ReceiptsOf(db, orders.actions[i], orders.receipts))
    ensures AllBack(layout, book, db, orders, parts)
  {
    hide BackParts;
    hide ReceiptsOf;
  }

  lemma HomesRendered(db: Db, layout: Layout)
    requires Kept(db, layout)
    ensures db.actions.Keys == layout.homes.Keys && db.receipts.Keys == layout.pieces.Keys
  {
  }

  /** Every list of the inverse, row for row. */
  ghost predicate Recovered(captured: Captured, ids: Identities, book: Book) {
    && ListsOnce(captured) && Once(captured.observers)
    && ReturnsExternals(captured.externals, book.facts.externals)
    && ReturnsAttempts(captured.attempts, book.facts.attempts)
    && ReturnsMessages(captured.postfixes, captured.receipts, captured.dispatches, book)
    && ReturnsSents(captured.sents, ids, book.canon.rows, book.facts.sents)
    && ReturnsObservers(captured.observers, ids, book.facts.observers)
  }

  lemma RecoveredIs(captured: Captured, parts: seq<Parts>, ids: Identities, book: Book)
    requires captured.(observers := []) == Collect(parts)
    requires ListsOnce(Collect(parts)) && Once(captured.observers)
    requires ReturnsExternals(Gather(Externals(parts)), book.facts.externals)
    requires ReturnsAttempts(Gather(Attempts(parts)), book.facts.attempts)
    requires ReturnsMessages(Gather(Postfixes(parts)), Gather(Receipts(parts)), Gather(Dispatches(parts)), book)
    requires ReturnsSents(Gather(Sents(parts)), ids, book.canon.rows, book.facts.sents)
    requires ReturnsObservers(captured.observers, ids, book.facts.observers)
    ensures Recovered(captured, ids, book)
  {
    CollectIs(parts);
    hide Once;
    hide Collect;
    hide Gather;
    hide ReturnsExternals;
    hide ReturnsAttempts;
    hide ReturnsMessages;
    hide ReturnsSents;
    hide ReturnsObservers;
    assert captured.externals == Collect(parts).externals && captured.attempts == Collect(parts).attempts;
    assert captured.postfixes == Collect(parts).postfixes && captured.receipts == Collect(parts).receipts;
    assert captured.dispatches == Collect(parts).dispatches && captured.sents == Collect(parts).sents;
  }

  lemma ActionsSucceed(db: Db, layout: Layout, book: Book, slots: Slots, orders: Orders)
    requires Kept(db, layout) && AllPlaced(layout, db.identities, book, Rows(book.facts.sents))
    requires SlotsIndex(slots, db.identities, db.identities.Keys) && OrdersOf(orders, db)
    ensures forall a | a in db.actions :: ActionParts(db, slots, a, ReceiptsOf(db, a, orders.receipts)).Success?
  {
    hide Kept;
    hide AllPlaced;
    hide SlotsIndex;
    hide ActionParts;
    hide ReceiptsOf;
    forall a | a in db.actions
      ensures ActionParts(db, slots, a, ReceiptsOf(db, a, orders.receipts)).Success?
    {
      PartBack(db, layout, book, slots, orders, a);
    }
  }

  lemma RepresentedAll(db: Db, layout: Layout, book: Book, orders: Orders, parts: seq<Parts>)
    requires Kept(db, layout) && AllPlaced(layout, db.identities, book, Rows(book.facts.sents))
    requires (forall r | r in orders.receipts :: r in db.receipts) && AllBack(layout, book, db, orders, parts)
    ensures forall a | a in db.actions :: a in RepresentedActions(db, Collect(parts).sents)
  {
    hide *;
    AllPlacedIs(layout, db.identities, book, Rows(book.facts.sents));
    FirstPhasesIs(layout, db.identities, book);
    KeptIs(db, layout);
    CollectIs(parts);
    forall a | a in db.actions ensures a in RepresentedActions(db, Collect(parts).sents) {
      RepresentedBack(db, layout, book, orders, parts, a);
    }
  }

  /** The inverse of a published transfer never fails, and returns the facts row for row. */
  method Recover(db: Db, orders: Orders, ghost layout: Layout, ghost book: Book) returns (result: Result<Captured>)
    requires Holds(db, layout, book) && OrdersOf(orders, db)
    ensures result.Success? && Recovered(result.value, db.identities, book)
  {
    hide *;
    OrdersOfIs(orders, db);
    HoldsIs(db, layout, book);
    AllPlacedIs(layout, db.identities, book, Rows(book.facts.sents));
    FirstPhasesIs(layout, db.identities, book);
    KeptIs(db, layout);
    ghost var slots, firsts, parts;
    result, slots, firsts, parts := CaptureInverseFacts(db, orders);
    ActionsSucceed(db, layout, book, slots, orders);
    AllBackIs(db, layout, book, slots, orders, parts);
    ObserversSucceed(db, layout, book.canon, Rows(book.facts.sents), firsts, Rows(book.facts.observers));
    RepresentedAll(db, layout, book, orders, parts);
    CapturedOnce(db, slots, orders, parts);
    ExternalsReturned(layout, db.identities, book, db, orders, parts);
    AttemptsReturned(layout, db.identities, book, db, orders, parts);
    MessagesReturned(db, layout, book, orders, parts);
    SentsReturned(layout, db.identities, book, db, orders, parts);
    ObserversReturned(db, layout, book.canon, Rows(book.facts.sents), firsts, book.facts.observers,
                      orders.observers, result.value.observers);
    RecoveredIs(result.value, parts, db.identities, book);
  }

  lemma OrdersOfIs(orders: Orders, db: Db)
    requires OrdersOf(orders, db)
    ensures (forall a :: a in orders.actions <==> a in db.actions) && Once(orders.actions)
    ensures (forall r :: r in orders.receipts <==> r in db.receipts) && Once(orders.receipts)
    ensures (forall pair :: pair in orders.observers <==> pair in db.observers) && Once(orders.observers)
  {
  }
}
