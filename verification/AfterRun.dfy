/** Reading the facts back after the runtime has worked on the transferred tables. */
module AfterRun {
  import opened Wrappers
  import opened ActionEntity
  import opened TransferModel
  import opened ResultPhase
  import opened CandidatePhase
  import opened PostfixPhase
  import opened Transfer
  import opened Capture
  import RoundTrip
  import opened Recovery
  import opened CapturedColumns
  import L = Ledger

  // ---------- what a run leaves in place ----------

  /** Nothing is lost between the two states, and the identity map is the same. */
  ghost predicate Descends(before: Db, after: Db) {
    Coherent(after) && Extends(before, after) && after.identities == before.identities
  }

  lemma StepIdentities(db: Db, call: L.Call)
    ensures L.Step(db, call).0.identities == db.identities
  {
    hide CanCreateAction;
    hide CanUpdateAction;
    hide CanInsertReceipt;
    hide CanUpdateReceipt;
    hide L.Changed;
    hide L.ChangedReceipt;
  }

  lemma {:induction false} RunIdentities(db: Db, calls: seq<L.Call>)
    ensures L.Run(db, calls).identities == db.identities
    decreases |calls|
  {
    hide L.Step;
    if calls != [] {
      StepIdentities(db, calls[0]);
      RunIdentities(L.Step(db, calls[0]).0, calls[1..]);
    }
  }

  lemma RunDescends(db: Db, calls: seq<L.Call>)
    requires Coherent(db)
    ensures Descends(db, L.Run(db, calls))
  {
    hide Coherent;
    hide Extends;
    L.RunKeepsLedger(db, calls);
    RunIdentities(db, calls);
  }

  // ---------- no Action fails ----------

  /** The map names a binding for every canonical key, and the binding refers to a receipt. */
  ghost predicate ResultsBound(db: Db) {
    forall identity | (ExternalResult, identity) in db.identities ::
      var at := db.identities[(ExternalResult, identity)];
      at.receipt.Some? && at.receipt.value in db.receipts && db.receipts[at.receipt.value].provider.Some?
  }

  lemma TransferBinds(db: Db, layout: Layout, canon: Canon)
    requires Rendered(db, layout) && ExternalsPlaced(layout, db.identities, canon)
    ensures ResultsBound(db)
  {
    forall identity | (ExternalResult, identity) in db.identities
      ensures
        var at := db.identities[(ExternalResult, identity)];
        at.receipt.Some? && at.receipt.value in db.receipts && db.receipts[at.receipt.value].provider.Some?
    {
      assert identity.TextId? && identity.text in canon.rows;
      RoundTrip.ResultThere(layout, db.identities, canon, identity.text);
      RoundTrip.PieceRendered(db, layout, db.identities[(ExternalResult, identity)].receipt.value);
      BindingRefers(canon.owners[identity.text], canon.rows[identity.text], canon.bodies[identity.text]);
    }
    hide Rendered;
    hide ExternalPlaced;
    hide ReceiptOf;
  }

  lemma BindingRefers(owner: int, e: External, body: int)
    ensures ReceiptOf(Piece(owner, Binding(e, body))).provider.Some?
  {
  }

  lemma StillBound(before: Db, after: Db)
    requires ResultsBound(before) && Descends(before, after)
    ensures ResultsBound(after)
  {
    forall identity | (ExternalResult, identity) in after.identities
      ensures
        var at := after.identities[(ExternalResult, identity)];
        at.receipt.Some? && at.receipt.value in after.receipts && after.receipts[at.receipt.value].provider.Some?
    {
      var b := before.identities[(ExternalResult, identity)].receipt.value;
      assert b in before.receipts && SameLineage(before.receipts[b], after.receipts[b]);
    }
    hide Coherent;
  }

  lemma BodyThere(db: Db, r: int)
    requires Coherent(db) && r in db.receipts && db.receipts[r].provider.Some?
    ensures BodyOf(db, db.receipts[r].provider).Some?
  {
    assert ProviderResolves(db.receipts, db.receipts[r]);
    var b := db.receipts[r].provider.value;
    assert b in db.receipts;
    hide Coherent;
  }

  lemma DeliveryThere(db: Db, a: int)
    requires Coherent(db) && a in db.actions && db.actions[a].deliveryReceipt.Some?
    ensures db.actions[a].deliveryReceipt.value in db.receipts
  {
    assert DeliveryResolves(db.receipts, a, db.actions[a]);
    var r := db.actions[a].deliveryReceipt.value;
    assert r in db.receipts;
    hide Coherent;
  }

  lemma {:induction false} GreatestLooks(db: Db, a: int, rs: seq<int>)
    requires a in db.actions && forall r | r in rs :: r in db.receipts
    ensures GreatestBinding(db, a, rs).Some? ==>
      GreatestBinding(db, a, rs).value in db.receipts && db.receipts[GreatestBinding(db, a, rs).value].provider.Some?
  {
    if rs != [] {
      assert rs[|rs| - 1] in rs;
      GreatestLooks(db, a, rs[..|rs| - 1]);
    }
  }

  /** The Action carries the key of a canonical result the transfer took in. */
  predicate KeyMapped(db: Db, a: int)
    requires a in db.actions
  {
    Truthy(db.actions[a].externalKey) && (ExternalResult, TextId(db.actions[a].externalKey.value)) in db.identities
  }

  lemma ExternalSucceeds(db: Db, a: int, rs: seq<int>)
    requires Coherent(db) && ResultsBound(db) && a in db.actions && forall r | r in rs :: r in db.receipts
    ensures ExternalPart(db, a, rs).Success?
    ensures
      var external := ExternalPart(db, a, rs).value;
      && (external.Some? ==> Truthy(db.actions[a].externalKey) && db.actions[a].externalKey == Some(external.value.key))
      && (KeyMapped(db, a) ==> external.Some?)
  {
    if Truthy(db.actions[a].externalKey) {
      var key := db.actions[a].externalKey.value;
      GreatestLooks(db, a, rs);
      var b := BindingOf(db, a, rs, key);
      if b.Some? {
        var r := b.value;
        assert r in db.receipts && db.receipts[r].provider.Some?;
        BodyThere(db, r);
      }
    }
    hide Coherent;
    hide GreatestBinding;
    hide BodyOf;
  }

  lemma OutcomeSucceeds(db: Db, r: int, own: Text, canonical: Text)
    requires Coherent(db) && r in db.receipts
    ensures OwnOutcome(db, own, db.receipts[r].provider, canonical).Success?
  {
    if db.receipts[r].provider.Some? { BodyThere(db, r); }
    hide Coherent;
    hide BodyOf;
  }

  lemma AttemptSucceeds(db: Db, slots: Slots, a: int, r: int, canonical: Text)
    requires Coherent(db) && a in db.actions && r in db.receipts
    ensures AttemptPart(db, slots, a, r, canonical).Success?
  {
    OutcomeSucceeds(db, r, None, canonical);
    hide Coherent;
    hide OwnOutcome;
  }

  /** A captured observation shows the slot, status and clock of its receipt, under the mapped identity. */
  ghost predicate Captures(db: Db, slots: Slots, a: int, r: int, x: CapturedAttempt) {
    && a in db.actions && r in db.receipts && InSlot(db.receipts[r], x)
    && x.id == SlotOf(slots, CandidateAttempt, a, r) && x.status == db.receipts[r].status
    && x.createdAt == db.receipts[r].createdAt && x.key == OrEmpty(db.actions[a].externalKey)
  }

  lemma AttemptCaptures(db: Db, slots: Slots, a: int, r: int, canonical: Text)
    requires a in db.actions && r in db.receipts && AttemptPart(db, slots, a, r, canonical).Success?
    ensures AttemptPart(db, slots, a, r, canonical).value.Some? <==> IsObservation(db.receipts[r])
    ensures IsObservation(db.receipts[r]) ==> Captures(db, slots, a, r, AttemptPart(db, slots, a, r, canonical).value.value)
  {
    hide OwnOutcome;
    hide SlotOf;
  }

  lemma {:induction false} AttemptsSucceed(db: Db, slots: Slots, a: int, rs: seq<int>, canonical: Text)
    requires Coherent(db) && a in db.actions && forall r | r in rs :: r in db.receipts
    ensures AttemptParts(db, slots, a, rs, canonical).Success?
    ensures forall x | x in AttemptParts(db, slots, a, rs, canonical).value :: exists r :: r in rs && Captures(db, slots, a, r, x)
    ensures forall r | r in rs && IsObservation(db.receipts[r]) ::
      exists x :: x in AttemptParts(db, slots, a, rs, canonical).value && Captures(db, slots, a, r, x)
    decreases |rs|
  {
    if rs != [] {
      var last := rs[|rs| - 1];
      assert last in rs;
      AttemptsSucceed(db, slots, a, rs[..|rs| - 1], canonical);
      AttemptSucceeds(db, slots, a, last, canonical);
      AttemptCaptures(db, slots, a, last, canonical);
      assert rs == rs[..|rs| - 1] + [last];
      hide Coherent;
      hide AttemptPart;
      hide Captures;
      hide IsObservation;
    }
  }

  lemma SentSucceeds(db: Db, slots: Slots, a: int, canonical: Text)
    requires Coherent(db) && a in db.actions
    ensures SentPart(db, slots, a, canonical).Success?
    ensures SentPart(db, slots, a, canonical).value.Some? <==> db.actions[a].deliveryReceipt.Some?
    ensures SentPart(db, slots, a, canonical).value.Some? ==> SentPart(db, slots, a, canonical).value.value.action == a
  {
    if db.actions[a].deliveryReceipt.Some? {
      DeliveryThere(db, a);
      OutcomeSucceeds(db, db.actions[a].deliveryReceipt.value, db.receipts[db.actions[a].deliveryReceipt.value].body, canonical);
    }
    hide Coherent;
    hide OwnOutcome;
  }

  /** With every binding in place no Action of coherent tables fails, and its reply is read exactly when it has one. */
  lemma PartsSucceed(db: Db, slots: Slots, a: int, rs: seq<int>)
    requires Coherent(db) && ResultsBound(db) && a in db.actions && forall r | r in rs :: r in db.receipts
    ensures ActionParts(db, slots, a, rs).Success?
    ensures
      var parts := ActionParts(db, slots, a, rs).value;
      && (parts.external.Some? ==> db.actions[a].externalKey == Some(parts.external.value.key))
      && (KeyMapped(db, a) ==> parts.external.Some?)
      && (parts.sent.Some? <==> db.actions[a].deliveryReceipt.Some?) && (parts.sent.Some? ==> parts.sent.value.action == a)
      && (forall x | x in parts.attempts :: exists r :: r in rs && Captures(db, slots, a, r, x))
      && (forall r | r in rs && IsObservation(db.receipts[r]) :: exists x :: x in parts.attempts && Captures(db, slots, a, r, x))
  {
    ExternalSucceeds(db, a, rs);
    var canonical := CanonicalText(ExternalPart(db, a, rs).value);
    AttemptsSucceed(db, slots, a, rs, canonical);
    SentSucceeds(db, slots, a, canonical);
    hide Coherent;
    hide ResultsBound;
    hide ExternalPart;
    hide AttemptParts;
    hide SentPart;
    hide PostfixPart;
    hide ReceiptPart;
    hide DispatchPart;
    hide Captures;
    hide KeyMapped;
  }

  // ---------- exactly when the inverse succeeds ----------

  /** Some predecessor row of the family stands for the Action. */
  ghost predicate MappedAs(db: Db, families: set<Family>, a: int) {
    exists k :: k in db.identities && k.0 in families && db.identities[k].action == a
  }

  /** A predecessor family can be told from the Action. */
  ghost predicate Tellable(db: Db, a: int)
    requires a in db.actions
  {
    || db.actions[a].deliveryReceipt.Some? || MappedAs(db, MAPPED_FAMILIES, a)
    || Truthy(db.actions[a].externalKey) || db.actions[a].planId.Some? || Addressed(db.actions[a])
  }

  ghost predicate ObserverTellable(db: Db, pair: (int, int)) {
    || MappedAs(db, {SentReply}, pair.0)
    || (pair.0 in db.actions && db.actions[pair.0].deliveryReceipt.Some?)
  }

  /** What a caller can check on the tables: every Action and every observed Action can be told. */
  ghost predicate Returnable(db: Db) {
    && (forall a | a in db.actions :: Tellable(db, a))
    && (forall pair | pair in db.observers :: ObserverTellable(db, pair))
  }

  lemma ObserverSucceedsIff(db: Db, firsts: map<(Family, int), Identity>, pair: (int, int))
    requires pair in db.observers && FirstsIndex(firsts, db.identities, db.identities.Keys)
    ensures ObserverPart(db, firsts, pair).Success? <==> ObserverTellable(db, pair)
  {
    var a := pair.0;
    if (SentReply, a) in firsts {
      var k := (SentReply, firsts[(SentReply, a)]);
      assert k in db.identities && db.identities[k].action == a;
    }
    if k :| k in db.identities && k.0 in {SentReply} && db.identities[k].action == a {
      assert k in db.identities.Keys && (k.0, db.identities[k].action) in firsts;
    }
    hide FirstsIndex;
  }

  lemma ReplyRead(db: Db, slots: Slots, orders: Orders, parts: seq<Parts>, a: int)
    requires Coherent(db) && ResultsBound(db) && OrdersOf(orders, db) && a in db.actions
    requires PartsOf(db, slots, orders.actions, orders.receipts, parts)
    ensures (exists x :: x in Collect(parts).sents && x.action == a) <==> db.actions[a].deliveryReceipt.Some?
  {
    forall i | 0 <= i < |parts|
      ensures orders.actions[i] in db.actions
      ensures parts[i].sent.Some? <==> db.actions[orders.actions[i]].deliveryReceipt.Some?
      ensures parts[i].sent.Some? ==> parts[i].sent.value.action == orders.actions[i]
    {
      assert orders.actions[i] in orders.actions;
      PartsSucceed(db, slots, orders.actions[i], ReceiptsOf(db, orders.actions[i], orders.receipts));
    }
    assert a in orders.actions;
    var j :| 0 <= j < |orders.actions| && orders.actions[j] == a;
    hide *;
    if db.actions[a].deliveryReceipt.Some? {
      SentsAre(parts, parts[j].sent.value);
    }
    if x :| x in Collect(parts).sents && x.action == a {
      SentsAre(parts, x);
    }
  }

  lemma RepresentedIff(db: Db, slots: Slots, orders: Orders, parts: seq<Parts>, a: int)
    requires Coherent(db) && ResultsBound(db) && OrdersOf(orders, db) && a in db.actions
    requires PartsOf(db, slots, orders.actions, orders.receipts, parts)
    ensures a in RepresentedActions(db, Collect(parts).sents) <==> Tellable(db, a)
  {
    hide *;
    ReplyRead(db, slots, orders, parts, a);
    RepresentedIs(db, Collect(parts).sents, a);
  }

  lemma RepresentedIs(db: Db, sents: seq<CapturedSent>, a: int)
    requires a in db.actions && ((exists x :: x in sents && x.action == a) <==> db.actions[a].deliveryReceipt.Some?)
    ensures a in RepresentedActions(db, sents) <==> Tellable(db, a)
  {
    hide Truthy;
    hide Addressed;
    assert MappedAs(db, MAPPED_FAMILIES, a) <==> a in (set k | k in db.identities && k.0 in MAPPED_FAMILIES :: db.identities[k].action);
  }

  // ---------- which results and replies come back ----------

  /** The identity map knows every canonical key. */
  ghost predicate ResultsMapped(db: Db, rows: seq<External>) {
    forall e | e in rows :: e.key != "" && (ExternalResult, TextId(e.key)) in db.identities
  }

  /** A canonical result comes back exactly while some Action carries its key, and each Action's reply while it has one. */
  ghost predicate ResultRowsAre(captured: Captured, db: Db, rows: seq<External>) {
    && (forall e | e in rows ::
          (exists x :: x in captured.externals && x.key == e.key)
          <==> exists a :: a in db.actions && db.actions[a].externalKey == Some(e.key))
    && (forall a | a in db.actions ::
          (exists x :: x in captured.sents && x.action == a) <==> db.actions[a].deliveryReceipt.Some?)
  }

  lemma ResultRead(db: Db, slots: Slots, orders: Orders, parts: seq<Parts>, key: string)
    requires Coherent(db) && ResultsBound(db) && OrdersOf(orders, db)
    requires PartsOf(db, slots, orders.actions, orders.receipts, parts)
    requires key != "" && (ExternalResult, TextId(key)) in db.identities
    ensures (exists x :: x in Collect(parts).externals && x.key == key)
      <==> exists a :: a in db.actions && db.actions[a].externalKey == Some(key)
  {
    forall i | 0 <= i < |parts|
      ensures orders.actions[i] in db.actions
      ensures parts[i].external.Some? ==> db.actions[orders.actions[i]].externalKey == Some(parts[i].external.value.key)
      ensures db.actions[orders.actions[i]].externalKey == Some(key) ==> parts[i].external.Some?
    {
      assert orders.actions[i] in orders.actions;
      PartsSucceed(db, slots, orders.actions[i], ReceiptsOf(db, orders.actions[i], orders.receipts));
    }
    assert |parts| == |orders.actions| && forall a :: a in orders.actions <==> a in db.actions;
    hide *;
    if a :| a in db.actions && db.actions[a].externalKey == Some(key) {
      assert a in orders.actions;
      var j :| 0 <= j < |orders.actions| && orders.actions[j] == a;
      ExternalsAre(parts, parts[j].external.value);
    }
    if x :| x in Collect(parts).externals && x.key == key {
      ExternalsAre(parts, x);
    }
  }

  lemma ResultRowsHold(db: Db, slots: Slots, orders: Orders, parts: seq<Parts>, captured: Captured, rows: seq<External>)
    requires Coherent(db) && ResultsBound(db) && OrdersOf(orders, db) && ResultsMapped(db, rows)
    requires PartsOf(db, slots, orders.actions, orders.receipts, parts) && captured.(observers := []) == Collect(parts)
    ensures ResultRowsAre(captured, db, rows)
  {
    hide *;
    SameLists(captured, parts);
    forall e | e in rows
      ensures (exists x :: x in captured.externals && x.key == e.key)
        <==> exists a :: a in db.actions && db.actions[a].externalKey == Some(e.key)
    {
      MappedKey(db, rows, e);
      ResultRead(db, slots, orders, parts, e.key);
    }
    forall a | a in db.actions
      ensures (exists x :: x in captured.sents && x.action == a) <==> db.actions[a].deliveryReceipt.Some?
    {
      ReplyRead(db, slots, orders, parts, a);
    }
    ResultRowsIs(captured, db, rows);
  }

  lemma SameLists(captured: Captured, parts: seq<Parts>)
    requires captured.(observers := []) == Collect(parts)
    ensures captured.externals == Collect(parts).externals && captured.sents == Collect(parts).sents
  {
    hide Collect;
  }

  lemma MappedKey(db: Db, rows: seq<External>, e: External)
    requires ResultsMapped(db, rows) && e in rows
    ensures e.key != "" && (ExternalResult, TextId(e.key)) in db.identities
  {
  }

  lemma ResultRowsIs(captured: Captured, db: Db, rows: seq<External>)
    requires forall e | e in rows ::
      (exists x :: x in captured.externals && x.key == e.key)
      <==> exists a :: a in db.actions && db.actions[a].externalKey == Some(e.key)
    requires forall a | a in db.actions ::
      (exists x :: x in captured.sents && x.action == a) <==> db.actions[a].deliveryReceipt.Some?
    ensures ResultRowsAre(captured, db, rows)
  {
  }

  lemma TransferMapsResults(db: Db, layout: Layout, book: Book)
    requires ExternalsPlaced(layout, db.identities, book.canon) && ByKey(book.canon.rows, book.facts.externals)
    ensures ResultsMapped(db, book.facts.externals)
  {
    forall e | e in book.facts.externals ensures e.key != "" && (ExternalResult, TextId(e.key)) in db.identities {
      RoundTrip.ResultThere(layout, db.identities, book.canon, e.key);
    }
    hide ExternalPlaced;
  }

  // ---------- the bodies of prepared messages ----------

  /** The provider body of every prepared message is on the receipt the map names, on the Action it names. */
  ghost predicate BodiesKept(db: Db, facts: Facts) {
    forall p | p in facts.postfixes && p.Pair() in facts.receipts ::
      var k := (OutboundPostfix, PairId(p.Pair()));
      && k in db.identities && db.identities[k].receipt.Some? && db.identities[k].receipt.value in db.receipts
      && db.receipts[db.identities[k].receipt.value].owner == db.identities[k].action
      && db.receipts[db.identities[k].receipt.value].body == Some(facts.receipts[p.Pair()].body)
  }

  lemma TransferKeepsBodies(db: Db, layout: Layout, facts: Facts)
    requires Rendered(db, layout) && PostfixesPlaced(layout, db.identities, facts, Rows(facts.postfixes))
    ensures BodiesKept(db, facts)
  {
    forall p | p in facts.postfixes && p.Pair() in facts.receipts
      ensures
        var k := (OutboundPostfix, PairId(p.Pair()));
        && k in db.identities && db.identities[k].receipt.Some? && db.identities[k].receipt.value in db.receipts
        && db.receipts[db.identities[k].receipt.value].owner == db.identities[k].action
        && db.receipts[db.identities[k].receipt.value].body == Some(facts.receipts[p.Pair()].body)
    {
      assert p in Rows(facts.postfixes);
      assert PostfixPlaced(layout, db.identities, facts, p);
      RoundTrip.PieceRendered(db, layout, db.identities[(OutboundPostfix, PairId(p.Pair()))].receipt.value);
    }
    hide Rendered;
  }

  /** No call of the runtime takes a provider body off its receipt. */
  lemma BodiesStay(before: Db, after: Db, facts: Facts)
    requires BodiesKept(before, facts) && Descends(before, after)
    ensures BodiesKept(after, facts)
  {
    forall p | p in facts.postfixes && p.Pair() in facts.receipts
      ensures
        var k := (OutboundPostfix, PairId(p.Pair()));
        && k in after.identities && after.identities[k].receipt.Some? && after.identities[k].receipt.value in after.receipts
        && after.receipts[after.identities[k].receipt.value].owner == after.identities[k].action
        && after.receipts[after.identities[k].receipt.value].body == Some(facts.receipts[p.Pair()].body)
    {
      var r := before.identities[(OutboundPostfix, PairId(p.Pair()))].receipt.value;
      assert r in before.receipts && SameLineage(before.receipts[r], after.receipts[r]);
    }
    hide Coherent;
  }

  // ---------- which attempts come back ----------

  /** The identity map names, for every attempt, the receipt in its slot, and knows no other attempts. */
  ghost predicate AttemptsMapped(db: Db, rows: seq<Attempt>) {
    && (forall t | t in rows ::
          var k := (CandidateAttempt, IntegerId(t.id));
          && k in db.identities && db.identities[k].receipt.Some? && db.identities[k].receipt.value in db.receipts
          && var receipt := db.receipts[db.identities[k].receipt.value];
             receipt.owner == db.identities[k].action && receipt.execution == Some(t.execution)
             && receipt.actionIndex == Some(t.index))
    && (forall identity | (CandidateAttempt, identity) in db.identities ::
          exists t :: t in rows && identity == IntegerId(t.id))
  }

  lemma TransferMaps(db: Db, layout: Layout, book: Book)
    requires Rendered(db, layout)
    requires AttemptsPlaced(layout, db.identities, book.plan, book.canon, Rows(book.facts.attempts))
    ensures AttemptsMapped(db, book.facts.attempts)
  {
    forall t | t in book.facts.attempts
      ensures
        var k := (CandidateAttempt, IntegerId(t.id));
        && k in db.identities && db.identities[k].receipt.Some? && db.identities[k].receipt.value in db.receipts
        && var receipt := db.receipts[db.identities[k].receipt.value];
           receipt.owner == db.identities[k].action && receipt.execution == Some(t.execution)
           && receipt.actionIndex == Some(t.index)
    {
      assert t in Rows(book.facts.attempts);
      assert AttemptPlaced(layout, db.identities, book.plan, book.canon, t);
      var r := db.identities[(CandidateAttempt, IntegerId(t.id))].receipt.value;
      assert r in layout.pieces && db.receipts[r] == ReceiptOf(layout.pieces[r]);
    }
    hide Rendered;
    hide AttemptPlaced;
  }

  lemma StillMapped(before: Db, after: Db, rows: seq<Attempt>)
    requires AttemptsMapped(before, rows) && Descends(before, after)
    ensures AttemptsMapped(after, rows)
  {
    forall t | t in rows
      ensures
        var k := (CandidateAttempt, IntegerId(t.id));
        && k in after.identities && after.identities[k].receipt.Some? && after.identities[k].receipt.value in after.receipts
        && var receipt := after.receipts[after.identities[k].receipt.value];
           receipt.owner == after.identities[k].action && receipt.execution == Some(t.execution)
           && receipt.actionIndex == Some(t.index)
    {
      var r := before.identities[(CandidateAttempt, IntegerId(t.id))].receipt.value;
      assert r in before.receipts && SameLineage(before.receipts[r], after.receipts[r]);
    }
    hide Coherent;
    hide Extends;
  }

  /** The receipt of an attempt is read under the attempt's ID. */
  lemma IdentityRead(db: Db, slots: Slots, rows: seq<Attempt>, t: Attempt)
    requires AttemptsMapped(db, rows) && AttemptsUnique(rows) && t in rows
    requires SlotsIndex(slots, db.identities, db.identities.Keys)
    ensures
      var at := db.identities[(CandidateAttempt, IntegerId(t.id))];
      SlotOf(slots, CandidateAttempt, at.action, at.receipt.value) == Some(IntegerId(t.id))
  {
    var k := (CandidateAttempt, IntegerId(t.id));
    assert k in db.identities.Keys;
    var a, r := db.identities[k].action, db.identities[k].receipt.value;
    assert (CandidateAttempt, a, r) in slots;
    var found := slots[(CandidateAttempt, a, r)];
    assert db.identities[(CandidateAttempt, found)] == Mapped(a, Some(r));
    var u :| u in rows && found == IntegerId(u.id);
    SameSlots(rows, t, u);
    hide SlotsIndex;
  }

  lemma SameSlots(rows: seq<Attempt>, t: Attempt, u: Attempt)
    requires AttemptsUnique(rows) && t in rows && u in rows && (t.execution, t.index) == (u.execution, u.index)
    ensures t == u
  {
    var i :| 0 <= i < |rows| && rows[i] == t;
    var j :| 0 <= j < |rows| && rows[j] == u;
  }

  /** An identity read for a receipt is that of the attempt in its slot. */
  lemma IdentityKnown(db: Db, slots: Slots, rows: seq<Attempt>, a: int, r: int)
    requires AttemptsMapped(db, rows) && SlotsIndex(slots, db.identities, db.identities.Keys) && r in db.receipts
    ensures SlotOf(slots, CandidateAttempt, a, r).Some? ==>
      exists t :: t in rows && SlotOf(slots, CandidateAttempt, a, r) == Some(IntegerId(t.id))
        && db.receipts[r].execution == Some(t.execution) && db.receipts[r].actionIndex == Some(t.index)
  {
    if SlotOf(slots, CandidateAttempt, a, r).Some? {
      var found := slots[(CandidateAttempt, a, r)];
      assert db.identities[(CandidateAttempt, found)] == Mapped(a, Some(r));
      var t :| t in rows && found == IntegerId(t.id);
      var k := (CandidateAttempt, IntegerId(t.id));
      assert db.identities[k].receipt.value == r;
    }
    hide SlotsIndex;
  }

  predicate SameSlotAs(x: CapturedAttempt, t: Attempt) { x.execution == t.execution && x.index == t.index }

  /**
   * One captured attempt for each slot there is now; it carries an identity exactly when the slot is that of
   * an attempt the transfer took in, and then that attempt's.
   */
  ghost predicate AttemptRowsAre(xs: seq<CapturedAttempt>, db: Db, rows: seq<Attempt>) {
    && (forall x | x in xs :: exists r :: r in db.receipts && InSlot(db.receipts[r], x) && x.status == db.receipts[r].status)
    && (forall r | r in db.receipts && IsObservation(db.receipts[r]) :: exists x :: x in xs && InSlot(db.receipts[r], x))
    && (forall t | t in rows :: exists x :: x in xs && SameSlotAs(x, t) && x.id == Some(IntegerId(t.id)))
    && (forall x | x in xs && x.id.Some? :: exists t :: t in rows && SameSlotAs(x, t) && x.id == Some(IntegerId(t.id)))
  }

  /** The captured attempts are those of the receipts with a slot, each under its Action. */
  ghost predicate AllCaptured(xs: seq<CapturedAttempt>, db: Db, slots: Slots) {
    && (forall x | x in xs :: exists r :: r in db.receipts && Captures(db, slots, db.receipts[r].owner, r, x))
    && (forall r | r in db.receipts && IsObservation(db.receipts[r]) ::
          exists x :: x in xs && Captures(db, slots, db.receipts[r].owner, r, x))
  }

  lemma PartCaptures(db: Db, slots: Slots, orders: Orders, parts: seq<Parts>, i: nat)
    requires Coherent(db) && ResultsBound(db) && OrdersOf(orders, db) && i < |parts|
    requires PartsOf(db, slots, orders.actions, orders.receipts, parts)
    ensures i < |orders.actions|
    ensures forall x | x in parts[i].attempts ::
      exists r :: r in db.receipts && db.receipts[r].owner == orders.actions[i] && Captures(db, slots, orders.actions[i], r, x)
    ensures forall r | r in db.receipts && db.receipts[r].owner == orders.actions[i] && IsObservation(db.receipts[r]) ::
      exists x :: x in parts[i].attempts && Captures(db, slots, orders.actions[i], r, x)
  {
    var a := orders.actions[i];
    assert a in orders.actions;
    assert forall r :: r in orders.receipts <==> r in db.receipts;
    var rs := ReceiptsOf(db, a, orders.receipts);
    PartsSucceed(db, slots, a, rs);
    hide Coherent;
    hide ResultsBound;
    hide ActionParts;
    hide ReceiptsOf;
    hide Captures;
    hide IsObservation;
  }

  lemma OwnersThere(db: Db)
    requires Coherent(db)
    ensures forall r | r in db.receipts :: db.receipts[r].owner in db.actions
  {
  }

  lemma AllCapturedIs(db: Db, slots: Slots, orders: Orders, parts: seq<Parts>)
    requires Coherent(db) && ResultsBound(db) && OrdersOf(orders, db)
    requires PartsOf(db, slots, orders.actions, orders.receipts, parts)
    ensures AllCaptured(Collect(parts).attempts, db, slots)
  {
    hide *;
    OrdersAre(db, slots, orders, parts);
    forall x | x in Collect(parts).attempts
      ensures exists r :: r in db.receipts && Captures(db, slots, db.receipts[r].owner, r, x)
    {
      AttemptsAre(parts, x);
      var i :| 0 <= i < |parts| && x in parts[i].attempts;
      PartCaptures(db, slots, orders, parts, i);
    }
    forall r | r in db.receipts && IsObservation(db.receipts[r])
      ensures exists x :: x in Collect(parts).attempts && Captures(db, slots, db.receipts[r].owner, r, x)
    {
      ReceiptCaptured(db, slots, orders, parts, r);
    }
    AllCapturedFrom(Collect(parts).attempts, db, slots);
  }

  lemma AllCapturedFrom(xs: seq<CapturedAttempt>, db: Db, slots: Slots)
    requires forall x | x in xs :: exists r :: r in db.receipts && Captures(db, slots, db.receipts[r].owner, r, x)
    requires forall r | r in db.receipts && IsObservation(db.receipts[r]) ::
      exists x :: x in xs && Captures(db, slots, db.receipts[r].owner, r, x)
    ensures AllCaptured(xs, db, slots)
  {
    hide Captures;
    hide IsObservation;
  }

  lemma ReceiptCaptured(db: Db, slots: Slots, orders: Orders, parts: seq<Parts>, r: int)
    requires Coherent(db) && ResultsBound(db) && OrdersOf(orders, db)
    requires PartsOf(db, slots, orders.actions, orders.receipts, parts) && r in db.receipts && IsObservation(db.receipts[r])
    ensures exists x :: x in Collect(parts).attempts && Captures(db, slots, db.receipts[r].owner, r, x)
  {
    hide *;
    OrdersAre(db, slots, orders, parts);
    OwnersThere(db);
    var a := db.receipts[r].owner;
    assert a in orders.actions;
    var i :| 0 <= i < |orders.actions| && orders.actions[i] == a;
    PartCaptures(db, slots, orders, parts, i);
    var x :| x in parts[i].attempts && Captures(db, slots, a, r, x);
    AttemptsAre(parts, x);
  }

  lemma RowsFromCaptured(xs: seq<CapturedAttempt>, db: Db, slots: Slots, rows: seq<Attempt>)
    requires AllCaptured(xs, db, slots) && AttemptsMapped(db, rows) && AttemptsUnique(rows)
    requires SlotsIndex(slots, db.identities, db.identities.Keys)
    ensures AttemptRowsAre(xs, db, rows)
  {
    hide SlotsIndex;
    hide SlotOf;
    hide AttemptsUnique;
    forall t | t in rows ensures exists x :: x in xs && SameSlotAs(x, t) && x.id == Some(IntegerId(t.id)) {
      IdentityRead(db, slots, rows, t);
      var r := db.identities[(CandidateAttempt, IntegerId(t.id))].receipt.value;
      assert r in db.receipts && IsObservation(db.receipts[r]);
      var x :| x in xs && Captures(db, slots, db.receipts[r].owner, r, x);
    }
    forall x | x in xs && x.id.Some? ensures exists t :: t in rows && SameSlotAs(x, t) && x.id == Some(IntegerId(t.id)) {
      var r :| r in db.receipts && Captures(db, slots, db.receipts[r].owner, r, x);
      IdentityKnown(db, slots, rows, db.receipts[r].owner, r);
    }
    hide AttemptsMapped;
  }

  // ---------- the theorem ----------

  lemma HoldsGives(db: Db, layout: Layout, book: Book)
    requires Holds(db, layout, book)
    ensures Coherent(db) && ResultsBound(db) && AttemptsMapped(db, book.facts.attempts)
    ensures ResultsMapped(db, book.facts.externals) && BodiesKept(db, book.facts)
  {
    TransferKeepsBodies(db, layout, book.facts);
    TransferMapsResults(db, layout, book);
    TransferBinds(db, layout, book.canon);
    TransferMaps(db, layout, book);
    hide Coherent;
    hide Rendered;
    hide ResultsBound;
    hide AttemptsMapped;
    hide ResultsMapped;
    hide BodiesKept;
    hide PostfixPlaced;
  }

  lemma ReturnableIs(db: Db, slots: Slots, firsts: map<(Family, int), Identity>, orders: Orders, parts: seq<Parts>)
    requires Coherent(db) && ResultsBound(db) && OrdersOf(orders, db)
    requires PartsOf(db, slots, orders.actions, orders.receipts, parts)
    requires FirstsIndex(firsts, db.identities, db.identities.Keys)
    ensures Returnable(db) <==>
      && (forall pair | pair in db.observers :: ObserverPart(db, firsts, pair).Success?)
      && (forall a | a in db.actions :: a in RepresentedActions(db, Collect(parts).sents))
  {
    forall pair | pair in db.observers ensures ObserverPart(db, firsts, pair).Success? <==> ObserverTellable(db, pair) {
      ObserverSucceedsIff(db, firsts, pair);
    }
    forall a | a in db.actions ensures a in RepresentedActions(db, Collect(parts).sents) <==> Tellable(db, a) {
      RepresentedIff(db, slots, orders, parts, a);
    }
    hide ObserverPart;
    hide ObserverTellable;
    hide RepresentedActions;
    hide Tellable;
  }

  lemma AllSucceed(db: Db, slots: Slots, orders: Orders)
    requires Coherent(db) && ResultsBound(db) && OrdersOf(orders, db)
    ensures forall a | a in db.actions :: ActionParts(db, slots, a, ReceiptsOf(db, a, orders.receipts)).Success?
  {
    assert forall r | r in orders.receipts :: r in db.receipts;
    forall a | a in db.actions ensures ActionParts(db, slots, a, ReceiptsOf(db, a, orders.receipts)).Success? {
      PartsSucceed(db, slots, a, ReceiptsOf(db, a, orders.receipts));
    }
  }

  /**
   * Whatever calls the runtime has made on transferred tables, the inverse succeeds exactly when every Action
   * and every observed Action can be told.  Each attempt taken in then comes back under its ID and slot, and each
   * canonical result whose key some Action still carries.  Every row of every family, what the runtime recorded
   * since included, is told by the columns there are by then, and every provider body taken in is still on the
   * receipt that held it.
   */
  method RecoverAfterRun(ghost start: Db, ghost calls: seq<L.Call>, db: Db, orders: Orders, ghost layout: Layout, ghost book: Book)
    returns (result: Result<Captured>)
    requires Holds(start, layout, book) && AttemptsUnique(book.facts.attempts)
    requires db == L.Run(start, calls) && OrdersOf(orders, db)
    ensures result.Success? <==> Returnable(db)
    ensures result.Success? ==> ListsOnce(result.value) && AttemptRowsAre(result.value.attempts, db, book.facts.attempts)
    ensures result.Success? ==> ResultRowsAre(result.value, db, book.facts.externals)
    ensures result.Success? ==> Told(result.value, db) && BodiesKept(db, book.facts)
  {
    hide *;
    HoldsGives(start, layout, book);
    RunDescends(start, calls);
    DescendsIs(start, db);
    ResultsMappedSame(start, db, book.facts.externals);
    StillBound(start, db);
    StillMapped(start, db, book.facts.attempts);
    BodiesStay(start, db, book.facts);
    ghost var slots, firsts, parts;
    result, slots, firsts, parts := CaptureInverseFacts(db, orders);
    AllSucceed(db, slots, orders);
    ReturnableIs(db, slots, firsts, orders, parts);
    CapturedOnce(db, slots, orders, parts);
    AllCapturedIs(db, slots, orders, parts);
    RowsFromCaptured(Collect(parts).attempts, db, slots, book.facts.attempts);
    if result.Success? {
      OnceWithObservers(result.value, parts);
      ResultRowsHold(db, slots, orders, parts, result.value, book.facts.externals);
      OwnersThere(db);
      RowsTold(db, slots, firsts, orders, parts, result.value);
    }
  }

  lemma DescendsIs(before: Db, after: Db)
    requires Descends(before, after)
    ensures Coherent(after) && after.identities == before.identities
  {
  }

  lemma ResultsMappedSame(before: Db, after: Db, rows: seq<External>)
    requires ResultsMapped(before, rows) && after.identities == before.identities
    ensures ResultsMapped(after, rows)
  {
  }

  lemma OnceWithObservers(captured: Captured, parts: seq<Parts>)
    requires captured.(observers := []) == Collect(parts) && ListsOnce(Collect(parts))
    ensures ListsOnce(captured) && captured.attempts == Collect(parts).attempts
  {
  }

  // ---------- a run after which it does not ----------

  lemma MappedThere(db: Db, layout: Layout, book: Book, k: (Family, Identity))
    requires Holds(db, layout, book) && k in db.identities && k.0 in MAPPED_FAMILIES
    ensures db.identities[k].action in db.actions
  {
    PlacesGive(db, layout, book);
    hide *;
    match k.0
    case ExternalResult => ResultMapped(layout, db.identities, book.canon, k.1);
    case CandidateAttempt => AttemptMappedThere(layout, db.identities, book, k.1);
    case OutboundPostfix => MessageMapped(layout, db.identities, book, k.1);
    case PostfixReceipt => FamiliesAre(k.0);
    case NativeDispatch => FamiliesAre(k.0);
    case SentReply => FamiliesAre(k.0);
    case SentObserver => FamiliesAre(k.0);
  }

  lemma FamiliesAre(family: Family)
    ensures family in MAPPED_FAMILIES <==> family == ExternalResult || family == CandidateAttempt || family == OutboundPostfix
  {
  }

  lemma PlacesGive(db: Db, layout: Layout, book: Book)
    requires Holds(db, layout, book)
    ensures db.actions.Keys == layout.homes.Keys && ExternalsPlaced(layout, db.identities, book.canon)
    ensures AttemptsPlaced(layout, db.identities, book.plan, book.canon, book.Attempts())
    ensures PostfixesPlaced(layout, db.identities, book.facts, Rows(book.facts.postfixes))
  {
    hide Coherent;
    hide ExternalsPlaced;
    hide AttemptsPlaced;
    hide PostfixesPlaced;
  }

  lemma ResultMapped(layout: Layout, ids: Identities, canon: Canon, identity: Identity)
    requires ExternalsPlaced(layout, ids, canon) && (ExternalResult, identity) in ids
    ensures ids[(ExternalResult, identity)].action in layout.homes
  {
    assert ExternalPlaced(layout, ids, canon, identity.text);
  }

  lemma AttemptMappedThere(layout: Layout, ids: Identities, book: Book, identity: Identity)
    requires AttemptsPlaced(layout, ids, book.plan, book.canon, book.Attempts()) && (CandidateAttempt, identity) in ids
    ensures ids[(CandidateAttempt, identity)].action in layout.homes
  {
    var t :| t in book.Attempts() && identity == IntegerId(t.id);
    assert AttemptPlaced(layout, ids, book.plan, book.canon, t);
  }

  lemma MessageMapped(layout: Layout, ids: Identities, book: Book, identity: Identity)
    requires PostfixesPlaced(layout, ids, book.facts, Rows(book.facts.postfixes)) && (OutboundPostfix, identity) in ids
    ensures ids[(OutboundPostfix, identity)].action in layout.homes
  {
    var p :| p in Rows(book.facts.postfixes) && identity == PairId(p.Pair());
    assert PostfixPlaced(layout, ids, book.facts, p);
  }

  /** An Action the runtime creates can be told exactly from its own columns. */
  lemma CreatedTellableIff(db: Db, layout: Layout, book: Book, action: Action)
    requires Holds(db, layout, book) && CanCreateAction(db, action)
    ensures
      var after := L.Step(db, L.Create(action)).0;
      && db.nextAction in after.actions
      && (Tellable(after, db.nextAction) <==> Truthy(action.externalKey) || action.planId.Some? || Addressed(action))
  {
    HoldsGives(db, layout, book);
    CreateActionCoherent(db, action);
    SpentIds(db);
    var after := WithAction(db, action);
    forall k | k in db.identities && k.0 in MAPPED_FAMILIES ensures db.identities[k].action != db.nextAction {
      MappedThere(db, layout, book, k);
    }
    assert !MappedAs(after, MAPPED_FAMILIES, db.nextAction);
    hide Coherent;
    hide Extends;
    hide CanCreateAction;
    hide Truthy;
    hide Addressed;
  }

  lemma SpentIds(db: Db)
    requires Coherent(db)
    ensures db.nextAction !in db.actions
  {
  }
}
