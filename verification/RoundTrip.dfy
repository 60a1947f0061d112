/** What the inverse gives back of the facts a transfer took in, row by row. */
module RoundTrip {
  import opened Wrappers
  import opened ActionEntity
  import opened TransferModel
  import opened PostfixPhase
  import opened SentPhase
  import opened Capture

  // ---------- each row as the inverse returns it ----------

  function BackExternal(e: External): CapturedExternal {
    CapturedExternal(e.key, Some(e.business), Some(e.identity), Some(e.operation), Some(e.target),
                     Some(e.body), Some(e.digest), Some(e.run), Some(e.createdAt))
  }

  function BackAttempt(t: Attempt): CapturedAttempt {
    CapturedAttempt(Some(IntegerId(t.id)), t.execution, t.index, t.key, Some(t.status), t.outcome,
                    Some(t.createdAt), Some(t.updatedAt))
  }

  /** A prepared message comes back with the channel and token of the reply that shares its Action, if any. */
  function BackPostfix(facts: Facts, p: Postfix, reply: Option<Sent>): CapturedPostfix {
    CapturedPostfix(
      if reply.Some? then reply.value.channel else p.channel, p.key,
      if reply.Some? then reply.value.text else p.body,
      if reply.Some? then reply.value.token else p.token, Some(p.version), Some(p.createdAt),
      if p.Pair() in facts.receipts then Some(facts.receipts[p.Pair()].body) else None,
      if p.Pair() in facts.receipts then KeyText(facts.receipts[p.Pair()].createdAt) else None,
      if p.Pair() in facts.dispatches then Some(facts.dispatches[p.Pair()]) else None)
  }

  function BackReceipt(facts: Facts, p: Postfix, reply: Option<Sent>): Option<CapturedReceipt> {
    if p.Pair() !in facts.receipts then None
    else Some(CapturedReceipt(
      if reply.Some? then reply.value.channel else p.channel, p.key,
      facts.receipts[p.Pair()].body, KeyText(facts.receipts[p.Pair()].createdAt)))
  }

  function BackDispatch(facts: Facts, p: Postfix, reply: Option<Sent>): Option<CapturedDispatch> {
    if p.Pair() !in facts.dispatches then None
    else Some(CapturedDispatch(
      if reply.Some? then reply.value.channel else p.channel, p.key, facts.dispatches[p.Pair()]))
  }

  /** A reply comes back without a key that has no canonical result, and with a default for an empty channel. */
  function BackSent(canon: map<string, External>, s: Sent, a: int): CapturedSent {
    CapturedSent(Some(IntegerId(s.id)), a, Some(s.conversation), Some(s.trigger), Some(s.text), Some(s.sentAt),
                 s.result, s.recallKey, s.recallStatus, s.recallError, s.recalledAt, s.token,
                 if s.channel != "" then s.channel else "dingtalk", Some(s.run),
                 if s.key in canon then s.key else "")
  }

  // ---------- reading the account ----------

  lemma RowsRendered(db: Db, layout: Layout, a: int)
    requires Rendered(db, layout)
    ensures a in layout.homes <==> a in db.actions
    ensures a in layout.homes ==> db.actions[a] == ActionOf(layout.homes[a])
    ensures forall r :: r in layout.pieces <==> r in db.receipts
    ensures forall r | r in layout.pieces :: db.receipts[r] == ReceiptOf(layout.pieces[r])
  {
  }

  lemma PieceRendered(db: Db, layout: Layout, r: int)
    requires Rendered(db, layout) && r in layout.pieces
    ensures r in db.receipts && db.receipts[r] == ReceiptOf(layout.pieces[r])
  {
  }

  /** The rows of a canonical result. */
  lemma ResultThere(layout: Layout, ids: Identities, canon: Canon, key: string)
    requires ExternalsPlaced(layout, ids, canon) && key in canon.rows
    ensures key != "" && key in canon.owners && key in canon.bodies
    ensures canon.owners[key] in layout.homes && layout.homes[canon.owners[key]].core == ExternalCore(canon.rows[key])
    ensures canon.bodies[key] in layout.pieces
    ensures layout.pieces[canon.bodies[key]] == Piece(canon.owners[key], Canonical(canon.rows[key]))
    ensures (ExternalResult, TextId(key)) in ids && ids[(ExternalResult, TextId(key))].receipt.Some?
    ensures
      var b := ids[(ExternalResult, TextId(key))].receipt.value;
      b in layout.pieces && layout.pieces[b] == Piece(canon.owners[key], Binding(canon.rows[key], canon.bodies[key]))
  {
    assert ExternalPlaced(layout, ids, canon, key);
  }

  lemma ExternalShown(db: Db, a: int, rs: seq<int>, e: External, owner: int, b: int, body: int)
    requires a in db.actions && e.key != "" && forall r | r in rs :: r in db.receipts
    requires db.actions[a].externalKey == Some(e.key)
    requires db.actions[a].businessKey == Some(e.business) && db.actions[a].identity == Some(e.identity)
    requires (ExternalResult, TextId(e.key)) in db.identities && db.identities[(ExternalResult, TextId(e.key))].receipt == Some(b)
    requires b in db.receipts && db.receipts[b] == ReceiptOf(Piece(owner, Binding(e, body)))
    requires body in db.receipts && db.receipts[body] == ReceiptOf(Piece(owner, Canonical(e)))
    ensures ExternalPart(db, a, rs) == Success(Some(BackExternal(e)))
  {
    hide GreatestBinding;
    assert BindingOf(db, a, rs, e.key) == Some(b);
  }

  lemma ExternalIdentity(db: Db, layout: Layout, canon: Canon, a: int, rs: seq<int>, key: string)
    requires Rendered(db, layout) && ExternalsPlaced(layout, db.identities, canon)
    requires key in canon.rows && canon.rows[key].key == key
    requires a in db.actions && db.actions[a].externalKey == Some(key)
    requires db.actions[a].businessKey == Some(canon.rows[key].business)
    requires db.actions[a].identity == Some(canon.rows[key].identity)
    requires forall r | r in rs :: r in db.receipts
    ensures ExternalPart(db, a, rs) == Success(Some(BackExternal(canon.rows[key])))
  {
    hide *;
    ResultThere(layout, db.identities, canon, key);
    var binding := db.identities[(ExternalResult, TextId(key))].receipt.value;
    var body := canon.bodies[key];
    PieceRendered(db, layout, binding);
    PieceRendered(db, layout, body);
    ExternalShown(db, a, rs, canon.rows[key], canon.owners[key], binding, body);
  }

  lemma {:induction false} NoBinding(db: Db, a: int, rs: seq<int>)
    requires a in db.actions && forall r | r in rs :: r in db.receipts && !LooksLikeBinding(db, a, r)
    ensures GreatestBinding(db, a, rs) == None
  {
    if rs != [] {
      var last := rs[|rs| - 1];
      assert last in rs;
      NoBinding(db, a, rs[..|rs| - 1]);
    }
  }

  /** Only the binding of a canonical result looks like one. */
  lemma OrphanHasNoBinding(db: Db, layout: Layout, canon: Canon, a: int, key: string, r: int)
    requires Rendered(db, layout) && ExternalsPlaced(layout, db.identities, canon)
    requires a in layout.homes && a in db.actions && layout.homes[a].core.key == Some(key) && key !in canon.rows
    requires r in db.receipts && db.receipts[r].owner == a
    ensures !LooksLikeBinding(db, a, r)
  {
    assert db.receipts[r] == ReceiptOf(layout.pieces[r]);
    assert forall k | k in canon.rows :: ExternalPlaced(layout, db.identities, canon, k);
    assert !layout.pieces[r].origin.Binding?;
  }

  lemma ExternalAbsent(db: Db, layout: Layout, canon: Canon, a: int, rs: seq<int>)
    requires Rendered(db, layout) && ExternalsPlaced(layout, db.identities, canon)
    requires a in layout.homes && a in db.actions && db.actions[a].externalKey == layout.homes[a].core.key
    requires layout.homes[a].core.key.Some? ==> layout.homes[a].core.key.value !in canon.rows
    requires forall r | r in rs :: r in db.receipts && db.receipts[r].owner == a
    ensures ExternalPart(db, a, rs) == Success(None)
  {
    if Truthy(db.actions[a].externalKey) {
      var key := db.actions[a].externalKey.value;
      forall r | r in rs ensures !LooksLikeBinding(db, a, r) {
        OrphanHasNoBinding(db, layout, canon, a, key, r);
      }
      NoBinding(db, a, rs);
      assert (ExternalResult, TextId(key)) !in db.identities;
    }
  }

  // ---------- the prepared message ----------

  lemma {:induction false} FirstDispatchIs(db: Db, rs: seq<int>, dispatch: Text)
    requires forall r | r in rs :: r in db.receipts
    requires forall r | r in rs && db.receipts[r].dispatchedAt.Some? :: db.receipts[r].dispatchedAt == dispatch
    requires dispatch.Some? ==> exists r :: r in rs && db.receipts[r].dispatchedAt.Some?
    ensures FirstDispatch(db, rs) == dispatch
  {
    if rs != [] {
      var r := rs[0];
      assert r in rs;
      if db.receipts[r].dispatchedAt.None? {
        assert forall x | x in rs :: x == r || x in rs[1..];
        FirstDispatchIs(db, rs[1..], dispatch);
      }
    }
  }

  /** The one receipt of an Action that can carry a dispatch is that of its prepared message. */
  lemma DispatchBack(db: Db, layout: Layout, facts: Facts, rows: set<Postfix>, a: int, rs: seq<int>)
    requires Rendered(db, layout) && PostfixesPlaced(layout, db.identities, facts, rows) && a in layout.homes
    requires forall r :: r in rs <==> r in db.receipts && db.receipts[r].owner == a
    ensures FirstDispatch(db, rs) ==
      if layout.homes[a].postfix.Some? then PostfixOrigin(facts, layout.homes[a].postfix.value).dispatch else None
  {
    var dispatch := if layout.homes[a].postfix.Some? then PostfixOrigin(facts, layout.homes[a].postfix.value).dispatch else None;
    hide *;
    forall r | r in rs && db.receipts[r].dispatchedAt.Some? ensures db.receipts[r].dispatchedAt == dispatch {
      DispatchIs(db, layout, facts, rows, r);
    }
    if dispatch.Some? {
      var r := DispatchThere(db, layout, facts, rows, a);
      assert r in rs;
    }
    FirstDispatchIs(db, rs, dispatch);
  }

  lemma DispatchIs(db: Db, layout: Layout, facts: Facts, rows: set<Postfix>, r: int)
    requires Rendered(db, layout) && PostfixesPlaced(layout, db.identities, facts, rows)
    requires r in db.receipts && db.receipts[r].dispatchedAt.Some?
    ensures
      var a := db.receipts[r].owner;
      a in layout.homes && layout.homes[a].postfix.Some?
      && db.receipts[r].dispatchedAt == PostfixOrigin(facts, layout.homes[a].postfix.value).dispatch
  {
    RowsRendered(db, layout, 0);
    DispatchOrigin(layout.pieces[r]);
    hide Rendered;
    hide ReceiptOf;
    var p := layout.pieces[r].origin.postfix;
    assert PostfixPlaced(layout, db.identities, facts, p);
  }

  lemma DispatchOrigin(piece: Piece)
    ensures ReceiptOf(piece).owner == piece.owner
    ensures ReceiptOf(piece).dispatchedAt.Some? ==> piece.origin.Prepared? && ReceiptOf(piece).dispatchedAt == piece.origin.dispatch
    ensures piece.origin.Prepared? ==> ReceiptOf(piece).dispatchedAt == piece.origin.dispatch
  {
  }

  lemma DispatchThere(db: Db, layout: Layout, facts: Facts, rows: set<Postfix>, a: int) returns (r: int)
    requires Rendered(db, layout) && PostfixesPlaced(layout, db.identities, facts, rows) && a in layout.homes
    requires layout.homes[a].postfix.Some? && PostfixOrigin(facts, layout.homes[a].postfix.value).dispatch.Some?
    ensures r in db.receipts && db.receipts[r].owner == a && db.receipts[r].dispatchedAt.Some?
  {
    var p := layout.homes[a].postfix.value;
    assert PostfixPlaced(layout, db.identities, facts, p);
    r := db.identities[(OutboundPostfix, PairId(p.Pair()))].receipt.value;
    DispatchOrigin(layout.pieces[r]);
    hide ReceiptOf;
  }

  lemma PreparedBack(db: Db, layout: Layout, facts: Facts, rows: set<Postfix>, a: int)
    requires Rendered(db, layout) && PostfixesPlaced(layout, db.identities, facts, rows)
    requires a in layout.homes && a in db.actions && db.actions[a].preparedReceipt == layout.homes[a].prepared
    ensures layout.homes[a].postfix.None? ==> BodyOf(db, db.actions[a].preparedReceipt).None?
    ensures layout.homes[a].postfix.Some? ==>
      var receipt := PostfixOrigin(facts, layout.homes[a].postfix.value).receipt;
      BodyOf(db, db.actions[a].preparedReceipt) == (if receipt.Some? then Some(receipt.value.body) else None)
      && (receipt.Some? ==> PreparedAt(db, db.actions[a]) == KeyText(receipt.value.createdAt))
  {
    hide *;
    PreparedPlaced(layout, db.identities, facts, rows, a);
    if layout.homes[a].prepared.Some? {
      var r := layout.homes[a].prepared.value;
      PieceRendered(db, layout, r);
      PreparedRead(db, a, r, facts, layout.pieces[r].owner, layout.homes[a].postfix.value);
    } else {
      NothingPrepared(db);
    }
  }

  lemma NothingPrepared(db: Db)
    ensures BodyOf(db, None) == None
  {
  }

  lemma PreparedPlaced(layout: Layout, ids: Identities, facts: Facts, rows: set<Postfix>, a: int)
    requires PostfixesPlaced(layout, ids, facts, rows) && a in layout.homes
    ensures layout.homes[a].prepared.Some? ==>
      && layout.homes[a].postfix.Some? && layout.homes[a].prepared.value in layout.pieces
      && PostfixOrigin(facts, layout.homes[a].postfix.value).receipt.Some?
      && layout.pieces[layout.homes[a].prepared.value].origin == PostfixOrigin(facts, layout.homes[a].postfix.value)
    ensures layout.homes[a].prepared.None? && layout.homes[a].postfix.Some? ==>
      PostfixOrigin(facts, layout.homes[a].postfix.value).receipt.None?
  {
    if layout.homes[a].postfix.Some? {
      assert PostfixPlaced(layout, ids, facts, layout.homes[a].postfix.value);
    }
    hide PostfixOrigin;
  }

  lemma PreparedRead(db: Db, a: int, r: int, facts: Facts, owner: int, p: Postfix)
    requires a in db.actions && db.actions[a].preparedReceipt == Some(r) && r in db.receipts
    requires db.receipts[r] == ReceiptOf(Piece(owner, PostfixOrigin(facts, p))) && PostfixOrigin(facts, p).receipt.Some?
    ensures
      var receipt := PostfixOrigin(facts, p).receipt;
      BodyOf(db, db.actions[a].preparedReceipt) == Some(receipt.value.body)
      && PreparedAt(db, db.actions[a]) == KeyText(receipt.value.createdAt)
  {
  }

  lemma MessageBack(db: Db, layout: Layout, facts: Facts, rows: set<Postfix>, a: int, rs: seq<int>)
    requires Rendered(db, layout) && PostfixesPlaced(layout, db.identities, facts, rows)
    requires a in layout.homes && a in db.actions
    requires forall r :: r in rs <==> r in db.receipts && db.receipts[r].owner == a
    ensures
      var home := layout.homes[a];
      && PostfixPart(db, a, rs)
         == (if home.postfix.Some? then Some(BackPostfix(facts, home.postfix.value, home.sent)) else None)
      && ReceiptPart(db, a) == (if home.postfix.Some? then BackReceipt(facts, home.postfix.value, home.sent) else None)
      && DispatchPart(db, a, rs) == (if home.postfix.Some? then BackDispatch(facts, home.postfix.value, home.sent) else None)
  {
    RowsRendered(db, layout, a);
    DispatchBack(db, layout, facts, rows, a, rs);
    PreparedBack(db, layout, facts, rows, a);
    hide Rendered;
    hide PostfixesPlaced;
    hide FirstDispatch;
    hide BodyOf;
    hide PreparedAt;
  }

  // ---------- attempts and the sent reply ----------

  /** The canonical body the inverse compares with while it reads one Action. */
  function CanonicalAt(home: Home, canon: map<string, External>): Text {
    if home.core.key.Some? && home.core.key.value in canon then Some(canon[home.core.key.value].body) else None
  }

  function CanonicalRow(home: Home, canon: map<string, External>): Option<External> {
    if home.core.key.Some? && home.core.key.value in canon then Some(canon[home.core.key.value]) else None
  }

  lemma ExternalBack(db: Db, layout: Layout, canon: Canon, a: int, rs: seq<int>)
    requires Kept(db, layout) && ExternalsPlaced(layout, db.identities, canon)
    requires a in layout.homes && a in db.actions
    requires forall r | r in rs :: r in db.receipts && db.receipts[r].owner == a
    ensures ExternalPart(db, a, rs) == Success(
      if CanonicalRow(layout.homes[a], canon.rows).Some?
      then Some(BackExternal(CanonicalRow(layout.homes[a], canon.rows).value)) else None)
  {
    KeptIs(db, layout);
    HomeKey(db, layout, a);
    var key := layout.homes[a].core.key;
    if key.Some? && key.value in canon.rows {
      var k := key.value;
      CanonicalHomeOf(db, layout, canon, a, k);
      hide *;
      ExternalIdentity(db, layout, canon, a, rs, k);
      CanonicalRowIs(layout.homes[a], canon.rows, k);
    } else {
      hide *;
      ExternalAbsent(db, layout, canon, a, rs);
      NoCanonicalRow(layout.homes[a], canon.rows);
    }
  }

  lemma HomeKey(db: Db, layout: Layout, a: int)
    requires Rendered(db, layout) && a in layout.homes
    ensures a in db.actions && db.actions[a].externalKey == layout.homes[a].core.key
    ensures db.actions[a].businessKey == layout.homes[a].core.business
    ensures db.actions[a].identity == layout.homes[a].core.identity
  {
  }

  lemma CanonicalHomeOf(db: Db, layout: Layout, canon: Canon, a: int, k: string)
    requires Kept(db, layout) && ExternalsPlaced(layout, db.identities, canon)
    requires a in layout.homes && layout.homes[a].core.key == Some(k) && k in canon.rows
    ensures a == canon.owners[k] && canon.rows[k].key == k
    ensures layout.homes[a].core.business == Some(canon.rows[k].business) && layout.homes[a].core.identity == Some(canon.rows[k].identity)
  {
    assert ExternalPlaced(layout, db.identities, canon, k);
    OneHome(db, layout, canon.owners[k], a);
    hide Coherent;
    hide Rendered;
  }

  lemma CanonicalRowIs(home: Home, canon: map<string, External>, k: string)
    requires home.core.key == Some(k) && k in canon
    ensures CanonicalRow(home, canon) == Some(canon[k])
  {
  }

  lemma NoCanonicalRow(home: Home, canon: map<string, External>)
    requires home.core.key.Some? ==> home.core.key.value !in canon
    ensures CanonicalRow(home, canon) == None
  {
  }

  /** A mapped receipt's identity is the one the index finds. */
  lemma SlotFound(slots: Slots, ids: Identities, family: Family, identity: Identity, a: int, r: int)
    requires SlotsIndex(slots, ids, ids.Keys)
    requires (family, identity) in ids && ids[(family, identity)] == Mapped(a, Some(r))
    requires forall other | (family, other) in ids && ids[(family, other)] == Mapped(a, Some(r)) :: other == identity
    ensures SlotOf(slots, family, a, r) == Some(identity)
  {
    var k := (family, identity);
    assert k in ids.Keys && (k.0, ids[k].action, ids[k].receipt.value) in slots;
  }

  lemma AttemptSlot(layout: Layout, ids: Identities, slots: Slots, plan: Plan, canon: Canon, rows: set<Attempt>, r: int)
    requires SlotsIndex(slots, ids, ids.Keys) && AttemptsPlaced(layout, ids, plan, canon, rows)
    requires r in layout.pieces && layout.pieces[r].origin.Observed?
    ensures SlotOf(slots, CandidateAttempt, layout.pieces[r].owner, r) == Some(IntegerId(layout.pieces[r].origin.attempt.id))
  {
    var t := layout.pieces[r].origin.attempt;
    assert AttemptPlaced(layout, ids, plan, canon, t);
    forall other | (CandidateAttempt, other) in ids && ids[(CandidateAttempt, other)] == Mapped(layout.pieces[r].owner, Some(r))
      ensures other == IntegerId(t.id)
    {
      var u :| u in rows && other == IntegerId(u.id);
      assert AttemptPlaced(layout, ids, plan, canon, u);
    }
    SlotFound(slots, ids, CandidateAttempt, IntegerId(t.id), layout.pieces[r].owner, r);
  }

  lemma AttemptBody(db: Db, layout: Layout, ids: Identities, plan: Plan, canon: Canon, rows: set<Attempt>, r: int)
    requires Rendered(db, layout) && ExternalsPlaced(layout, ids, canon) && AttemptsPlaced(layout, ids, plan, canon, rows)
    requires r in layout.pieces && layout.pieces[r].origin.Observed?
    ensures r in db.receipts && db.receipts[r] == ReceiptOf(layout.pieces[r])
    ensures
      var t := layout.pieces[r].origin.attempt;
      && layout.pieces[r].owner in layout.homes && layout.homes[layout.pieces[r].owner].core.key == KeyText(t.key)
      && (t.outcome.None? ==>
            OwnOutcome(db, None, layout.pieces[r].origin.provider, CanonicalAt(layout.homes[layout.pieces[r].owner], canon.rows))
            == Success(None))
  {
    hide *;
    var t := layout.pieces[r].origin.attempt;
    AttemptThere(layout, ids, plan, canon, rows, r);
    PieceRendered(db, layout, r);
    if t.outcome.None? && t.key in canon.bodies {
      ResultKeys(layout, ids, canon);
      ResultThere(layout, ids, canon, t.key);
      var b := canon.bodies[t.key];
      PieceRendered(db, layout, b);
      KeyTextIs(t.key);
      CanonicalBodyAt(layout.homes[layout.pieces[r].owner], canon.rows, t.key);
      CanonicalReceipt(canon.owners[t.key], canon.rows[t.key]);
      SameOutcome(db, None, b, CanonicalAt(layout.homes[layout.pieces[r].owner], canon.rows));
    } else {
      NoReference(db, None, CanonicalAt(layout.homes[layout.pieces[r].owner], canon.rows));
    }
  }

  lemma KeyTextIs(key: string)
    ensures key != "" ==> KeyText(key) == Some(key)
  {
  }

  lemma AttemptThere(layout: Layout, ids: Identities, plan: Plan, canon: Canon, rows: set<Attempt>, r: int)
    requires AttemptsPlaced(layout, ids, plan, canon, rows) && r in layout.pieces && layout.pieces[r].origin.Observed?
    ensures
      var t := layout.pieces[r].origin.attempt;
      && layout.pieces[r].owner in layout.homes && layout.homes[layout.pieces[r].owner].core.key == KeyText(t.key)
      && layout.pieces[r].origin.provider ==
           (if t.outcome.None? && t.key in canon.bodies then Some(canon.bodies[t.key]) else None)
  {
    assert AttemptPlaced(layout, ids, plan, canon, layout.pieces[r].origin.attempt);
    hide KeyText;
  }

  lemma ObservedReceipt(piece: Piece)
    ensures !piece.origin.Observed? ==> ReceiptOf(piece).execution.None?
    ensures piece.origin.Observed? ==>
      && var t := piece.origin.attempt;
         var receipt := ReceiptOf(piece);
         && receipt.execution == Some(t.execution) && receipt.actionIndex == Some(t.index)
         && receipt.status == Some(t.status) && receipt.outcome == t.outcome && receipt.provider == piece.origin.provider
         && receipt.createdAt == Some(t.createdAt) && receipt.updatedAt == Some(t.updatedAt)
  {
  }

  lemma OwnerKey(db: Db, layout: Layout, a: int)
    requires Rendered(db, layout) && a in layout.homes
    ensures a in db.actions && db.actions[a].externalKey == layout.homes[a].core.key
  {
  }

  lemma AttemptBack(
    db: Db, layout: Layout, slots: Slots, plan: Plan, canon: Canon, rows: set<Attempt>, a: int, r: int)
    requires Rendered(db, layout) && SlotsIndex(slots, db.identities, db.identities.Keys)
    requires ExternalsPlaced(layout, db.identities, canon) && AttemptsPlaced(layout, db.identities, plan, canon, rows)
    requires a in layout.homes && a in db.actions && r in db.receipts && r in layout.pieces && layout.pieces[r].owner == a
    ensures AttemptPart(db, slots, a, r, CanonicalAt(layout.homes[a], canon.rows)) == Success(
      if layout.pieces[r].origin.Observed? then Some(BackAttempt(layout.pieces[r].origin.attempt)) else None)
  {
    hide *;
    OwnerKey(db, layout, a);
    PieceRendered(db, layout, r);
    ObservedReceipt(layout.pieces[r]);
    if layout.pieces[r].origin.Observed? {
      AttemptBody(db, layout, db.identities, plan, canon, rows, r);
      AttemptSlot(layout, db.identities, slots, plan, canon, rows, r);
    }
    AttemptRow(db, slots, a, r, CanonicalAt(layout.homes[a], canon.rows), layout.pieces[r].origin);
  }

  lemma AttemptRow(db: Db, slots: Slots, a: int, r: int, canonical: Text, origin: Origin)
    requires a in db.actions && r in db.receipts
    requires !origin.Observed? ==> db.receipts[r].execution.None?
    requires origin.Observed? ==>
      && var t := origin.attempt;
         var receipt := db.receipts[r];
         && receipt.execution == Some(t.execution) && receipt.actionIndex == Some(t.index)
         && receipt.status == Some(t.status) && receipt.outcome == t.outcome && receipt.provider == origin.provider
         && receipt.createdAt == Some(t.createdAt) && receipt.updatedAt == Some(t.updatedAt)
         && (t.outcome.None? ==> OwnOutcome(db, None, origin.provider, canonical) == Success(None))
         && SlotOf(slots, CandidateAttempt, a, r) == Some(IntegerId(t.id))
         && db.actions[a].externalKey == KeyText(t.key)
    ensures AttemptPart(db, slots, a, r, canonical) == Success(
      if origin.Observed? then Some(BackAttempt(origin.attempt)) else None)
  {
    hide OwnOutcome;
    hide SlotOf;
  }

  /** The attempts observed by the receipts `rs`, in order. */
  ghost function BackAttempts(layout: Layout, rs: seq<int>): (back: seq<CapturedAttempt>)
    requires forall r | r in rs :: r in layout.pieces
    ensures forall x :: x in back <==>
      exists r :: r in rs && layout.pieces[r].origin.Observed? && x == BackAttempt(layout.pieces[r].origin.attempt)
  {
    if rs == [] then []
    else
      var last := rs[|rs| - 1];
      assert rs == rs[..|rs| - 1] + [last];
      BackAttempts(layout, rs[..|rs| - 1])
      + if layout.pieces[last].origin.Observed? then [BackAttempt(layout.pieces[last].origin.attempt)] else []
  }

  lemma {:induction false} AttemptsBack(
    db: Db, layout: Layout, slots: Slots, plan: Plan, canon: Canon, rows: set<Attempt>, a: int, rs: seq<int>)
    requires Rendered(db, layout) && SlotsIndex(slots, db.identities, db.identities.Keys)
    requires ExternalsPlaced(layout, db.identities, canon) && AttemptsPlaced(layout, db.identities, plan, canon, rows)
    requires a in layout.homes && a in db.actions
    requires forall r | r in rs :: r in db.receipts && r in layout.pieces && layout.pieces[r].owner == a
    ensures AttemptParts(db, slots, a, rs, CanonicalAt(layout.homes[a], canon.rows)) == Success(BackAttempts(layout, rs))
    decreases |rs|
  {
    hide Rendered;
    hide SlotsIndex;
    hide ExternalsPlaced;
    hide AttemptsPlaced;
    hide AttemptPart;
    if rs != [] {
      var last := rs[|rs| - 1];
      assert last in rs;
      AttemptsBack(db, layout, slots, plan, canon, rows, a, rs[..|rs| - 1]);
      AttemptBack(db, layout, slots, plan, canon, rows, a, last);
    }
  }

  lemma SentSlot(layout: Layout, ids: Identities, slots: Slots, canon: Canon, rows: set<Sent>, a: int)
    requires SlotsIndex(slots, ids, ids.Keys) && SentsPlaced(layout, ids, canon, rows)
    requires a in layout.homes && layout.homes[a].sent.Some?
    ensures layout.homes[a].delivery.Some?
    ensures SlotOf(slots, SentReply, a, layout.homes[a].delivery.value) == Some(IntegerId(layout.homes[a].sent.value.id))
  {
    var s := layout.homes[a].sent.value;
    assert SentPlaced(layout, ids, canon, s);
    var r := layout.homes[a].delivery.value;
    forall other | (SentReply, other) in ids && ids[(SentReply, other)] == Mapped(a, Some(r))
      ensures other == IntegerId(s.id)
    {
      var u :| u in rows && other == IntegerId(u.id);
      assert SentPlaced(layout, ids, canon, u);
    }
    SlotFound(slots, ids, SentReply, IntegerId(s.id), a, r);
  }

  lemma SentBody(db: Db, layout: Layout, ids: Identities, canon: Canon, rows: set<Sent>, a: int)
    requires Rendered(db, layout) && ExternalsPlaced(layout, ids, canon) && SentsPlaced(layout, ids, canon, rows)
    requires a in layout.homes && layout.homes[a].sent.Some? && layout.homes[a].delivery.Some?
    ensures
      var s := layout.homes[a].sent.value;
      var r := layout.homes[a].delivery.value;
      && r in db.receipts && db.receipts[r] == ReceiptOf(Piece(a, SentOrigin(s, canon)))
      && OwnOutcome(db, s.result, SentOrigin(s, canon).provider, CanonicalAt(layout.homes[a], canon.rows))
         == Success(s.result)
      && OrEmpty(layout.homes[a].core.key) == (if s.key in canon.rows then s.key else "")
  {
    var s := layout.homes[a].sent.value;
    var r := layout.homes[a].delivery.value;
    hide *;
    SentThere(layout, ids, canon, rows, a);
    PieceRendered(db, layout, r);
    ReferredBody(db, layout, ids, canon, s, a);
  }

  lemma SentThere(layout: Layout, ids: Identities, canon: Canon, rows: set<Sent>, a: int)
    requires SentsPlaced(layout, ids, canon, rows)
    requires a in layout.homes && layout.homes[a].sent.Some? && layout.homes[a].delivery.Some?
    ensures
      var s := layout.homes[a].sent.value;
      var r := layout.homes[a].delivery.value;
      && r in layout.pieces && layout.pieces[r] == Piece(a, SentOrigin(s, canon))
      && layout.homes[a].core.key == (if s.key in canon.rows then Some(s.key) else None)
      && OrEmpty(layout.homes[a].core.key) == (if s.key in canon.rows then s.key else "")
  {
    var s := layout.homes[a].sent.value;
    assert SentPlaced(layout, ids, canon, s);
  }

  /** The canonical body a reply refers to is the one the inverse compares with. */
  lemma ReferredBody(db: Db, layout: Layout, ids: Identities, canon: Canon, s: Sent, a: int)
    requires Rendered(db, layout) && ExternalsPlaced(layout, ids, canon) && a in layout.homes
    requires layout.homes[a].core.key == (if s.key in canon.rows then Some(s.key) else None)
    ensures OwnOutcome(db, s.result, SentOrigin(s, canon).provider, CanonicalAt(layout.homes[a], canon.rows)) == Success(s.result)
  {
    SentProvider(s, canon);
    if s.result.None? && s.key in canon.bodies {
      ResultKeys(layout, ids, canon);
      ResultThere(layout, ids, canon, s.key);
      var b := canon.bodies[s.key];
      PieceRendered(db, layout, b);
      CanonicalBodyAt(layout.homes[a], canon.rows, s.key);
      CanonicalReceipt(canon.owners[s.key], canon.rows[s.key]);
      hide *;
      SameOutcome(db, s.result, b, CanonicalAt(layout.homes[a], canon.rows));
    } else {
      hide *;
      NoReference(db, s.result, CanonicalAt(layout.homes[a], canon.rows));
    }
  }

  lemma SentProvider(s: Sent, canon: Canon)
    ensures SentOrigin(s, canon).provider == if s.result.None? && s.key in canon.bodies then Some(canon.bodies[s.key]) else None
  {
  }

  lemma ResultKeys(layout: Layout, ids: Identities, canon: Canon)
    requires ExternalsPlaced(layout, ids, canon)
    ensures canon.owners.Keys == canon.rows.Keys && canon.bodies.Keys == canon.rows.Keys
  {
  }

  lemma CanonicalBodyAt(home: Home, canon: map<string, External>, key: string)
    requires key in canon && home.core.key == Some(key)
    ensures CanonicalAt(home, canon) == Some(canon[key].body)
  {
  }

  lemma CanonicalReceipt(owner: int, e: External)
    ensures ReceiptOf(Piece(owner, Canonical(e))).body == Some(e.body)
  {
  }

  lemma SameOutcome(db: Db, own: Text, b: int, canonical: Text)
    requires own.None? && b in db.receipts && db.receipts[b].body == canonical && canonical.Some?
    ensures OwnOutcome(db, own, Some(b), canonical) == Success(own)
  {
  }

  lemma NoReference(db: Db, own: Text, canonical: Text)
    ensures OwnOutcome(db, own, None, canonical) == Success(own)
  {
  }

  lemma DeliveredReceipt(a: int, s: Sent, provider: Option<int>)
    ensures
      var receipt := ReceiptOf(Piece(a, Delivered(s, provider)));
      && receipt.observedAt == Some(s.sentAt) && receipt.agentRun == Some(s.run) && receipt.body == s.result
      && receipt.provider == provider
  {
  }

  lemma SentFields(db: Db, layout: Layout, a: int)
    requires Rendered(db, layout) && a in layout.homes && layout.homes[a].sent.Some?
    ensures a in db.actions
    ensures
      var s := layout.homes[a].sent.value;
      var action := db.actions[a];
      && action.conversation == Some(s.conversation) && action.trigger == Some(s.trigger)
      && action.preparedBody == Some(s.text) && action.recallKey == Some(s.recallKey)
      && action.recallStatus == Some(s.recallStatus) && action.recallError == Some(s.recallError)
      && action.recalledAt == s.recalledAt && action.feedbackToken == Some(s.token)
      && action.deliveryChannel == Some(s.channel)
  {
  }

  lemma DeliveryIs(db: Db, layout: Layout, a: int)
    requires Rendered(db, layout) && a in layout.homes
    ensures a in db.actions && db.actions[a].deliveryReceipt == layout.homes[a].delivery
  {
  }

  lemma SentBack(db: Db, layout: Layout, slots: Slots, canon: Canon, rows: set<Sent>, a: int)
    requires Rendered(db, layout) && SlotsIndex(slots, db.identities, db.identities.Keys)
    requires ExternalsPlaced(layout, db.identities, canon) && SentsPlaced(layout, db.identities, canon, rows)
    requires a in layout.homes && a in db.actions
    ensures SentPart(db, slots, a, CanonicalAt(layout.homes[a], canon.rows)) == Success(
      if layout.homes[a].sent.Some? then Some(BackSent(canon.rows, layout.homes[a].sent.value, a)) else None)
  {
    hide *;
    DeliveryIs(db, layout, a);
    OwnerKey(db, layout, a);
    if layout.homes[a].sent.Some? {
      var s := layout.homes[a].sent.value;
      SentSlot(layout, db.identities, slots, canon, rows, a);
      SentBody(db, layout, db.identities, canon, rows, a);
      SentFields(db, layout, a);
      DeliveredReceipt(a, s, SentOrigin(s, canon).provider);
      SentRowBack(db, slots, a, layout.homes[a].delivery.value, CanonicalAt(layout.homes[a], canon.rows), canon.rows, s);
    } else {
      NoReplyNoDelivery(layout, db.identities, canon, rows, a);
      NoSentPart(db, slots, a, CanonicalAt(layout.homes[a], canon.rows));
    }
  }

  lemma NoSentPart(db: Db, slots: Slots, a: int, canonical: Text)
    requires a in db.actions && db.actions[a].deliveryReceipt.None?
    ensures SentPart(db, slots, a, canonical) == Success(None)
  {
  }

  lemma SentRowBack(db: Db, slots: Slots, a: int, r: int, canonical: Text, canon: map<string, External>, s: Sent)
    requires a in db.actions && r in db.receipts && db.actions[a].deliveryReceipt == Some(r)
    requires
      var action := db.actions[a];
      && action.conversation == Some(s.conversation) && action.trigger == Some(s.trigger)
      && action.preparedBody == Some(s.text) && action.recallKey == Some(s.recallKey)
      && action.recallStatus == Some(s.recallStatus) && action.recallError == Some(s.recallError)
      && action.recalledAt == s.recalledAt && action.feedbackToken == Some(s.token)
      && action.deliveryChannel == Some(s.channel)
    requires
      var receipt := db.receipts[r];
      && receipt.observedAt == Some(s.sentAt) && receipt.agentRun == Some(s.run) && receipt.body == s.result
      && OwnOutcome(db, s.result, receipt.provider, canonical) == Success(s.result)
    requires SlotOf(slots, SentReply, a, r) == Some(IntegerId(s.id))
    requires OrEmpty(db.actions[a].externalKey) == (if s.key in canon then s.key else "")
    ensures SentPart(db, slots, a, canonical) == Success(Some(BackSent(canon, s, a)))
  {
    hide OwnOutcome;
    hide SlotOf;
  }

  lemma NoReplyNoDelivery(layout: Layout, ids: Identities, canon: Canon, rows: set<Sent>, a: int)
    requires SentsPlaced(layout, ids, canon, rows) && a in layout.homes
    ensures layout.homes[a].sent.None? ==> layout.homes[a].delivery.None?
  {
  }
}
