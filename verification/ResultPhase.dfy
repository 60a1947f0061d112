/** First phase of the transfer: canonical external results become Actions with a body and a binding. */
module ResultPhase {
  import opened Wrappers
  import opened ActionEntity
  import opened TransferModel
  import Ledger

  /** One row of the identity map; a second row for the same source identity is refused. */
  method MapIdentity(c: Ledger.Connection, family: Family, identity: Identity, action: int, receipt: Option<int>)
    returns (ok: bool)
    modifies c
    ensures ok <==> (family, identity) !in old(c.db.identities)
    ensures c.db == if ok
                    then old(c.db).(identities := old(c.db.identities)[(family, identity) := Mapped(action, receipt)])
                    else old(c.db)
  {
    ok := (family, identity) !in c.db.identities;
    if ok {
      c.db := c.db.(identities := c.db.identities[(family, identity) := Mapped(action, receipt)]);
    }
  }

  /** The guards and the account say nothing about the identity map. */
  lemma KeptMapped(db: Db, layout: Layout, ids: Identities)
    requires Kept(db, layout)
    ensures Kept(db.(identities := ids), layout)
  {
  }

  function ExternalAction(e: External): Action {
    BLANK_ACTION.(operation := Some(e.operation), externalKey := Some(e.key),
                  businessKey := Some(e.business), identity := Some(e.identity))
  }

  /** Creation cannot be refused when its key and its delivery identity are new. */
  lemma CreationAllowed(db: Db, action: Action)
    requires action.status.None? && action.planId.None?
    requires action.deliveryReceipt.None? && action.preparedReceipt.None?
    requires forall a | a in db.actions && action.externalKey.Some? :: db.actions[a].externalKey != action.externalKey
    requires forall a | a in db.actions && action.deliveryChannel.Some? && action.deliveryKey.Some? ::
      (db.actions[a].deliveryChannel, db.actions[a].deliveryKey) != (action.deliveryChannel, action.deliveryKey)
    ensures CanCreateAction(db, action)
  {
  }

  lemma RenderedAction(db: Db, layout: Layout, home: Home)
    requires Kept(db, layout)
    ensures db.nextAction !in layout.homes
    ensures Rendered(WithAction(db, ActionOf(home)), layout.(homes := layout.homes[db.nextAction := home]))
  {
    assert db.nextAction !in db.actions;
  }

  lemma RenderedReceipt(db: Db, layout: Layout, piece: Piece)
    requires Kept(db, layout)
    ensures db.nextReceipt !in layout.pieces
    ensures Rendered(WithReceipt(db, ReceiptOf(piece)), layout.(pieces := layout.pieces[db.nextReceipt := piece]))
  {
    assert db.nextReceipt !in db.receipts;
  }

  /** create_action, with the ghost account of the row it writes. */
  method CreateHome(c: Ledger.Connection, action: Action, ghost layout: Layout, ghost home: Home)
    returns (id: int, ghost layout': Layout)
    requires Kept(c.db, layout)
    requires action == ActionOf(home) && CanCreateAction(c.db, action)
    modifies c
    ensures Kept(c.db, layout') && id !in layout.homes && layout' == layout.(homes := layout.homes[id := home])
    ensures c.db.identities == old(c.db.identities) && c.db.observers == old(c.db.observers)
    ensures c.db.receipts == old(c.db.receipts)
  {
    RenderedAction(c.db, layout, home);
    var reply := c.CreateAction(action);
    assert reply.Wrote?;
    id := reply.id;
    layout' := layout.(homes := layout.homes[id := home]);
  }

  /** An appended receipt, with the ghost account of the row it writes. */
  method AppendPiece(c: Ledger.Connection, receipt: Receipt, ghost layout: Layout, ghost piece: Piece)
    returns (id: int, ghost layout': Layout)
    requires Kept(c.db, layout)
    requires receipt == ReceiptOf(piece) && CanInsertReceipt(c.db, receipt)
    modifies c
    ensures Kept(c.db, layout') && id !in layout.pieces && layout' == layout.(pieces := layout.pieces[id := piece])
    ensures c.db.identities == old(c.db.identities) && c.db.observers == old(c.db.observers)
    ensures c.db.actions == old(c.db.actions)
  {
    RenderedReceipt(c.db, layout, piece);
    var reply := c.AppendReceipt(receipt);
    assert reply.Wrote?;
    id := reply.id;
    layout' := layout.(pieces := layout.pieces[id := piece]);
  }

  /** A receipt without a slot and with a resolved reference is never refused. */
  lemma ReceiptAllowed(db: Db, layout: Layout, piece: Piece)
    requires Rendered(db, layout) && piece.owner in layout.homes && !piece.origin.Observed?
    requires ReceiptOf(piece).provider.Some? ==>
      ReceiptOf(piece).provider.value in layout.pieces
      && layout.pieces[ReceiptOf(piece).provider.value].owner == piece.owner
      && layout.pieces[ReceiptOf(piece).provider.value].origin.Canonical?
    ensures CanInsertReceipt(db, ReceiptOf(piece))
  {
    var receipt := ReceiptOf(piece);
    if receipt.provider.Some? {
      var target := receipt.provider.value;
      assert db.receipts[target] == ReceiptOf(layout.pieces[target]);
    }
  }

  /** The state after the first phase: nothing but canonical results. */
  ghost predicate OnlyExternals(layout: Layout, ids: Identities, canon: Canon) {
    && (forall a | a in layout.homes ::
          layout.homes[a] == Home(layout.homes[a].core, None, None, None, None)
          && layout.homes[a].core.key.Some? && layout.homes[a].core.key.value in canon.owners
          && canon.owners[layout.homes[a].core.key.value] == a)
    && (forall r | r in layout.pieces :: layout.pieces[r].origin.Canonical? || layout.pieces[r].origin.Binding?)
    && (forall k | k in ids :: k.0 == ExternalResult)
  }

  lemma PlacedStays(layout: Layout, ids: Identities, canon: Canon, layout': Layout, ids': Identities, canon': Canon, key: string)
    requires key in canon.rows && ExternalPlaced(layout, ids, canon, key)
    requires Grown(layout, ids, layout', ids')
    requires key in canon'.rows && canon'.rows[key] == canon.rows[key]
    requires key in canon'.owners && canon'.owners[key] == canon.owners[key]
    requires key in canon'.bodies && canon'.bodies[key] == canon.bodies[key]
    ensures ExternalPlaced(layout', ids', canon', key)
  {
  }

  lemma ExternalsStay(layout: Layout, ids: Identities, layout': Layout, ids': Identities, canon: Canon)
    requires ExternalsPlaced(layout, ids, canon) && Grown(layout, ids, layout', ids')
    requires forall k | k in ids' && k.0 == ExternalResult :: k in ids
    requires forall r | r in layout'.pieces && ForResult(layout'.pieces[r].origin) :: r in layout.pieces
    ensures ExternalsPlaced(layout', ids', canon)
  {
    forall key | key in canon.rows ensures ExternalPlaced(layout', ids', canon, key) {
      PlacedStays(layout, ids, canon, layout', ids', canon, key);
    }
    forall r | r in layout'.pieces && ForResult(layout'.pieces[r].origin) ensures ResultPiece(layout'.pieces[r], ids', canon, r) {
      PieceStays(layout, ids, layout', ids', canon, r);
    }
    hide ExternalPlaced;
    hide ResultPiece;
  }

  lemma PieceStays(layout: Layout, ids: Identities, layout': Layout, ids': Identities, canon: Canon, r: int)
    requires ExternalsPlaced(layout, ids, canon) && Grown(layout, ids, layout', ids')
    requires r in layout'.pieces && ForResult(layout'.pieces[r].origin) && r in layout.pieces
    ensures ResultPiece(layout'.pieces[r], ids', canon, r)
  {
    hide ExternalPlaced;
    assert ResultPiece(layout.pieces[r], ids, canon, r);
  }

  function WithRow(canon: Canon, e: External, a: int, body: int): Canon {
    Canon(canon.rows[e.key := e], canon.owners[e.key := a], canon.bodies[e.key := body])
  }

  lemma NewExternalPlaced(
    layout: Layout, ids: Identities, canon: Canon, e: External, a: int, body: int, binding: int)
    requires e.key != "" && canon.rows.Keys == canon.owners.Keys == canon.bodies.Keys
    requires e.key in canon.rows && canon.rows[e.key] == e && canon.owners[e.key] == a && canon.bodies[e.key] == body
    requires a in layout.homes && layout.homes[a].core == ExternalCore(e)
    requires body in layout.pieces && layout.pieces[body] == Piece(a, Canonical(e))
    requires binding in layout.pieces && layout.pieces[binding] == Piece(a, Binding(e, body))
    requires (ExternalResult, TextId(e.key)) in ids && ids[(ExternalResult, TextId(e.key))] == Mapped(a, Some(binding))
    ensures ExternalPlaced(layout, ids, canon, e.key)
  {
  }

  lemma ExternalAdded(
    layout: Layout, ids: Identities, canon: Canon, e: External, a: int, body: int, binding: int, layout': Layout, ids': Identities)
    requires ExternalsPlaced(layout, ids, canon)
    requires e.key != "" && e.key !in canon.rows
    requires Grown(layout, ids, layout', ids')
    requires a in layout'.homes && layout'.homes[a].core == ExternalCore(e)
    requires body in layout'.pieces && layout'.pieces[body] == Piece(a, Canonical(e))
    requires binding in layout'.pieces && layout'.pieces[binding] == Piece(a, Binding(e, body))
    requires ids' == ids[(ExternalResult, TextId(e.key)) := Mapped(a, Some(binding))]
    requires forall r | r in layout'.pieces :: r in layout.pieces || r == body || r == binding
    ensures ExternalsPlaced(layout', ids', WithRow(canon, e, a, body))
  {
    hide ExternalPlaced;
    var canon' := WithRow(canon, e, a, body);
    NewExternalPlaced(layout', ids', canon', e, a, body, binding);
    forall key | key in canon.rows ensures ExternalPlaced(layout', ids', canon', key) {
      PlacedStays(layout, ids, canon, layout', ids', canon', key);
    }
  }

  lemma OnlyExternalsAdded(
    layout: Layout, ids: Identities, canon: Canon, e: External, a: int, body: int, binding: int, layout': Layout)
    requires OnlyExternals(layout, ids, canon)
    requires e.key !in canon.owners && a !in layout.homes
    requires layout' == WrittenExternal(layout, e, a, body, binding)
    ensures OnlyExternals(layout', ids[(ExternalResult, TextId(e.key)) := Mapped(a, Some(binding))], WithRow(canon, e, a, body))
  {
  }

  function WrittenExternal(layout: Layout, e: External, a: int, body: int, binding: int): Layout {
    Layout(
      layout.homes[a := Home(ExternalCore(e), None, None, None, None)],
      layout.pieces[body := Piece(a, Canonical(e))][binding := Piece(a, Binding(e, body))])
  }

  /** The rows of one canonical result: its Action, its body receipt and the binding to the body. */
  method WriteExternalResult(c: Ledger.Connection, e: External, ghost layout: Layout)
    returns (a: int, body: int, binding: int, ghost layout': Layout)
    requires Kept(c.db, layout) && CanCreateAction(c.db, ExternalAction(e))
    modifies c
    ensures Kept(c.db, layout')
    ensures c.db.identities == old(c.db.identities) && c.db.observers == old(c.db.observers)
    ensures a !in layout.homes && body !in layout.pieces && binding !in layout.pieces && body != binding
    ensures layout' == WrittenExternal(layout, e, a, body, binding)
  {
    ghost var created, received;
    a, created := CreateHome(c, ExternalAction(e), layout, Home(ExternalCore(e), None, None, None, None));
    var bodyReceipt := BlankReceipt(a).(
      operation := Some(e.operation), target := Some(e.target), body := Some(e.body),
      digest := Some(e.digest), agentRun := Some(e.run), observedAt := Some(e.createdAt));
    ReceiptAllowed(c.db, created, Piece(a, Canonical(e)));
    body, received := AppendPiece(c, bodyReceipt, created, Piece(a, Canonical(e)));
    var bindingReceipt := BlankReceipt(a).(
      provider := Some(body), operation := Some(e.operation), target := Some(e.target),
      digest := Some(e.digest), agentRun := Some(e.run), createdAt := Some(e.createdAt),
      observedAt := Some(e.createdAt));
    ReceiptAllowed(c.db, received, Piece(a, Binding(e, body)));
    binding, layout' := AppendPiece(c, bindingReceipt, received, Piece(a, Binding(e, body)));
  }

  lemma NewKeyAllowed(db: Db, layout: Layout, ids: Identities, canon: Canon, e: External)
    requires Rendered(db, layout) && OnlyExternals(layout, ids, canon) && e.key !in canon.owners
    ensures CanCreateAction(db, ExternalAction(e))
  {
    CreationAllowed(db, ExternalAction(e));
  }

  lemma WrittenGrows(layout: Layout, ids: Identities, e: External, a: int, body: int, binding: int)
    requires a !in layout.homes && body !in layout.pieces && binding !in layout.pieces
    requires (ExternalResult, TextId(e.key)) !in ids
    ensures Grown(layout, ids, WrittenExternal(layout, e, a, body, binding),
                  ids[(ExternalResult, TextId(e.key)) := Mapped(a, Some(binding))])
  {
  }

  lemma ResultsAdded(layout: Layout, ids: Identities, canon: Canon, e: External, a: int, body: int, binding: int)
    requires ExternalsPlaced(layout, ids, canon) && OnlyExternals(layout, ids, canon)
    requires e.key != "" && e.key !in canon.rows
    requires a !in layout.homes && body !in layout.pieces && binding !in layout.pieces && body != binding
    ensures
      var layout' := WrittenExternal(layout, e, a, body, binding);
      var ids' := ids[(ExternalResult, TextId(e.key)) := Mapped(a, Some(binding))];
      ExternalsPlaced(layout', ids', WithRow(canon, e, a, body)) && OnlyExternals(layout', ids', WithRow(canon, e, a, body))
  {
    var layout' := WrittenExternal(layout, e, a, body, binding);
    var ids' := ids[(ExternalResult, TextId(e.key)) := Mapped(a, Some(binding))];
    WrittenGrows(layout, ids, e, a, body, binding);
    ExternalAdded(layout, ids, canon, e, a, body, binding, layout', ids');
    OnlyExternalsAdded(layout, ids, canon, e, a, body, binding, layout');
  }

  method TransferExternalResult(c: Ledger.Connection, e: External, ghost layout: Layout, ghost canon: Canon)
    returns (a: int, body: int, ghost layout': Layout)
    requires Kept(c.db, layout) && c.db.observers == map[]
    requires ExternalsPlaced(layout, c.db.identities, canon) && OnlyExternals(layout, c.db.identities, canon)
    requires e.key != "" && e.key !in canon.rows
    modifies c
    ensures Kept(c.db, layout') && c.db.observers == map[]
    ensures ExternalsPlaced(layout', c.db.identities, WithRow(canon, e, a, body))
    ensures OnlyExternals(layout', c.db.identities, WithRow(canon, e, a, body))
  {
    NewKeyAllowed(c.db, layout, c.db.identities, canon, e);
    ghost var ids := c.db.identities;
    assert (ExternalResult, TextId(e.key)) !in ids;
    var binding;
    a, body, binding, layout' := WriteExternalResult(c, e, layout);
    var mapped := MapIdentity(c, ExternalResult, TextId(e.key), a, Some(binding));
    ResultsAdded(layout, ids, canon, e, a, body, binding);
  }

  lemma NothingPlaced(db: Db)
    requires db.actions == map[] && db.receipts == map[] && db.identities == map[]
    ensures Rendered(db, Layout(map[], map[]))
    ensures ExternalsPlaced(Layout(map[], map[]), db.identities, Canon(map[], map[], map[]))
    ensures OnlyExternals(Layout(map[], map[]), db.identities, Canon(map[], map[], map[]))
  {
  }

  ghost predicate ExternalsConsistent(rows: seq<External>) {
    forall e | e in rows :: e.key != ""
  }

  /** `byKey` holds exactly the rows, each under its key. */
  ghost predicate ByKey(byKey: map<string, External>, rows: seq<External>) {
    && (forall e | e in rows :: e.key in byKey && byKey[e.key] == e)
    && (forall key | key in byKey :: byKey[key] in rows && byKey[key].key == key)
  }

  lemma ByKeyStep(byKey: map<string, External>, rows: seq<External>, i: nat)
    requires i < |rows| && ExternalsUnique(rows) && ByKey(byKey, rows[..i])
    ensures rows[i].key !in byKey
    ensures ByKey(byKey[rows[i].key := rows[i]], rows[..i + 1])
    ensures ExternalsConsistent(rows[..i]) && rows[i].key != "" ==> ExternalsConsistent(rows[..i + 1])
  {
    assert rows[..i + 1] == rows[..i] + [rows[i]];
    forall e | e in rows[..i] ensures e.key != rows[i].key {
      var j :| 0 <= j < i && rows[j] == e;
    }
  }

  method TransferExternalResults(c: Ledger.Connection, rows: seq<External>)
    returns (ok: bool, owners: map<string, int>, bodies: map<string, int>,
             ghost layout: Layout, ghost byKey: map<string, External>)
    requires Coherent(c.db) && ExternalsUnique(rows)
    requires c.db.actions == map[] && c.db.receipts == map[] && c.db.identities == map[] && c.db.observers == map[]
    modifies c
    ensures ok <==> ExternalsConsistent(rows)
    ensures ok ==> Kept(c.db, layout) && c.db.observers == map[]
    ensures ok ==> ByKey(byKey, rows)
    ensures ok ==> ExternalsPlaced(layout, c.db.identities, Canon(byKey, owners, bodies))
    ensures ok ==> OnlyExternals(layout, c.db.identities, Canon(byKey, owners, bodies))
  {
    owners, bodies, byKey := map[], map[], map[];
    layout := Layout(map[], map[]);
    NothingPlaced(c.db);
    assert ByKey(byKey, rows[..0]);
    hide ExternalsPlaced;
    hide OnlyExternals;
    hide Coherent;
    hide Rendered;
    hide ByKey;
    hide ExternalsUnique;
    for i := 0 to |rows|
      invariant Kept(c.db, layout) && c.db.observers == map[]
      invariant ByKey(byKey, rows[..i])
      invariant ExternalsConsistent(rows[..i])
      invariant ExternalsPlaced(layout, c.db.identities, Canon(byKey, owners, bodies))
      invariant OnlyExternals(layout, c.db.identities, Canon(byKey, owners, bodies))
    {
      var e := rows[i];
      ByKeyStep(byKey, rows, i);
      if e.key == "" {
        return false, owners, bodies, layout, byKey;
      }
      var a, body;
      a, body, layout := TransferExternalResult(c, e, layout, Canon(byKey, owners, bodies));
      owners, bodies := owners[e.key := a], bodies[e.key := body];
      byKey := byKey[e.key := e];
    }
    assert rows[..|rows|] == rows;
    ok := true;
  }
}
