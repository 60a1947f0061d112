/** Second phase: attempts join the Action of their canonical result, of their key, or a new one. */
module CandidatePhase {
  import opened Wrappers
  import opened ActionEntity
  import opened TransferModel
  import opened ResultPhase
  import Ledger

  type Orphans = map<string, (Effect, int)>

  /** The state while attempts are placed: Actions hold their core alone. */
  ghost predicate CoresOnly(layout: Layout, ids: Identities) {
    && (forall a | a in layout.homes :: layout.homes[a] == Home(layout.homes[a].core, None, None, None, None))
    && (forall r | r in layout.pieces ::
          layout.pieces[r].origin.Canonical? || layout.pieces[r].origin.Binding? || layout.pieces[r].origin.Observed?)
    && (forall k | k in ids :: k.0 == ExternalResult || k.0 == CandidateAttempt)
  }

  /** Every key an Action carries is in one of the two dictionaries, under that Action. */
  ghost predicate KeysKnown(layout: Layout, canon: Canon, orphans: Orphans) {
    forall a | a in layout.homes && layout.homes[a].core.key.Some? ::
      var key := layout.homes[a].core.key.value;
      (key in canon.owners && canon.owners[key] == a) || (key in orphans && orphans[key].1 == a)
  }

  ghost predicate OrphanPlaced(layout: Layout, canon: Canon, key: string, orphan: (Effect, int)) {
    && key != "" && key !in canon.rows && orphan.1 in layout.homes
    && layout.homes[orphan.1].core
       == Core(Some(orphan.0.operation), Some(key), Some(orphan.0.business), Some(orphan.0.identity), None)
  }

  ghost predicate OrphanSeen(plan: Plan, rows: set<Attempt>, key: string, effect: Effect) {
    exists t :: t in rows && t.key == key && (t.execution, t.index) in plan && EffectOf(plan[(t.execution, t.index)]) == effect
  }

  ghost predicate OrphansPlaced(layout: Layout, plan: Plan, canon: Canon, rows: set<Attempt>, orphans: Orphans) {
    && (forall key | key in orphans ::
          OrphanPlaced(layout, canon, key, orphans[key]) && OrphanSeen(plan, rows, key, orphans[key].0))
    && (forall t | t in rows && t.key != "" && t.key !in canon.rows :: t.key in orphans)
  }

  ghost predicate DeliveriesKnown(ids: Identities, plan: Plan, rows: set<Attempt>, deliveries: map<Pair, int>) {
    && (forall t | t in rows ::
          (t.execution, t.index) in plan && (CandidateAttempt, IntegerId(t.id)) in ids
          && var pair := plan[(t.execution, t.index)].Delivery();
             pair in deliveries && deliveries[pair] == ids[(CandidateAttempt, IntegerId(t.id))].action)
    && (forall pair | pair in deliveries :: DeliverySeen(plan, rows, pair))
  }

  /** An Action with a message or a reply on it. */
  ghost predicate Shown(home: Home) { home.postfix.Some? || home.sent.Some? }

  /** An Action the map names for a canonical result or an attempt. */
  ghost predicate FactMapped(ids: Identities, a: int) {
    exists k :: k in ids && (k.0 == ExternalResult || k.0 == CandidateAttempt) && ids[k].action == a
  }

  /** No Action is left that belongs to no source row. */
  ghost predicate Represented(layout: Layout, ids: Identities) {
    forall a | a in layout.homes :: Shown(layout.homes[a]) || FactMapped(ids, a)
  }

  /** Two attempts share an Action exactly when they carry the same non-empty key. */
  ghost predicate OwnedByKey(ids: Identities, rows: set<Attempt>) {
    forall t, u | t in rows && u in rows && t != u ::
      (CandidateAttempt, IntegerId(t.id)) in ids && (CandidateAttempt, IntegerId(u.id)) in ids
      && (ids[(CandidateAttempt, IntegerId(t.id))].action == ids[(CandidateAttempt, IntegerId(u.id))].action
          <==> t.key == u.key && t.key != "")
  }

  ghost predicate DeliverySeen(plan: Plan, rows: set<Attempt>, pair: Pair) {
    exists t :: t in rows && (t.execution, t.index) in plan && plan[(t.execution, t.index)].Delivery() == pair
  }

  // ---------- the Action an attempt belongs to ----------

  /** The Action found or created for `t` carries its key, its approved identity and, under a key, its operation. */
  ghost predicate OwnerRight(layout: Layout, t: Attempt, step: PlanStep, a: int) {
    a in layout.homes && ReviewedCore(layout.homes[a].core, t, step)
  }

  function AttemptCore(t: Attempt, step: PlanStep): Core {
    Core(if t.key == "" then None else Some(step.operation), KeyText(t.key),
         Some(step.business), Some(step.identity), None)
  }

  function AttemptAction(t: Attempt, step: PlanStep): Action {
    var action := BLANK_ACTION.(businessKey := Some(step.business), identity := Some(step.identity));
    if t.key == "" then action
    else action.(externalKey := Some(t.key), operation := Some(step.operation))
  }

  lemma AttemptActionAllowed(
    db: Db, layout: Layout, ids: Identities, canon: Canon, orphans: Orphans, t: Attempt, step: PlanStep)
    requires Rendered(db, layout) && CoresOnly(layout, ids) && KeysKnown(layout, canon, orphans)
    requires t.key !in canon.owners && t.key !in orphans
    ensures AttemptAction(t, step) == ActionOf(Home(AttemptCore(t, step), None, None, None, None))
    ensures CanCreateAction(db, AttemptAction(t, step))
  {
    CreationAllowed(db, AttemptAction(t, step));
  }

  /** What the canonical rows of a key say, read back from the tables. */
  lemma CanonicalRead(db: Db, layout: Layout, ids: Identities, canon: Canon, key: string)
    requires Rendered(db, layout) && CoresOnly(layout, ids) && ExternalsPlaced(layout, ids, canon)
    requires key in canon.rows
    ensures key != "" && canon.rows[key].key == key && key in canon.owners && canon.owners[key] in db.actions
    ensures key in canon.bodies && canon.bodies[key] in db.receipts
    ensures db.actions[canon.owners[key]].businessKey == Some(canon.rows[key].business)
    ensures db.actions[canon.owners[key]].identity == Some(canon.rows[key].identity)
    ensures db.receipts[canon.bodies[key]].operation == Some(canon.rows[key].operation)
    ensures db.receipts[canon.bodies[key]].target == Some(canon.rows[key].target)
    ensures canon.owners[key] in layout.homes && layout.homes[canon.owners[key]].core == ExternalCore(canon.rows[key])
  {
    assert ExternalPlaced(layout, ids, canon, key);
  }

  lemma OrphansStay(
    layout: Layout, layout': Layout, plan: Plan, canon: Canon, rows: set<Attempt>, orphans: Orphans, t: Attempt)
    requires OrphansPlaced(layout, plan, canon, rows, orphans)
    requires forall a | a in layout.homes :: a in layout'.homes && layout'.homes[a].core == layout.homes[a].core
    requires t.key == "" || t.key in canon.rows || t.key in orphans
    ensures OrphansPlaced(layout', plan, canon, rows + {t}, orphans)
  {
    forall key | key in orphans
      ensures OrphanPlaced(layout', canon, key, orphans[key]) && OrphanSeen(plan, rows + {t}, key, orphans[key].0)
    {
      var a := orphans[key].1;
      assert a in layout.homes;
      var u :| u in rows && u.key == key && (u.execution, u.index) in plan
               && EffectOf(plan[(u.execution, u.index)]) == orphans[key].0;
      assert u in rows + {t};
    }
  }

  lemma OrphanAdded(
    layout: Layout, plan: Plan, canon: Canon, rows: set<Attempt>, orphans: Orphans, t: Attempt, a: int)
    requires OrphansPlaced(layout, plan, canon, rows, orphans)
    requires t.key != "" && t.key !in canon.rows && t.key !in orphans && a !in layout.homes
    requires (t.execution, t.index) in plan
    ensures
      var step := plan[(t.execution, t.index)];
      var layout' := layout.(homes := layout.homes[a := Home(AttemptCore(t, step), None, None, None, None)]);
      OrphansPlaced(layout', plan, canon, rows + {t}, orphans[t.key := (EffectOf(step), a)])
  {
    var step := plan[(t.execution, t.index)];
    var layout' := layout.(homes := layout.homes[a := Home(AttemptCore(t, step), None, None, None, None)]);
    var orphans' := orphans[t.key := (EffectOf(step), a)];
    forall key | key in orphans'
      ensures OrphanPlaced(layout', canon, key, orphans'[key]) && OrphanSeen(plan, rows + {t}, key, orphans'[key].0)
    {
      if key == t.key {
        assert t in rows + {t};
      } else {
        var u :| u in rows && u.key == key && (u.execution, u.index) in plan
                 && EffectOf(plan[(u.execution, u.index)]) == orphans[key].0;
        assert u in rows + {t};
      }
    }
  }

  /** Why an attempt is refused before anything is written for it. */
  ghost predicate Conflicts(plan: Plan, canon: map<string, External>, rows: set<Attempt>, t: Attempt)
    requires (t.execution, t.index) in plan
  {
    var step := plan[(t.execution, t.index)];
    || (t.key in canon && !MatchesCanonical(step, canon[t.key]))
    || (t.key != "" && t.key !in canon
        && exists u :: u in rows && u.key == t.key && (u.execution, u.index) in plan
                       && !SameEffect(plan[(u.execution, u.index)], step))
  }

  lemma ConflictIs(layout: Layout, plan: Plan, canon: Canon, rows: set<Attempt>, orphans: Orphans, t: Attempt)
    requires OrphansPlaced(layout, plan, canon, rows, orphans) && AttemptsConsistent(plan, canon.rows, rows)
    requires (t.execution, t.index) in plan
    ensures Conflicts(plan, canon.rows, rows, t) <==>
      if t.key in canon.rows then !MatchesCanonical(plan[(t.execution, t.index)], canon.rows[t.key])
      else t.key in orphans && orphans[t.key].0 != EffectOf(plan[(t.execution, t.index)])
  {
    if t.key in orphans && t.key !in canon.rows {
      var u :| u in rows && u.key == t.key && (u.execution, u.index) in plan
               && EffectOf(plan[(u.execution, u.index)]) == orphans[t.key].0;
      assert OrphanPlaced(layout, canon, t.key, orphans[t.key]);
      forall v | v in rows && v.key == t.key
        ensures (v.execution, v.index) in plan && EffectOf(plan[(v.execution, v.index)]) == orphans[t.key].0
      {
        assert AttemptConsistent(plan, canon.rows, v);
        assert AttemptPairConsistent(plan, canon.rows, u, v);
      }
    }
  }

  /** All the dictionaries and tables agree with the attempts placed so far. */
  ghost predicate OwnersKept(
    layout: Layout, ids: Identities, plan: Plan, canon: Canon, rows: set<Attempt>, orphans: Orphans)
  {
    && ExternalsPlaced(layout, ids, canon) && CoresOnly(layout, ids)
    && KeysKnown(layout, canon, orphans) && OrphansPlaced(layout, plan, canon, rows, orphans)
  }

  lemma OwnersCores(layout: Layout, ids: Identities, plan: Plan, canon: Canon, rows: set<Attempt>, orphans: Orphans)
    requires OwnersKept(layout, ids, plan, canon, rows, orphans)
    ensures CoresOnly(layout, ids)
  {
  }

  lemma KeyAdded(layout: Layout, canon: Canon, orphans: Orphans, t: Attempt, step: PlanStep, a: int)
    requires KeysKnown(layout, canon, orphans) && a !in layout.homes && t.key !in orphans
    ensures
      var layout' := layout.(homes := layout.homes[a := Home(AttemptCore(t, step), None, None, None, None)]);
      KeysKnown(layout', canon, if t.key == "" then orphans else orphans[t.key := (EffectOf(step), a)])
  {
  }

  lemma HomeAdded(
    layout: Layout, ids: Identities, plan: Plan, canon: Canon, rows: set<Attempt>, orphans: Orphans, t: Attempt, a: int)
    requires OwnersKept(layout, ids, plan, canon, rows, orphans)
    requires (t.execution, t.index) in plan && a !in layout.homes && t.key !in canon.rows && t.key !in orphans
    ensures
      var step := plan[(t.execution, t.index)];
      var layout' := layout.(homes := layout.homes[a := Home(AttemptCore(t, step), None, None, None, None)]);
      var orphans' := if t.key == "" then orphans else orphans[t.key := (EffectOf(step), a)];
      && OwnersKept(layout', ids, plan, canon, rows + {t}, orphans')
      && OwnerRight(layout', t, step, a) && Grown(layout, ids, layout', ids)
  {
    var step := plan[(t.execution, t.index)];
    var layout' := layout.(homes := layout.homes[a := Home(AttemptCore(t, step), None, None, None, None)]);
    assert Grown(layout, ids, layout', ids);
    ExternalsStay(layout, ids, layout', ids, canon);
    KeyAdded(layout, canon, orphans, t, step, a);
    if t.key == "" {
      OrphansStay(layout, layout', plan, canon, rows, orphans, t);
    } else {
      OrphanAdded(layout, plan, canon, rows, orphans, t, a);
    }
    assert CoresOnly(layout', ids);
    hide ExternalsPlaced;
    hide OrphansPlaced;
    hide KeysKnown;
    hide CoresOnly;
  }

  lemma JoinedCanonical(
    layout: Layout, ids: Identities, plan: Plan, canon: Canon, rows: set<Attempt>, orphans: Orphans, t: Attempt)
    requires OwnersKept(layout, ids, plan, canon, rows, orphans)
    requires (t.execution, t.index) in plan && t.key in canon.rows
    requires MatchesCanonical(plan[(t.execution, t.index)], canon.rows[t.key])
    ensures OwnersKept(layout, ids, plan, canon, rows + {t}, orphans)
    ensures t.key in canon.owners && OwnerRight(layout, t, plan[(t.execution, t.index)], canon.owners[t.key])
  {
    assert ExternalPlaced(layout, ids, canon, t.key);
    OrphansStay(layout, layout, plan, canon, rows, orphans, t);
  }

  lemma JoinedOrphan(
    layout: Layout, ids: Identities, plan: Plan, canon: Canon, rows: set<Attempt>, orphans: Orphans, t: Attempt)
    requires OwnersKept(layout, ids, plan, canon, rows, orphans)
    requires (t.execution, t.index) in plan && t.key in orphans
    requires orphans[t.key].0 == EffectOf(plan[(t.execution, t.index)])
    ensures OwnersKept(layout, ids, plan, canon, rows + {t}, orphans)
    ensures OwnerRight(layout, t, plan[(t.execution, t.index)], orphans[t.key].1)
  {
    assert OrphanPlaced(layout, canon, t.key, orphans[t.key]);
    OrphansStay(layout, layout, plan, canon, rows, orphans, t);
  }

  lemma SameKeys(layout: Layout, ids: Identities, plan: Plan, canon: Canon, rows: set<Attempt>, orphans: Orphans)
    requires OwnersKept(layout, ids, plan, canon, rows, orphans)
    ensures canon.rows.Keys == canon.owners.Keys == canon.bodies.Keys
    ensures Grown(layout, ids, layout, ids)
  {
  }

  lemma MatchIs(step: PlanStep, e: External)
    ensures MatchesCanonical(step, e) <==>
      e.business == step.business && e.identity == step.identity && e.operation == step.operation && e.target == step.target
  {
  }

  lemma OwnersGive(
    db: Db, layout: Layout, ids: Identities, plan: Plan, canon: Canon, rows: set<Attempt>, orphans: Orphans)
    requires Kept(db, layout) && OwnersKept(layout, ids, plan, canon, rows, orphans)
    ensures Rendered(db, layout) && ExternalsPlaced(layout, ids, canon) && CoresOnly(layout, ids)
    ensures KeysKnown(layout, canon, orphans) && OrphansPlaced(layout, plan, canon, rows, orphans)
  {
  }

  lemma OrphanKeyed(layout: Layout, plan: Plan, canon: Canon, rows: set<Attempt>, orphans: Orphans, key: string)
    requires OrphansPlaced(layout, plan, canon, rows, orphans) && key in orphans
    ensures key != "" && orphans[key].1 in layout.homes
  {
    assert OrphanPlaced(layout, canon, key, orphans[key]);
  }

  method ResolveOwner(
    c: Ledger.Connection, t: Attempt, plan: Plan, owners: map<string, int>, bodies: map<string, int>, orphans: Orphans,
    ghost layout: Layout, ghost canon: Canon, ghost rows: set<Attempt>)
    returns (ok: bool, a: int, orphans': Orphans, ghost layout': Layout)
    requires Kept(c.db, layout) && OwnersKept(layout, c.db.identities, plan, canon, rows, orphans)
    requires owners == canon.owners && bodies == canon.bodies && (t.execution, t.index) in plan
    requires AttemptsConsistent(plan, canon.rows, rows)
    modifies c
    ensures ok <==> !Conflicts(plan, canon.rows, rows, t)
    ensures ok ==> Kept(c.db, layout') && OwnersKept(layout', c.db.identities, plan, canon, rows + {t}, orphans')
    ensures ok ==> OwnerRight(layout', t, plan[(t.execution, t.index)], a)
    ensures ok && t.key == "" ==> a !in layout.homes
    ensures ok ==> forall b | b in layout'.homes && b != a :: b in layout.homes && layout'.homes[b] == layout.homes[b]
    ensures ok ==> Grown(layout, c.db.identities, layout', c.db.identities) && layout'.pieces == layout.pieces
    ensures c.db.identities == old(c.db.identities) && c.db.observers == old(c.db.observers)
  {
    hide *;
    var step := plan[(t.execution, t.index)];
    a, orphans', layout' := 0, orphans, layout;
    OwnersGive(c.db, layout, c.db.identities, plan, canon, rows, orphans);
    ConflictIs(layout, plan, canon, rows, orphans, t);
    SameKeys(layout, c.db.identities, plan, canon, rows, orphans);
    if t.key in owners {
      a := owners[t.key];
      CanonicalRead(c.db, layout, c.db.identities, canon, t.key);
      var action, body := c.db.actions[a], c.db.receipts[bodies[t.key]];
      ok := action.businessKey == Some(step.business) && action.identity == Some(step.identity)
        && body.operation == Some(step.operation) && body.target == Some(step.target);
      assert ok <==> MatchesCanonical(step, canon.rows[t.key]) by { MatchIs(step, canon.rows[t.key]); }
      assert t.key != "";
      if ok { JoinedCanonical(layout, c.db.identities, plan, canon, rows, orphans, t); }
    } else if t.key in orphans {
      OrphanKeyed(layout, plan, canon, rows, orphans, t.key);
      a := orphans[t.key].1;
      ok := orphans[t.key].0 == EffectOf(step);
      if ok { JoinedOrphan(layout, c.db.identities, plan, canon, rows, orphans, t); }
    } else {
      AttemptActionAllowed(c.db, layout, c.db.identities, canon, orphans, t, step);
      ok := true;
      a, layout' := CreateHome(c, AttemptAction(t, step), layout, Home(AttemptCore(t, step), None, None, None, None));
      HomeAdded(layout, c.db.identities, plan, canon, rows, orphans, t, a);
      if t.key != "" {
        orphans' := orphans[t.key := (EffectOf(step), a)];
      }
    }
  }

  // ---------- the attempt's own receipt ----------

  lemma SlotIsFree(db: Db, layout: Layout, ids: Identities, plan: Plan, canon: Canon, rows: set<Attempt>, t: Attempt, piece: Piece)
    requires Rendered(db, layout) && CoresOnly(layout, ids) && AttemptsPlaced(layout, ids, plan, canon, rows)
    requires forall u | u in rows :: (u.execution, u.index) != (t.execution, t.index)
    requires piece.origin.Observed? && piece.origin.attempt == t
    ensures SlotFree(db.receipts, db.nextReceipt, ReceiptOf(piece))
  {
    forall r | r in db.receipts ensures !SameSlot(db.receipts[r], ReceiptOf(piece)) {
      assert db.receipts[r] == ReceiptOf(layout.pieces[r]);
      if layout.pieces[r].origin.Observed? { assert layout.pieces[r].origin.attempt in rows; }
    }
  }

  lemma AttemptReceiptAllowed(
    db: Db, layout: Layout, ids: Identities, plan: Plan, canon: Canon, rows: set<Attempt>, t: Attempt, step: PlanStep, a: int)
    requires Rendered(db, layout) && CoresOnly(layout, ids) && AttemptsPlaced(layout, ids, plan, canon, rows)
    requires ExternalsPlaced(layout, ids, canon) && OwnerRight(layout, t, step, a)
    requires forall u | u in rows :: (u.execution, u.index) != (t.execution, t.index)
    requires t.status in ATTEMPT_STATUSES
    requires t.key in canon.rows ==> t.key in canon.owners && canon.owners[t.key] == a
    ensures CanInsertReceipt(db, ReceiptOf(Piece(a, AttemptOrigin(t, step, canon))))
  {
    var piece := Piece(a, AttemptOrigin(t, step, canon));
    SlotIsFree(db, layout, ids, plan, canon, rows, t, piece);
    if t.key in canon.rows {
      assert ExternalPlaced(layout, ids, canon, t.key);
      var body := canon.bodies[t.key];
      assert db.receipts[body] == ReceiptOf(layout.pieces[body]);
    }
  }

  lemma AttemptPlacedStays(
    layout: Layout, ids: Identities, layout': Layout, ids': Identities, plan: Plan, canon: Canon, t: Attempt)
    requires AttemptPlaced(layout, ids, plan, canon, t) && Grown(layout, ids, layout', ids')
    ensures AttemptPlaced(layout', ids', plan, canon, t)
    ensures ids'[(CandidateAttempt, IntegerId(t.id))] == ids[(CandidateAttempt, IntegerId(t.id))]
  {
    var r := ids[(CandidateAttempt, IntegerId(t.id))].receipt.value;
    assert r in layout.pieces;
  }

  function WithAttempt(layout: Layout, t: Attempt, step: PlanStep, canon: Canon, a: int, r: int): Layout {
    layout.(pieces := layout.pieces[r := Piece(a, AttemptOrigin(t, step, canon))])
  }

  lemma AttemptRowsStay(
    layout: Layout, ids: Identities, layout': Layout, ids': Identities, plan: Plan, canon: Canon, rows: set<Attempt>, added: set<int>)
    requires AttemptsPlaced(layout, ids, plan, canon, rows) && Grown(layout, ids, layout', ids')
    requires forall r | r in layout'.pieces && layout'.pieces[r].origin.Observed? :: r in layout.pieces || r in added
    ensures forall t | t in rows :: AttemptPlaced(layout', ids', plan, canon, t)
    ensures forall r | r in layout'.pieces && r !in added && layout'.pieces[r].origin.Observed? ::
      var t := layout'.pieces[r].origin.attempt;
      t in rows && AttemptPlaced(layout', ids', plan, canon, t)
      && ids'[(CandidateAttempt, IntegerId(t.id))] == Mapped(layout'.pieces[r].owner, Some(r))
  {
    forall t | t in rows ensures AttemptPlaced(layout', ids', plan, canon, t) {
      AttemptPlacedStays(layout, ids, layout', ids', plan, canon, t);
    }
    forall r | r in layout'.pieces && r !in added && layout'.pieces[r].origin.Observed?
      ensures layout'.pieces[r].origin.attempt in rows
      ensures AttemptPlaced(layout', ids', plan, canon, layout'.pieces[r].origin.attempt)
      ensures ids'[(CandidateAttempt, IntegerId(layout'.pieces[r].origin.attempt.id))] == Mapped(layout'.pieces[r].owner, Some(r))
    {
      assert r in layout.pieces && layout.pieces[r] == layout'.pieces[r];
      AttemptPlacedStays(layout, ids, layout', ids', plan, canon, layout.pieces[r].origin.attempt);
    }
  }

  /** No later row takes an attempt's place, as long as no new attempt row is written. */
  lemma AttemptsStay(
    layout: Layout, ids: Identities, layout': Layout, ids': Identities, plan: Plan, canon: Canon, rows: set<Attempt>)
    requires AttemptsPlaced(layout, ids, plan, canon, rows) && Grown(layout, ids, layout', ids')
    requires forall r | r in layout'.pieces && layout'.pieces[r].origin.Observed? :: r in layout.pieces
    requires forall k | k in ids' && k.0 == CandidateAttempt :: k in ids
    ensures AttemptsPlaced(layout', ids', plan, canon, rows)
  {
    AttemptRowsStay(layout, ids, layout', ids', plan, canon, rows, {});
  }

  lemma AttemptAdded(
    layout: Layout, ids: Identities, plan: Plan, canon: Canon, rows: set<Attempt>, t: Attempt, a: int, r: int)
    requires AttemptsPlaced(layout, ids, plan, canon, rows)
    requires (t.execution, t.index) in plan && OwnerRight(layout, t, plan[(t.execution, t.index)], a)
    requires r !in layout.pieces && (CandidateAttempt, IntegerId(t.id)) !in ids
    ensures
      var layout' := WithAttempt(layout, t, plan[(t.execution, t.index)], canon, a, r);
      var ids' := ids[(CandidateAttempt, IntegerId(t.id)) := Mapped(a, Some(r))];
      AttemptsPlaced(layout', ids', plan, canon, rows + {t}) && Grown(layout, ids, layout', ids')
  {
    var layout' := WithAttempt(layout, t, plan[(t.execution, t.index)], canon, a, r);
    var ids' := ids[(CandidateAttempt, IntegerId(t.id)) := Mapped(a, Some(r))];
    assert Grown(layout, ids, layout', ids');
    AttemptRowsStay(layout, ids, layout', ids', plan, canon, rows, {r});
    assert AttemptPlaced(layout', ids', plan, canon, t);
    forall identity | (CandidateAttempt, identity) in ids'
      ensures exists u :: u in rows + {t} && identity == IntegerId(u.id)
    {
      if (CandidateAttempt, identity) in ids {
        var u :| u in rows && identity == IntegerId(u.id);
        assert u in rows + {t};
      } else {
        assert t in rows + {t};
      }
    }
  }

  lemma AttemptIdNew(layout: Layout, ids: Identities, plan: Plan, canon: Canon, rows: set<Attempt>, t: Attempt)
    requires AttemptsPlaced(layout, ids, plan, canon, rows)
    requires forall u | u in rows :: u.id != t.id
    ensures (CandidateAttempt, IntegerId(t.id)) !in ids
  {
  }

  lemma OwnersStay(
    layout: Layout, ids: Identities, plan: Plan, canon: Canon, rows: set<Attempt>, orphans: Orphans,
    t: Attempt, step: PlanStep, a: int, r: int)
    requires OwnersKept(layout, ids, plan, canon, rows, orphans)
    requires r !in layout.pieces && (CandidateAttempt, IntegerId(t.id)) !in ids
    ensures
      var layout' := WithAttempt(layout, t, step, canon, a, r);
      var ids' := ids[(CandidateAttempt, IntegerId(t.id)) := Mapped(a, Some(r))];
      OwnersKept(layout', ids', plan, canon, rows, orphans)
  {
    var layout' := WithAttempt(layout, t, step, canon, a, r);
    var ids' := ids[(CandidateAttempt, IntegerId(t.id)) := Mapped(a, Some(r))];
    assert Grown(layout, ids, layout', ids');
    ExternalsStay(layout, ids, layout', ids', canon);
    assert forall key | key in orphans :: OrphanPlaced(layout, canon, key, orphans[key]);
  }

  lemma CanonicalOwner(
    db: Db, layout: Layout, ids: Identities, plan: Plan, canon: Canon, rows: set<Attempt>, orphans: Orphans,
    t: Attempt, step: PlanStep, a: int)
    requires Kept(db, layout) && OwnersKept(layout, ids, plan, canon, rows, orphans)
    requires OwnerRight(layout, t, step, a) && t.key in canon.rows
    ensures t.key in canon.owners && canon.owners[t.key] == a
  {
    assert ExternalPlaced(layout, ids, canon, t.key);
    var owner := canon.owners[t.key];
    assert NoOtherClashes(db.actions, a, db.actions[a]);
    assert db.actions[a] == ActionOf(layout.homes[a]) && db.actions[owner] == ActionOf(layout.homes[owner]);
    assert db.actions[a].externalKey == Some(t.key) && db.actions[owner].externalKey == Some(t.key);
  }

  ghost predicate DeliveryClash(plan: Plan, rows: set<Attempt>, t: Attempt)
    requires (t.execution, t.index) in plan
  {
    exists u ::
      u in rows && (u.execution, u.index) in plan
      && plan[(u.execution, u.index)].Delivery() == plan[(t.execution, t.index)].Delivery()
      && !(u.key == t.key && t.key != "")
  }

  ghost predicate AttemptNew(rows: set<Attempt>, t: Attempt) {
    && (forall u | u in rows :: u.id != t.id && (u.execution, u.index) != (t.execution, t.index))
    && t.status in ATTEMPT_STATUSES
  }

  lemma ConsistentWith(plan: Plan, canon: map<string, External>, rows: set<Attempt>, t: Attempt)
    requires AttemptsConsistent(plan, canon, rows) && AttemptNew(rows, t)
    ensures AttemptsConsistent(plan, canon, rows + {t}) <==>
      (t.execution, t.index) in plan && !Conflicts(plan, canon, rows, t) && !DeliveryClash(plan, rows, t)
  {
    assert t in rows + {t};
    if AttemptsConsistent(plan, canon, rows + {t}) {
      assert AttemptConsistent(plan, canon, t);
      forall u | u in rows
        ensures (u.execution, u.index) in plan && AttemptPairConsistent(plan, canon, t, u)
      {
        assert u in rows + {t};
        assert AttemptConsistent(plan, canon, u);
      }
    }
    if (t.execution, t.index) in plan && !Conflicts(plan, canon, rows, t) && !DeliveryClash(plan, rows, t) {
      forall u | u in rows + {t} ensures AttemptConsistent(plan, canon, u) {
      }
      forall u | u in rows
        ensures AttemptPairConsistent(plan, canon, t, u) && AttemptPairConsistent(plan, canon, u, t)
      {
        assert AttemptConsistent(plan, canon, u);
      }
    }
  }

  lemma DeliveryAdded(
    layout: Layout, ids: Identities, plan: Plan, canon: Canon, rows: set<Attempt>, deliveries: map<Pair, int>,
    t: Attempt, a: int, r: int)
    requires DeliveriesKnown(ids, plan, rows, deliveries)
    requires (t.execution, t.index) in plan && (CandidateAttempt, IntegerId(t.id)) !in ids
    requires
      var pair := plan[(t.execution, t.index)].Delivery();
      pair in deliveries ==> deliveries[pair] == a
    ensures
      DeliveriesKnown(ids[(CandidateAttempt, IntegerId(t.id)) := Mapped(a, Some(r))], plan, rows + {t},
                      deliveries[plan[(t.execution, t.index)].Delivery() := a])
  {
    var deliveries' := deliveries[plan[(t.execution, t.index)].Delivery() := a];
    forall pair | pair in deliveries' ensures DeliverySeen(plan, rows + {t}, pair) {
      if pair in deliveries {
        assert DeliverySeen(plan, rows, pair);
        var u :| u in rows && (u.execution, u.index) in plan && plan[(u.execution, u.index)].Delivery() == pair;
        assert u in rows + {t};
      } else {
        assert t in rows + {t};
      }
    }
  }

  /** At most one Action carries a key: the unique index on external keys. */
  lemma OneHomePerKey(db: Db, layout: Layout, ids: Identities, a: int, b: int)
    requires Kept(db, layout) && CoresOnly(layout, ids)
    requires a in layout.homes && b in layout.homes && layout.homes[a].core.key.Some?
    requires layout.homes[b].core.key == layout.homes[a].core.key
    ensures b == a
  {
    assert NoOtherClashes(db.actions, a, db.actions[a]);
    assert db.actions[a] == ActionOf(layout.homes[a]) && db.actions[b] == ActionOf(layout.homes[b]);
  }

  ghost predicate CandidatesKept(
    layout: Layout, ids: Identities, plan: Plan, canon: Canon, rows: set<Attempt>,
    orphans: Orphans, deliveries: map<Pair, int>)
  {
    && OwnersKept(layout, ids, plan, canon, rows, orphans)
    && AttemptsPlaced(layout, ids, plan, canon, rows)
    && DeliveriesKnown(ids, plan, rows, deliveries)
    && OwnedByKey(ids, rows)
    && Represented(layout, ids)
    && AttemptsConsistent(plan, canon.rows, rows)
  }

  /** The Action found for `t` is shared with exactly the earlier attempts under its key. */
  ghost predicate SharesByKey(ids: Identities, rows: set<Attempt>, t: Attempt, a: int) {
    forall u | u in rows ::
      (CandidateAttempt, IntegerId(u.id)) in ids
      && (ids[(CandidateAttempt, IntegerId(u.id))].action == a <==> u.key == t.key && t.key != "")
  }

  lemma OwnedByKeyAdded(ids: Identities, rows: set<Attempt>, t: Attempt, a: int, r: int)
    requires OwnedByKey(ids, rows) && SharesByKey(ids, rows, t, a)
    requires (CandidateAttempt, IntegerId(t.id)) !in ids
    ensures OwnedByKey(ids[(CandidateAttempt, IntegerId(t.id)) := Mapped(a, Some(r))], rows + {t})
  {
  }

  lemma KeyDecidesOwner(
    db: Db, layout: Layout, layout': Layout, ids: Identities, plan: Plan, canon: Canon, rows: set<Attempt>,
    t: Attempt, a: int)
    requires Kept(db, layout') && CoresOnly(layout', ids)
    requires AttemptsPlaced(layout, ids, plan, canon, rows) && AttemptsPlaced(layout', ids, plan, canon, rows)
    requires a in layout'.homes && layout'.homes[a].core.key == KeyText(t.key)
    requires t.key == "" ==> a !in layout.homes
    ensures SharesByKey(ids, rows, t, a)
    ensures t.key != "" ==> forall b | b in layout'.homes && layout'.homes[b].core.key == Some(t.key) :: b == a
  {
    forall b | b in layout'.homes && t.key != "" && layout'.homes[b].core.key == Some(t.key) ensures b == a {
      OneHomePerKey(db, layout', ids, a, b);
    }
    hide Kept;
    hide CoresOnly;
    forall u | u in rows
      ensures (CandidateAttempt, IntegerId(u.id)) in ids
      ensures ids[(CandidateAttempt, IntegerId(u.id))].action == a <==> u.key == t.key && t.key != ""
    {
      assert AttemptPlaced(layout, ids, plan, canon, u) && AttemptPlaced(layout', ids, plan, canon, u);
    }
  }

  /** Everything the delivery check needs to know about the Action found for `t`. */
  lemma DeliveryDecides(
    db: Db, layout: Layout, layout': Layout, ids: Identities, plan: Plan, canon: Canon, rows: set<Attempt>,
    deliveries: map<Pair, int>, t: Attempt, a: int)
    requires Kept(db, layout') && CoresOnly(layout', ids)
    requires AttemptsPlaced(layout, ids, plan, canon, rows) && DeliveriesKnown(ids, plan, rows, deliveries)
    requires Grown(layout, ids, layout', ids) && layout'.pieces == layout.pieces
    requires AttemptNew(rows, t) && (t.execution, t.index) in plan
    requires OwnerRight(layout', t, plan[(t.execution, t.index)], a)
    requires t.key == "" ==> a !in layout.homes
    ensures AttemptsPlaced(layout', ids, plan, canon, rows) && SharesByKey(ids, rows, t, a)
    ensures
      var pair := plan[(t.execution, t.index)].Delivery();
      (pair in deliveries && deliveries[pair] != a) <==> DeliveryClash(plan, rows, t)
  {
    AttemptsStay(layout, ids, layout', ids, plan, canon, rows);
    KeyDecidesOwner(db, layout, layout', ids, plan, canon, rows, t, a);
    hide AttemptsPlaced;
    hide Kept;
    hide CoresOnly;
    hide Grown;
    hide OwnerRight;
  }

  lemma AttemptReady(
    db: Db, layout: Layout, ids: Identities, plan: Plan, canon: Canon, rows: set<Attempt>, rows': set<Attempt>,
    orphans: Orphans, t: Attempt, a: int)
    requires Kept(db, layout) && OwnersKept(layout, ids, plan, canon, rows', orphans)
    requires AttemptsPlaced(layout, ids, plan, canon, rows) && AttemptNew(rows, t)
    requires (t.execution, t.index) in plan && OwnerRight(layout, t, plan[(t.execution, t.index)], a)
    ensures CanInsertReceipt(db, ReceiptOf(Piece(a, AttemptOrigin(t, plan[(t.execution, t.index)], canon))))
    ensures (CandidateAttempt, IntegerId(t.id)) !in ids
  {
    var step := plan[(t.execution, t.index)];
    if t.key in canon.rows { CanonicalOwner(db, layout, ids, plan, canon, rows', orphans, t, step, a); }
    AttemptReceiptAllowed(db, layout, ids, plan, canon, rows, t, step, a);
    AttemptIdNew(layout, ids, plan, canon, rows, t);
  }

  lemma RepresentedAdded(
    layout: Layout, ids: Identities, t: Attempt, step: PlanStep, canon: Canon, a: int, r: int)
    requires forall b | b in layout.homes && b != a :: Shown(layout.homes[b]) || FactMapped(ids, b)
    requires (CandidateAttempt, IntegerId(t.id)) !in ids
    ensures Represented(WithAttempt(layout, t, step, canon, a, r), ids[(CandidateAttempt, IntegerId(t.id)) := Mapped(a, Some(r))])
  {
    var ids' := ids[(CandidateAttempt, IntegerId(t.id)) := Mapped(a, Some(r))];
    assert (CandidateAttempt, IntegerId(t.id)) in ids' && FactMapped(ids', a);
    forall b | b in layout.homes && b != a && FactMapped(ids, b) ensures FactMapped(ids', b) {
      var k :| k in ids && (k.0 == ExternalResult || k.0 == CandidateAttempt) && ids[k].action == b;
      assert k in ids';
    }
  }

  lemma RepresentedOthers(layout: Layout, layout': Layout, ids: Identities, a: int)
    requires Represented(layout, ids)
    requires forall b | b in layout'.homes && b != a :: b in layout.homes && layout'.homes[b] == layout.homes[b]
    ensures forall b | b in layout'.homes && b != a :: Shown(layout'.homes[b]) || FactMapped(ids, b)
  {
  }

  lemma CandidateAdded(
    layout: Layout, ids: Identities, plan: Plan, canon: Canon, rows: set<Attempt>, orphans: Orphans,
    deliveries: map<Pair, int>, t: Attempt, a: int, r: int)
    requires OwnersKept(layout, ids, plan, canon, rows + {t}, orphans)
    requires AttemptsPlaced(layout, ids, plan, canon, rows) && DeliveriesKnown(ids, plan, rows, deliveries)
    requires OwnedByKey(ids, rows) && SharesByKey(ids, rows, t, a)
    requires forall b | b in layout.homes && b != a :: Shown(layout.homes[b]) || FactMapped(ids, b)
    requires AttemptsConsistent(plan, canon.rows, rows + {t})
    requires (t.execution, t.index) in plan && OwnerRight(layout, t, plan[(t.execution, t.index)], a)
    requires r !in layout.pieces && (CandidateAttempt, IntegerId(t.id)) !in ids
    requires
      var pair := plan[(t.execution, t.index)].Delivery();
      pair in deliveries ==> deliveries[pair] == a
    ensures
      CandidatesKept(WithAttempt(layout, t, plan[(t.execution, t.index)], canon, a, r),
                     ids[(CandidateAttempt, IntegerId(t.id)) := Mapped(a, Some(r))], plan, canon, rows + {t},
                     orphans, deliveries[plan[(t.execution, t.index)].Delivery() := a])
  {
    hide *;
    AttemptAdded(layout, ids, plan, canon, rows, t, a, r);
    OwnersStay(layout, ids, plan, canon, rows + {t}, orphans, t, plan[(t.execution, t.index)], a, r);
    DeliveryAdded(layout, ids, plan, canon, rows, deliveries, t, a, r);
    OwnedByKeyAdded(ids, rows, t, a, r);
    RepresentedAdded(layout, ids, t, plan[(t.execution, t.index)], canon, a, r);
    CandidatesKeptIs(WithAttempt(layout, t, plan[(t.execution, t.index)], canon, a, r),
                     ids[(CandidateAttempt, IntegerId(t.id)) := Mapped(a, Some(r))], plan, canon, rows + {t},
                     orphans, deliveries[plan[(t.execution, t.index)].Delivery() := a]);
  }

  lemma CandidatesKeptIs(
    layout: Layout, ids: Identities, plan: Plan, canon: Canon, rows: set<Attempt>,
    orphans: Orphans, deliveries: map<Pair, int>)
    ensures CandidatesKept(layout, ids, plan, canon, rows, orphans, deliveries) <==>
      OwnersKept(layout, ids, plan, canon, rows, orphans) && AttemptsPlaced(layout, ids, plan, canon, rows)
      && DeliveriesKnown(ids, plan, rows, deliveries) && OwnedByKey(ids, rows)
      && Represented(layout, ids) && AttemptsConsistent(plan, canon.rows, rows)
  {
  }

  /** The receipt of an attempt: its slot, its local outcome and, failing that, the canonical body. */
  function AttemptReceipt(
    a: int, t: Attempt, step: PlanStep, owners: map<string, int>, bodies: map<string, int>): Receipt
  {
    var receipt := BlankReceipt(a).(
      execution := Some(t.execution), actionIndex := Some(t.index), status := Some(t.status),
      outcome := t.outcome, createdAt := Some(t.createdAt), updatedAt := Some(t.updatedAt));
    var named := if t.key != "" && t.key !in owners
                 then receipt.(operation := Some(step.operation), target := Some(step.target)) else receipt;
    if t.outcome.None? && t.key in bodies then named.(provider := Some(bodies[t.key])) else named
  }

  method TransferCandidate(
    c: Ledger.Connection, t: Attempt, plan: Plan, owners: map<string, int>, bodies: map<string, int>,
    orphans: Orphans, deliveries: map<Pair, int>, ghost layout: Layout, ghost canon: Canon, ghost rows: set<Attempt>)
    returns (ok: bool, orphans': Orphans, deliveries': map<Pair, int>, ghost layout': Layout)
    requires Kept(c.db, layout) && CandidatesKept(layout, c.db.identities, plan, canon, rows, orphans, deliveries)
    requires owners == canon.owners && bodies == canon.bodies && AttemptNew(rows, t)
    modifies c
    ensures ok <==> AttemptsConsistent(plan, canon.rows, rows + {t})
    ensures ok ==> Kept(c.db, layout')
    ensures ok ==> CandidatesKept(layout', c.db.identities, plan, canon, rows + {t}, orphans', deliveries')
    ensures c.db.observers == old(c.db.observers)
  {
    hide *;
    orphans', deliveries', layout' := orphans, deliveries, layout;
    CandidatesKeptIs(layout, c.db.identities, plan, canon, rows, orphans, deliveries);
    ConsistentWith(plan, canon.rows, rows, t);
    SameKeys(layout, c.db.identities, plan, canon, rows, orphans);
    if (t.execution, t.index) !in plan {
      return false, orphans', deliveries', layout';
    }
    var step := plan[(t.execution, t.index)];
    var a;
    ghost var owned;
    ok, a, orphans', owned := ResolveOwner(c, t, plan, owners, bodies, orphans, layout, canon, rows);
    if !ok {
      return;
    }
    OwnersCores(owned, c.db.identities, plan, canon, rows + {t}, orphans');
    DeliveryDecides(c.db, layout, owned, c.db.identities, plan, canon, rows, deliveries, t, a);
    AttemptReady(c.db, owned, c.db.identities, plan, canon, rows, rows + {t}, orphans', t, a);
    AttemptReceiptIs(a, t, step, canon);
    RepresentedOthers(layout, owned, c.db.identities, a);
    var r;
    r, layout' := AppendPiece(c, AttemptReceipt(a, t, step, owners, bodies), owned, Piece(a, AttemptOrigin(t, step, canon)));
    ghost var ids := c.db.identities;
    WithAttemptIs(owned, t, step, canon, a, r);
    KeptMapped(c.db, layout', ids[(CandidateAttempt, IntegerId(t.id)) := Mapped(a, Some(r))]);
    var mapped := MapIdentity(c, CandidateAttempt, IntegerId(t.id), a, Some(r));
    var pair := step.Delivery();
    if pair in deliveries && deliveries[pair] != a {
      return false, orphans', deliveries', layout';
    }
    deliveries' := deliveries[pair := a];
    CandidateAdded(owned, ids, plan, canon, rows, orphans', deliveries, t, a, r);
    ok := true;
  }

  lemma WithAttemptIs(layout: Layout, t: Attempt, step: PlanStep, canon: Canon, a: int, r: int)
    ensures WithAttempt(layout, t, step, canon, a, r)
      == layout.(pieces := layout.pieces[r := Piece(a, AttemptOrigin(t, step, canon))])
  {
  }

  lemma AttemptReceiptIs(a: int, t: Attempt, step: PlanStep, canon: Canon)
    requires canon.rows.Keys == canon.owners.Keys
    ensures AttemptReceipt(a, t, step, canon.owners, canon.bodies) == ReceiptOf(Piece(a, AttemptOrigin(t, step, canon)))
  {
  }

  // ---------- the two loops ----------

  function Rows<T>(rows: seq<T>): set<T> { set t | t in rows }

  ghost predicate PlanConsistent(plan: Plan) {
    forall x, y | x in plan && y in plan && plan[x].Delivery() == plan[y].Delivery() :: CandidateOf(plan[x]) == CandidateOf(plan[y])
  }

  ghost predicate PreparedKnown(plan: Plan, keys: set<(int, int)>, prepared: map<Pair, PreparedCandidate>) {
    && (forall k | k in keys && k in plan :: plan[k].Delivery() in prepared && prepared[plan[k].Delivery()] == CandidateOf(plan[k]))
    && (forall pair | pair in prepared :: exists k :: k in keys && k in plan && plan[k].Delivery() == pair)
  }

  /** Index of the approved steps by delivery identity; two different steps behind one identity are refused. */
  method PreparedCandidates(plan: Plan, order: seq<(int, int)>)
    returns (ok: bool, prepared: map<Pair, PreparedCandidate>)
    requires forall k :: k in order <==> k in plan
    ensures ok <==> PlanConsistent(plan)
    ensures ok ==> PreparedKnown(plan, plan.Keys, prepared)
  {
    hide *;
    prepared := map[];
    NothingKnown(plan, order);
    for i := 0 to |order|
      invariant PreparedKnown(plan, Rows(order[..i]), prepared)
    {
      assert order[i] in order;
      var step := plan[order[i]];
      var pair := step.Delivery();
      if pair in prepared && prepared[pair] != CandidateOf(step) {
        StepsDiffer(plan, Rows(order[..i]), prepared, order[i]);
        return false, prepared;
      }
      StepKnown(plan, Rows(order[..i]), prepared, order[i]);
      RowsMore(order, i);
      prepared := prepared[pair := CandidateOf(step)];
    }
    RowsAll(order, plan);
    PlanKnown(plan, prepared);
    ok := true;
  }

  lemma NothingKnown(plan: Plan, order: seq<(int, int)>)
    ensures PreparedKnown(plan, Rows(order[..0]), map[])
  {
  }

  lemma StepKnown(plan: Plan, keys: set<(int, int)>, prepared: map<Pair, PreparedCandidate>, k: (int, int))
    requires PreparedKnown(plan, keys, prepared) && k in plan
    requires plan[k].Delivery() in prepared ==> prepared[plan[k].Delivery()] == CandidateOf(plan[k])
    ensures PreparedKnown(plan, keys + {k}, prepared[plan[k].Delivery() := CandidateOf(plan[k])])
  {
    hide CandidateOf;
  }

  lemma StepsDiffer(plan: Plan, keys: set<(int, int)>, prepared: map<Pair, PreparedCandidate>, k: (int, int))
    requires PreparedKnown(plan, keys, prepared) && k in plan && plan[k].Delivery() in prepared
    requires prepared[plan[k].Delivery()] != CandidateOf(plan[k])
    ensures !PlanConsistent(plan)
  {
    var x :| x in keys && x in plan && plan[x].Delivery() == plan[k].Delivery();
    assert CandidateOf(plan[x]) != CandidateOf(plan[k]);
    hide CandidateOf;
  }

  lemma PlanKnown(plan: Plan, prepared: map<Pair, PreparedCandidate>)
    requires PreparedKnown(plan, plan.Keys, prepared)
    ensures PlanConsistent(plan)
  {
    hide CandidateOf;
  }

  lemma RowsMore<T>(rows: seq<T>, i: nat)
    requires i < |rows|
    ensures Rows(rows[..i + 1]) == Rows(rows[..i]) + {rows[i]}
  {
    assert rows[..i + 1] == rows[..i] + [rows[i]];
  }

  lemma RowsAll(order: seq<(int, int)>, plan: Plan)
    requires forall k :: k in order <==> k in plan
    ensures Rows(order[..|order|]) == plan.Keys
  {
    assert order[..|order|] == order;
  }

  lemma NextAttempt(rows: seq<Attempt>, i: nat)
    requires i < |rows| && AttemptsUnique(rows)
    ensures AttemptNew(Rows(rows[..i]), rows[i])
    ensures Rows(rows[..i + 1]) == Rows(rows[..i]) + {rows[i]} <= Rows(rows)
  {
    assert rows[..i + 1] == rows[..i] + [rows[i]];
    assert rows[i] in rows;
    forall u | u in rows[..i] ensures u.id != rows[i].id && (u.execution, u.index) != (rows[i].execution, rows[i].index) {
      var j :| 0 <= j < i && rows[j] == u;
    }
  }

  lemma ConsistentSubset(plan: Plan, canon: map<string, External>, few: set<Attempt>, all: set<Attempt>)
    requires few <= all && AttemptsConsistent(plan, canon, all)
    ensures AttemptsConsistent(plan, canon, few)
  {
    forall t, u | t in few && u in few
      ensures (t.execution, t.index) in plan && (u.execution, u.index) in plan && AttemptPairConsistent(plan, canon, t, u)
    {
      assert AttemptConsistent(plan, canon, t) && AttemptConsistent(plan, canon, u);
    }
  }

  lemma NoneConsistent(plan: Plan, canon: map<string, External>)
    ensures AttemptsConsistent(plan, canon, {})
  {
  }

  lemma NoOwnersYet(layout: Layout, ids: Identities, plan: Plan, canon: Canon)
    requires ExternalsPlaced(layout, ids, canon) && OnlyExternals(layout, ids, canon)
    ensures OwnersKept(layout, ids, plan, canon, {}, map[])
  {
    hide ExternalPlaced;
  }

  lemma NoSlotsYet(layout: Layout, ids: Identities, plan: Plan, canon: Canon)
    requires OnlyExternals(layout, ids, canon)
    ensures AttemptsPlaced(layout, ids, plan, canon, {}) && DeliveriesKnown(ids, plan, {}, map[]) && OwnedByKey(ids, {})
  {
  }

  lemma ResultsRepresented(layout: Layout, ids: Identities, canon: Canon)
    requires ExternalsPlaced(layout, ids, canon) && OnlyExternals(layout, ids, canon)
    ensures Represented(layout, ids)
  {
    forall a | a in layout.homes ensures FactMapped(ids, a) {
      var key := layout.homes[a].core.key.value;
      assert ExternalPlaced(layout, ids, canon, key);
      assert (ExternalResult, TextId(key)) in ids;
    }
  }

  lemma NoAttemptsYet(layout: Layout, ids: Identities, plan: Plan, canon: Canon)
    requires ExternalsPlaced(layout, ids, canon) && OnlyExternals(layout, ids, canon)
    ensures CandidatesKept(layout, ids, plan, canon, {}, map[], map[])
    ensures Rows<Attempt>([]) == {}
  {
    assert Rows<Attempt>([]) == {};
    CandidatesKeptIs(layout, ids, plan, canon, {}, map[], map[]);
    hide *;
    NoOwnersYet(layout, ids, plan, canon);
    NoSlotsYet(layout, ids, plan, canon);
    ResultsRepresented(layout, ids, canon);
    NoneConsistent(plan, canon.rows);
  }

  method TransferCandidates(
    c: Ledger.Connection, rows: seq<Attempt>, plan: Plan, owners: map<string, int>, bodies: map<string, int>,
    ghost layout: Layout, ghost canon: Canon)
    returns (ok: bool, deliveries: map<Pair, int>, ghost layout': Layout, ghost orphans: Orphans)
    requires Kept(c.db, layout) && AttemptsUnique(rows)
    requires ExternalsPlaced(layout, c.db.identities, canon) && OnlyExternals(layout, c.db.identities, canon)
    requires owners == canon.owners && bodies == canon.bodies
    modifies c
    ensures ok <==> AttemptsConsistent(plan, canon.rows, Rows(rows))
    ensures ok ==> Kept(c.db, layout')
    ensures ok ==> CandidatesKept(layout', c.db.identities, plan, canon, Rows(rows), orphans, deliveries)
    ensures c.db.observers == old(c.db.observers)
  {
    var orphanOwners: Orphans := map[];
    deliveries, layout', orphans := map[], layout, map[];
    hide *;
    NoAttemptsYet(layout, c.db.identities, plan, canon);
    NoneConsistent(plan, canon.rows);
    assert rows[..0] == [];
    for i := 0 to |rows|
      invariant Kept(c.db, layout')
      invariant CandidatesKept(layout', c.db.identities, plan, canon, Rows(rows[..i]), orphanOwners, deliveries)
      invariant AttemptsConsistent(plan, canon.rows, Rows(rows[..i]))
      invariant c.db.observers == old(c.db.observers)
    {
      NextAttempt(rows, i);
      ok, orphanOwners, deliveries, layout' := TransferCandidate(
        c, rows[i], plan, owners, bodies, orphanOwners, deliveries, layout', canon, Rows(rows[..i]));
      if !ok {
        if AttemptsConsistent(plan, canon.rows, Rows(rows)) {
          ConsistentSubset(plan, canon.rows, Rows(rows[..i + 1]), Rows(rows));
        }
        return;
      }
    }
    assert rows[..|rows|] == rows;
    ok, orphans := true, orphanOwners;
  }
}
