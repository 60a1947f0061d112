/** Third phase: prepared messages, with their receipt and dispatch, join the Action they were prepared for. */
module PostfixPhase {
  import opened Wrappers
  import opened ActionEntity
  import opened TransferModel
  import opened ResultPhase
  import opened CandidatePhase
  import Ledger

  /** What the first two phases leave behind, together with the facts they came from. */
  datatype Book = Book(
    facts: Facts, plan: Plan, canon: Canon, deliveries: map<Pair, int>, prepared: map<Pair, PreparedCandidate>)
  {
    ghost function Attempts(): set<Attempt> { Rows(facts.attempts) }
  }

  ghost predicate FirstPhases(layout: Layout, ids: Identities, book: Book) {
    && ExternalsPlaced(layout, ids, book.canon)
    && AttemptsPlaced(layout, ids, book.plan, book.canon, book.Attempts())
    && DeliveriesKnown(ids, book.plan, book.Attempts(), book.deliveries)
    && OwnedByKey(ids, book.Attempts())
    && Represented(layout, ids)
    && AttemptsConsistent(book.plan, book.canon.rows, book.Attempts())
    && PreparedKnown(book.plan, book.plan.Keys, book.prepared)
  }

  ghost predicate NoSents(layout: Layout, ids: Identities) {
    && (forall a | a in layout.homes :: layout.homes[a].sent.None? && layout.homes[a].delivery.None?)
    && (forall r | r in layout.pieces :: !layout.pieces[r].origin.Delivered?)
    && (forall k | k in ids :: k.0 != SentReply && k.0 != SentObserver)
  }

  /**
   * The Action made for a message alone: no key and no operation; business object and identity of the approved
   * steps behind its delivery identity, a selected option appended to the identity, and neither without such a step.
   */
  ghost predicate LoneCore(core: Core, plan: Plan, p: Postfix) {
    && core.key.None? && core.operation.None? && core.run.None?
    && (forall k | k in plan && plan[k].Delivery() == p.Pair() ::
          core.business == Some(plan[k].business)
          && core.identity == Some(if plan[k].option == "" then plan[k].identity else plan[k].identity + ":" + plan[k].option))
    && ((forall k | k in plan :: plan[k].Delivery() != p.Pair()) ==> core.business.None? && core.identity.None?)
  }

  lemma NewCoreLone(p: Postfix, plan: Plan, prepared: map<Pair, PreparedCandidate>)
    requires PreparedKnown(plan, plan.Keys, prepared)
    ensures LoneCore(NewPostfixCore(p, prepared), plan, p)
  {
    forall k | k in plan && plan[k].Delivery() == p.Pair()
      ensures p.Pair() in prepared && prepared[p.Pair()] == CandidateOf(plan[k])
      ensures plan[k].FullIdentity() == if plan[k].option == "" then plan[k].identity else plan[k].identity + ":" + plan[k].option
    {
      assert k in plan.Keys;
    }
  }

  /** Where each prepared message went: to the reviewed owner of its identity, else to an Action of its own. */
  ghost predicate PostfixVia(layout: Layout, ids: Identities, book: Book, p: Postfix) {
    && (OutboundPostfix, PairId(p.Pair())) in ids
    && var a := ids[(OutboundPostfix, PairId(p.Pair()))].action;
       if p.Pair() in book.deliveries then a == book.deliveries[p.Pair()]
       else a in layout.homes && LoneCore(layout.homes[a].core, book.plan, p)
            && forall t | t in book.Attempts() && (CandidateAttempt, IntegerId(t.id)) in ids ::
                 ids[(CandidateAttempt, IntegerId(t.id))].action != a
  }

  ghost predicate PostfixesVia(layout: Layout, ids: Identities, book: Book, rows: set<Postfix>) {
    forall p | p in rows :: PostfixVia(layout, ids, book, p)
  }

  // ---------- when a prepared message is accepted ----------

  ghost predicate AttemptOf(book: Book, t: Attempt, p: Postfix) {
    t in book.Attempts() && (t.execution, t.index) in book.plan
    && book.plan[(t.execution, t.index)].Delivery() == p.Pair()
  }

  /** Attempted steps keep their bare identity, so a prepared message of a selected option conflicts. */
  ghost predicate PostfixAlone(book: Book, p: Postfix) {
    forall t | AttemptOf(book, t, p) :: book.plan[(t.execution, t.index)].option == ""
  }

  ghost predicate PostfixPair(book: Book, p: Postfix, q: Postfix) {
    p != q ==> forall t, u | AttemptOf(book, t, p) && AttemptOf(book, u, q) :: !(t.key == u.key && t.key != "")
  }

  ghost predicate PostfixesConsistent(book: Book, rows: set<Postfix>) {
    && (forall p | p in rows :: PostfixAlone(book, p))
    && (forall p, q | p in rows && q in rows :: PostfixPair(book, p, q))
  }

  ghost predicate PostfixesKept(layout: Layout, ids: Identities, book: Book, rows: set<Postfix>) {
    && FirstPhases(layout, ids, book)
    && NoSents(layout, ids)
    && PostfixesPlaced(layout, ids, book.facts, rows)
    && PostfixesVia(layout, ids, book, rows)
    && PostfixesConsistent(book, rows)
  }

  lemma PostfixesKeptIs(layout: Layout, ids: Identities, book: Book, rows: set<Postfix>)
    ensures PostfixesKept(layout, ids, book, rows) <==>
      FirstPhases(layout, ids, book) && NoSents(layout, ids) && PostfixesPlaced(layout, ids, book.facts, rows)
      && PostfixesVia(layout, ids, book, rows) && PostfixesConsistent(book, rows)
  {
  }

  lemma PostfixesConsistentWith(book: Book, rows: set<Postfix>, p: Postfix)
    requires PostfixesConsistent(book, rows)
    ensures PostfixesConsistent(book, rows + {p}) <==>
      PostfixAlone(book, p) && forall q | q in rows :: PostfixPair(book, p, q)
  {
    if PostfixesConsistent(book, rows + {p}) {
      assert p in rows + {p};
      forall q | q in rows ensures PostfixPair(book, p, q) { assert q in rows + {p}; }
    }
    if PostfixAlone(book, p) && forall q | q in rows :: PostfixPair(book, p, q) {
      forall q, s | q in rows + {p} && s in rows + {p} ensures PostfixPair(book, q, s) {
        if s == p && q in rows { assert PostfixPair(book, p, q); }
      }
    }
  }

  lemma AttemptBehind(layout: Layout, ids: Identities, book: Book, p: Postfix) returns (t: Attempt)
    requires FirstPhases(layout, ids, book) && p.Pair() in book.deliveries
    ensures AttemptOf(book, t, p) && (CandidateAttempt, IntegerId(t.id)) in ids
    ensures ids[(CandidateAttempt, IntegerId(t.id))].action == book.deliveries[p.Pair()]
    ensures book.deliveries[p.Pair()] in layout.homes
  {
    assert DeliverySeen(book.plan, book.Attempts(), p.Pair());
    t :| t in book.Attempts() && (t.execution, t.index) in book.plan
         && book.plan[(t.execution, t.index)].Delivery() == p.Pair();
    assert AttemptPlaced(layout, ids, book.plan, book.canon, t);
  }

  lemma OwnerOccupied(layout: Layout, ids: Identities, book: Book, rows: set<Postfix>, p: Postfix, q: Postfix, a: int)
    requires FirstPhases(layout, ids, book) && PostfixVia(layout, ids, book, q)
    requires p.Pair() in book.deliveries && a == book.deliveries[p.Pair()]
    requires q.Pair() != p.Pair() && ids[(OutboundPostfix, PairId(q.Pair()))].action == a
    ensures !PostfixPair(book, p, q)
  {
    var t := AttemptBehind(layout, ids, book, p);
    assert q.Pair() in book.deliveries;
    var u := AttemptBehind(layout, ids, book, q);
    assert AttemptOf(book, t, p) && AttemptOf(book, u, q) && t != u;
  }

  lemma OwnerFree(layout: Layout, ids: Identities, book: Book, rows: set<Postfix>, p: Postfix, q: Postfix, a: int)
    requires FirstPhases(layout, ids, book) && PostfixesPlaced(layout, ids, book.facts, rows)
    requires PostfixesVia(layout, ids, book, rows)
    requires p.Pair() in book.deliveries && a == book.deliveries[p.Pair()]
    requires q in rows && q.Pair() != p.Pair()
    requires a in layout.homes && layout.homes[a].postfix.None?
    ensures PostfixPair(book, p, q)
  {
    assert PostfixVia(layout, ids, book, q) && PostfixPlaced(layout, ids, book.facts, q);
    forall t, u | AttemptOf(book, t, p) && AttemptOf(book, u, q) ensures !(t.key == u.key && t.key != "") {
      assert ids[(CandidateAttempt, IntegerId(t.id))].action == a;
      assert ids[(CandidateAttempt, IntegerId(u.id))].action == book.deliveries[q.Pair()];
      assert t != u;
    }
  }

  /** The reviewed owner of `p` is taken exactly when a message already placed shares its key. */
  lemma OwnerTaken(layout: Layout, ids: Identities, book: Book, rows: set<Postfix>, p: Postfix)
    requires PostfixesKept(layout, ids, book, rows) && p.Pair() in book.deliveries
    requires forall q | q in rows :: q.Pair() != p.Pair()
    ensures book.deliveries[p.Pair()] in layout.homes
    ensures layout.homes[book.deliveries[p.Pair()]].postfix.None? <==> forall q | q in rows :: PostfixPair(book, p, q)
  {
    var a := book.deliveries[p.Pair()];
    var t := AttemptBehind(layout, ids, book, p);
    hide FirstPhases;
    if layout.homes[a].postfix.Some? {
      var q := layout.homes[a].postfix.value;
      assert q in rows && PostfixVia(layout, ids, book, q);
      hide *;
      OwnerOccupied(layout, ids, book, rows, p, q, a);
    } else {
      hide *;
      PostfixesKeptIs(layout, ids, book, rows);
      forall q | q in rows ensures PostfixPair(book, p, q) {
        OwnerFree(layout, ids, book, rows, p, q, a);
      }
    }
  }

  lemma FullIdentityIs(step: PlanStep)
    ensures step.FullIdentity() == step.identity <==> step.option == ""
  {
    assert |step.FullIdentity()| == |step.identity| + if step.option == "" then 0 else 1 + |step.option|;
  }

  lemma AttemptOwner(layout: Layout, ids: Identities, book: Book, p: Postfix, t: Attempt)
    requires FirstPhases(layout, ids, book) && p.Pair() in book.deliveries && AttemptOf(book, t, p)
    ensures p.Pair() in book.prepared && book.deliveries[p.Pair()] in layout.homes
    ensures
      var core, step := layout.homes[book.deliveries[p.Pair()]].core, book.plan[(t.execution, t.index)];
      core.business == Some(step.business) && core.identity == Some(step.identity)
      && book.prepared[p.Pair()] == CandidateOf(step)
  {
    assert AttemptPlaced(layout, ids, book.plan, book.canon, t);
    assert (t.execution, t.index) in book.plan.Keys;
  }

  /** The reviewed owner carries the bare identity of the attempted step. */
  lemma OwnerIdentity(layout: Layout, ids: Identities, book: Book, p: Postfix)
    requires FirstPhases(layout, ids, book) && p.Pair() in book.deliveries
    ensures p.Pair() in book.prepared && book.deliveries[p.Pair()] in layout.homes
    ensures layout.homes[book.deliveries[p.Pair()]].core.business == Some(book.prepared[p.Pair()].business)
    ensures layout.homes[book.deliveries[p.Pair()]].core.identity.Some?
    ensures PostfixAlone(book, p) <==>
      layout.homes[book.deliveries[p.Pair()]].core.identity == Some(book.prepared[p.Pair()].identity)
  {
    var t := AttemptBehind(layout, ids, book, p);
    hide FirstPhases;
    forall u | AttemptOf(book, u, p)
      ensures book.plan[(u.execution, u.index)].option == "" <==>
        layout.homes[book.deliveries[p.Pair()]].core.identity == Some(book.prepared[p.Pair()].identity)
    {
      AttemptOwner(layout, ids, book, p, u);
      FullIdentityIs(book.plan[(u.execution, u.index)]);
    }
    AttemptOwner(layout, ids, book, p, t);
  }

  // ---------- the Action a prepared message is written to ----------

  function NewPostfixCore(p: Postfix, prepared: map<Pair, PreparedCandidate>): Core {
    if p.Pair() in prepared
    then Core(None, None, Some(prepared[p.Pair()].business), Some(prepared[p.Pair()].identity), None)
    else Core(None, None, None, None, None)
  }

  function NewPostfixAction(p: Postfix, prepared: map<Pair, PreparedCandidate>): Action {
    var bare := BLANK_ACTION.(deliveryChannel := Some(p.channel), deliveryKey := Some(p.key));
    if p.Pair() in prepared
    then bare.(businessKey := Some(prepared[p.Pair()].business), identity := Some(prepared[p.Pair()].identity))
    else bare
  }

  ghost function PostfixHome(layout: Layout, book: Book, p: Postfix): Home {
    if p.Pair() in book.deliveries && book.deliveries[p.Pair()] in layout.homes
    then layout.homes[book.deliveries[p.Pair()]]
    else Home(NewPostfixCore(p, book.prepared), None, None, None, None)
  }

  /** No Action carries the delivery identity of a message that is still to be placed. */
  ghost predicate PairFree(db: Db, pair: Pair, except: int) {
    forall b | b in db.actions && b != except ::
      (db.actions[b].deliveryChannel, db.actions[b].deliveryKey) != (Some(pair.0), Some(pair.1))
  }

  lemma PairStillFree(db: Db, layout: Layout, ids: Identities, facts: Facts, rows: set<Postfix>, p: Postfix)
    requires Rendered(db, layout) && NoSents(layout, ids) && PostfixesPlaced(layout, ids, facts, rows)
    requires forall q | q in rows :: q.Pair() != p.Pair()
    ensures PairFree(db, p.Pair(), db.nextAction)
  {
    forall b | b in db.actions
      ensures (db.actions[b].deliveryChannel, db.actions[b].deliveryKey) != (Some(p.channel), Some(p.key))
    {
      assert db.actions[b] == ActionOf(layout.homes[b]);
      if layout.homes[b].postfix.Some? {
        var q := layout.homes[b].postfix.value;
        assert q in rows;
      }
    }
  }

  lemma NewPostfixAllowed(db: Db, p: Postfix, prepared: map<Pair, PreparedCandidate>)
    requires PairFree(db, p.Pair(), db.nextAction) && db.nextAction !in db.actions
    ensures CanCreateAction(db, NewPostfixAction(p, prepared))
  {
    CreationAllowed(db, NewPostfixAction(p, prepared));
  }

  /** Writing the message's fields cannot be refused once its delivery identity is free. */
  lemma PostfixUpdateAllowed(db: Db, a: int, home: Home, p: Postfix)
    requires Coherent(db) && a in db.actions && PairFree(db, p.Pair(), a)
    requires home.sent.None?
    requires db.actions[a].externalKey == home.core.key
    requires db.actions[a].deliveryReceipt == home.delivery && db.actions[a].preparedReceipt == home.prepared
    ensures CanUpdateAction(db, a, ActionOf(home.(postfix := Some(p))))
  {
    var action := ActionOf(home.(postfix := Some(p)));
    forall b | b in db.actions && b != a ensures !Clash(db.actions[b], action) {
      assert !Clash(db.actions[b], db.actions[a]);
    }
  }

  method PutAction(c: Ledger.Connection, id: int, action: Action) returns (ok: bool)
    requires Coherent(c.db) && id in c.db.actions
    modifies c
    ensures ok <==> CanUpdateAction(old(c.db), id, action)
    ensures c.db == if ok then old(c.db).(actions := old(c.db).actions[id := action]) else old(c.db)
    ensures Coherent(c.db)
  {
    ok := CanUpdateAction(c.db, id, action);
    if ok {
      UpdateActionCoherent(c.db, id, action);
      c.db := c.db.(actions := c.db.actions[id := action]);
    }
  }

  /** The row an identity check reads: the reviewed owner, or the Action just created for the message. */
  method PostfixOwner(
    c: Ledger.Connection, p: Postfix, deliveries: map<Pair, int>, prepared: map<Pair, PreparedCandidate>,
    ghost layout: Layout, ghost book: Book, ghost rows: set<Postfix>)
    returns (a: int)
    requires Kept(c.db, layout) && PostfixesKept(layout, c.db.identities, book, rows)
    requires deliveries == book.deliveries && prepared == book.prepared
    requires forall q | q in rows :: q.Pair() != p.Pair()
    modifies c
    ensures Coherent(c.db) && a in c.db.actions
    ensures p.Pair() in deliveries ==> a == deliveries[p.Pair()] && a in layout.homes && c.db == old(c.db)
    ensures p.Pair() !in deliveries ==>
      a == old(c.db.nextAction) && a !in layout.homes && c.db == WithAction(old(c.db), NewPostfixAction(p, prepared))
  {
    PostfixesKeptIs(layout, c.db.identities, book, rows);
    if p.Pair() in deliveries {
      OwnerTaken(layout, c.db.identities, book, rows, p);
      a := deliveries[p.Pair()];
    } else {
      PairStillFree(c.db, layout, c.db.identities, book.facts, rows, p);
      assert c.db.nextAction !in c.db.actions;
      NewPostfixAllowed(c.db, p, prepared);
      hide *;
      a := c.db.nextAction;
      var reply := c.CreateAction(NewPostfixAction(p, prepared));
    }
  }

  /** What the checks on an Action's row refuse. */
  predicate RowRefuses(current: Action, p: Postfix, prepared: map<Pair, PreparedCandidate>) {
    || (current.preparedBody.Some? && current.preparedBody != Some(p.body))
    || (current.deliveryChannel.Some? && current.deliveryChannel != Some(p.channel))
    || (current.deliveryKey.Some? && current.deliveryKey != Some(p.key))
    || (p.Pair() in prepared
        && ((current.businessKey.Some? && current.businessKey != Some(prepared[p.Pair()].business))
            || (current.identity.Some? && current.identity != Some(prepared[p.Pair()].identity))))
  }

  lemma OwnedRefuses(home: Home, p: Postfix, prepared: map<Pair, PreparedCandidate>)
    requires home.sent.None? && p.Pair() in prepared
    requires home.core.business == Some(prepared[p.Pair()].business) && home.core.identity.Some?
    requires home.postfix.Some? ==> home.postfix.value.Pair() != p.Pair()
    ensures RowRefuses(ActionOf(home), p, prepared) <==>
      home.postfix.Some? || home.core.identity != Some(prepared[p.Pair()].identity)
    ensures WithPostfix(ActionOf(home), Some(p)) == ActionOf(home.(postfix := Some(p)))
  {
  }

  lemma OwnedRow(layout: Layout, ids: Identities, book: Book, rows: set<Postfix>, p: Postfix)
    requires PostfixesKept(layout, ids, book, rows) && p.Pair() in book.deliveries
    requires forall q | q in rows :: q.Pair() != p.Pair()
    ensures book.deliveries[p.Pair()] in layout.homes
    ensures
      var home := layout.homes[book.deliveries[p.Pair()]];
      && home.sent.None?
      && WithPostfix(ActionOf(home), Some(p)) == ActionOf(home.(postfix := Some(p)))
      && (RowRefuses(ActionOf(home), p, book.prepared) <==>
            !(PostfixAlone(book, p) && forall q | q in rows :: PostfixPair(book, p, q)))
      && (!RowRefuses(ActionOf(home), p, book.prepared) ==> home.postfix.None?)
  {
    OwnerTaken(layout, ids, book, rows, p);
    OwnerIdentity(layout, ids, book, p);
    var home := layout.homes[book.deliveries[p.Pair()]];
    assert home.sent.None?;
    if home.postfix.Some? {
      assert home.postfix.value in rows;
    }
    hide *;
    OwnedRefuses(home, p, book.prepared);
  }

  lemma Unattempted(layout: Layout, ids: Identities, book: Book, rows: set<Postfix>, p: Postfix)
    requires FirstPhases(layout, ids, book) && p.Pair() !in book.deliveries
    ensures PostfixAlone(book, p) && forall q | q in rows :: PostfixPair(book, p, q)
  {
    forall t ensures !AttemptOf(book, t, p) {
    }
  }

  lemma NewRow(p: Postfix, prepared: map<Pair, PreparedCandidate>)
    ensures !RowRefuses(NewPostfixAction(p, prepared), p, prepared)
    ensures WithPostfix(NewPostfixAction(p, prepared), Some(p))
      == ActionOf(Home(NewPostfixCore(p, prepared), Some(p), None, None, None))
  {
  }

  lemma HomeWritten(before: Db, db: Db, layout: Layout, a: int, home: Home)
    requires Kept(before, layout)
    requires db.receipts == before.receipts
    requires db.actions == before.actions[a := ActionOf(home)]
    ensures Rendered(db, layout.(homes := layout.homes[a := home]))
  {
  }

  lemma RowReady(
    before: Db, db: Db, layout: Layout, ids: Identities, book: Book, rows: set<Postfix>, p: Postfix, a: int)
    requires Kept(before, layout) && PostfixesKept(layout, ids, book, rows)
    requires forall q | q in rows :: q.Pair() != p.Pair()
    requires Coherent(db) && a in db.actions
    requires p.Pair() in book.deliveries ==> a == book.deliveries[p.Pair()] && a in layout.homes && db == before
    requires p.Pair() !in book.deliveries ==>
      a == before.nextAction && a !in layout.homes && db == WithAction(before, NewPostfixAction(p, book.prepared))
    ensures
      var home := PostfixHome(layout, book, p);
      && (RowRefuses(db.actions[a], p, book.prepared) <==>
            !(PostfixAlone(book, p) && forall q | q in rows :: PostfixPair(book, p, q)))
      && WithPostfix(db.actions[a], Some(p)) == ActionOf(home.(postfix := Some(p)))
      && CanUpdateAction(db, a, ActionOf(home.(postfix := Some(p))))
      && (!RowRefuses(db.actions[a], p, book.prepared) ==> home.postfix.None?)
    ensures db.receipts == before.receipts && db.identities == before.identities && db.observers == before.observers
    ensures
      var action := ActionOf(PostfixHome(layout, book, p).(postfix := Some(p)));
      db.actions[a := action] == before.actions[a := action]
  {
    hide PostfixAlone;
    hide PostfixPair;
    hide RowRefuses;
    hide FirstPhases;
    hide PostfixesPlaced;
    var home := PostfixHome(layout, book, p);
    PostfixesKeptIs(layout, ids, book, rows);
    PairStillFree(before, layout, ids, book.facts, rows, p);
    if p.Pair() in book.deliveries {
      OwnedRow(layout, ids, book, rows, p);
      assert db.actions[a] == ActionOf(home);
    } else {
      Unattempted(layout, ids, book, rows, p);
      NewRow(p, book.prepared);
    }
    assert before.nextAction !in before.actions;
    assert PairFree(db, p.Pair(), a);
    hide PostfixesKept;
    PostfixUpdateAllowed(db, a, home, p);
  }

  lemma LoneIs(layout: Layout, ids: Identities, book: Book, rows: set<Postfix>, p: Postfix)
    requires PostfixesKept(layout, ids, book, rows)
    ensures p.Pair() !in book.deliveries ==> LoneCore(PostfixHome(layout, book, p).core, book.plan, p)
  {
    PostfixesKeptIs(layout, ids, book, rows);
    FirstPhasesIs(layout, ids, book);
    NewCoreLone(p, book.plan, book.prepared);
    hide PostfixesKept;
    hide FirstPhases;
    hide LoneCore;
  }

  method PlacePostfix(
    c: Ledger.Connection, p: Postfix, deliveries: map<Pair, int>, prepared: map<Pair, PreparedCandidate>,
    ghost layout: Layout, ghost book: Book, ghost rows: set<Postfix>)
    returns (ok: bool, a: int, ghost layout': Layout)
    requires Kept(c.db, layout) && PostfixesKept(layout, c.db.identities, book, rows)
    requires deliveries == book.deliveries && prepared == book.prepared
    requires forall q | q in rows :: q.Pair() != p.Pair()
    modifies c
    ensures ok <==> PostfixAlone(book, p) && forall q | q in rows :: PostfixPair(book, p, q)
    ensures ok ==> Kept(c.db, layout')
    ensures ok ==> layout' == layout.(homes := layout.homes[a := PostfixHome(layout, book, p).(postfix := Some(p))])
    ensures ok ==> if p.Pair() in deliveries
                   then a == deliveries[p.Pair()] && a in layout.homes && layout.homes[a].postfix.None?
                   else a !in layout.homes && LoneCore(layout'.homes[a].core, book.plan, p)
    ensures c.db.identities == old(c.db.identities) && c.db.observers == old(c.db.observers)
  {
    layout' := layout;
    LoneIs(layout, c.db.identities, book, rows, p);
    ghost var before := c.db;
    a := PostfixOwner(c, p, deliveries, prepared, layout, book, rows);
    RowReady(before, c.db, layout, before.identities, book, rows, p, a);
    ghost var home := PostfixHome(layout, book, p).(postfix := Some(p));
    ghost var ready := c.db;
    hide *;
    var current := c.db.actions[a];
    if RowRefuses(current, p, prepared) {
      return false, a, layout;
    }
    var written := PutAction(c, a, WithPostfix(current, Some(p)));
    ok := true;
    layout' := layout.(homes := layout.homes[a := home]);
    HomeWritten(before, c.db, layout, a, home);
    KeptIs(c.db, layout');
  }

  lemma KeptIs(db: Db, layout: Layout)
    ensures Kept(db, layout) <==> Coherent(db) && Rendered(db, layout)
  {
  }

  // ---------- its receipt and its map rows ----------

  function PostfixReceiptRow(a: int, p: Postfix, receipts: map<Pair, PreparedReceipt>, dispatches: map<Pair, string>): Receipt {
    var blank := BlankReceipt(a);
    var prepared := if p.Pair() in receipts
                    then blank.(body := Some(receipts[p.Pair()].body), observedAt := Some(receipts[p.Pair()].createdAt))
                    else blank;
    if p.Pair() in dispatches then prepared.(dispatchedAt := Some(dispatches[p.Pair()])) else prepared
  }

  lemma PostfixReceiptReady(db: Db, layout: Layout, facts: Facts, p: Postfix, a: int)
    requires Kept(db, layout) && a in layout.homes
    ensures PostfixReceiptRow(a, p, facts.receipts, facts.dispatches) == ReceiptOf(Piece(a, PostfixOrigin(facts, p)))
    ensures CanInsertReceipt(db, ReceiptOf(Piece(a, PostfixOrigin(facts, p))))
  {
    ReceiptAllowed(db, layout, Piece(a, PostfixOrigin(facts, p)));
  }

  lemma PreparedLinkReady(db: Db, layout: Layout, facts: Facts, p: Postfix, a: int, r: int)
    requires Kept(db, layout) && a in layout.homes
    requires r in layout.pieces && layout.pieces[r] == Piece(a, PostfixOrigin(facts, p)) && p.Pair() in facts.receipts
    ensures a in db.actions
    ensures db.actions[a].(preparedReceipt := Some(r)) == ActionOf(layout.homes[a].(prepared := Some(r)))
    ensures CanUpdateAction(db, a, ActionOf(layout.homes[a].(prepared := Some(r))))
  {
    var action := db.actions[a].(preparedReceipt := Some(r));
    assert db.receipts[r] == ReceiptOf(layout.pieces[r]);
    forall b | b in db.actions && b != a ensures !Clash(db.actions[b], action) {
      assert !Clash(db.actions[b], db.actions[a]);
    }
  }

  function WithPrepared(layout: Layout, facts: Facts, p: Postfix, a: int, r: Option<int>): Layout
    requires a in layout.homes
  {
    if r.None? then layout
    else Layout(
      if p.Pair() in facts.receipts then layout.homes[a := layout.homes[a].(prepared := r)] else layout.homes,
      layout.pieces[r.value := Piece(a, PostfixOrigin(facts, p))])
  }

  method AttachReceipt(
    c: Ledger.Connection, p: Postfix, a: int, receipts: map<Pair, PreparedReceipt>, dispatches: map<Pair, string>,
    ghost layout: Layout, ghost facts: Facts)
    returns (r: Option<int>, ghost layout': Layout)
    requires Kept(c.db, layout) && a in layout.homes
    requires receipts == facts.receipts && dispatches == facts.dispatches
    modifies c
    ensures Kept(c.db, layout')
    ensures r.Some? <==> p.Pair() in receipts || p.Pair() in dispatches
    ensures r.Some? ==> r.value !in layout.pieces
    ensures layout' == WithPrepared(layout, facts, p, a, r)
    ensures c.db.identities == old(c.db.identities) && c.db.observers == old(c.db.observers)
  {
    r, layout' := None, layout;
    if p.Pair() in receipts || p.Pair() in dispatches {
      PostfixReceiptReady(c.db, layout, facts, p, a);
      WithPreparedIs(layout, facts, p, a);
      hide *;
      var id;
      id, layout' := AppendPiece(c, PostfixReceiptRow(a, p, receipts, dispatches), layout, Piece(a, PostfixOrigin(facts, p)));
      r := Some(id);
      if p.Pair() in receipts {
        PreparedLinkReady(c.db, layout', facts, p, a, id);
        ghost var before, home := c.db, layout'.homes[a].(prepared := Some(id));
        var linked := PutAction(c, a, c.db.actions[a].(preparedReceipt := Some(id)));
        HomeWritten(before, c.db, layout', a, home);
        layout' := layout'.(homes := layout'.homes[a := home]);
        KeptIs(c.db, layout');
      }
    }
  }

  lemma WithPreparedIs(layout: Layout, facts: Facts, p: Postfix, a: int)
    requires a in layout.homes
    ensures forall id: int :: WithPrepared(layout, facts, p, a, Some(id)) == Layout(
      if p.Pair() in facts.receipts then layout.homes[a := layout.homes[a].(prepared := Some(id))] else layout.homes,
      layout.pieces[id := Piece(a, PostfixOrigin(facts, p))])
  {
  }

  function WithPostfixRows(ids: Identities, p: Postfix, a: int, r: Option<int>, received: bool, dispatched: bool): Identities {
    var parent := ids[(OutboundPostfix, PairId(p.Pair())) := Mapped(a, r)];
    var receipt := if received then parent[(PostfixReceipt, PairId(p.Pair())) := Mapped(a, r)] else parent;
    if dispatched then receipt[(NativeDispatch, PairId(p.Pair())) := Mapped(a, r)] else receipt
  }

  lemma PairIdNew(layout: Layout, ids: Identities, facts: Facts, rows: set<Postfix>, p: Postfix)
    requires PostfixesPlaced(layout, ids, facts, rows)
    requires forall q | q in rows :: q.Pair() != p.Pair()
    ensures (OutboundPostfix, PairId(p.Pair())) !in ids
    ensures (PostfixReceipt, PairId(p.Pair())) !in ids && (NativeDispatch, PairId(p.Pair())) !in ids
  {
  }

  method MapPostfix(c: Ledger.Connection, p: Postfix, a: int, r: Option<int>, received: bool, dispatched: bool, ghost layout: Layout)
    requires Kept(c.db, layout)
    requires (OutboundPostfix, PairId(p.Pair())) !in c.db.identities
    requires (PostfixReceipt, PairId(p.Pair())) !in c.db.identities && (NativeDispatch, PairId(p.Pair())) !in c.db.identities
    modifies c
    ensures Kept(c.db, layout)
    ensures c.db.identities == WithPostfixRows(old(c.db.identities), p, a, r, received, dispatched)
    ensures c.db.observers == old(c.db.observers)
  {
    KeptMapped(c.db, layout, WithPostfixRows(c.db.identities, p, a, r, received, dispatched));
    hide Kept;
    var mapped := MapIdentity(c, OutboundPostfix, PairId(p.Pair()), a, r);
    if received {
      mapped := MapIdentity(c, PostfixReceipt, PairId(p.Pair()), a, r);
    }
    if dispatched {
      mapped := MapIdentity(c, NativeDispatch, PairId(p.Pair()), a, r);
    }
  }

  // ---------- one more message placed ----------

  lemma FirstPhasesIs(layout: Layout, ids: Identities, book: Book)
    ensures FirstPhases(layout, ids, book) <==>
      ExternalsPlaced(layout, ids, book.canon)
      && AttemptsPlaced(layout, ids, book.plan, book.canon, book.Attempts())
      && DeliveriesKnown(ids, book.plan, book.Attempts(), book.deliveries)
      && OwnedByKey(ids, book.Attempts())
      && Represented(layout, ids)
      && AttemptsConsistent(book.plan, book.canon.rows, book.Attempts())
      && PreparedKnown(book.plan, book.plan.Keys, book.prepared)
  {
  }

  lemma AttemptRowsUntouched(layout: Layout, ids: Identities, layout': Layout, ids': Identities, book: Book)
    requires DeliveriesKnown(ids, book.plan, book.Attempts(), book.deliveries) && OwnedByKey(ids, book.Attempts())
    requires Grown(layout, ids, layout', ids')
    ensures DeliveriesKnown(ids', book.plan, book.Attempts(), book.deliveries) && OwnedByKey(ids', book.Attempts())
  {
    forall t | t in book.Attempts()
      ensures (CandidateAttempt, IntegerId(t.id)) in ids'
      ensures ids'[(CandidateAttempt, IntegerId(t.id))] == ids[(CandidateAttempt, IntegerId(t.id))]
    {
      assert (CandidateAttempt, IntegerId(t.id)) in ids;
    }
  }

  lemma RepresentedStays(layout: Layout, ids: Identities, layout': Layout, ids': Identities)
    requires Represented(layout, ids) && Grown(layout, ids, layout', ids')
    requires forall a | a in layout'.homes ::
      if a in layout.homes then Shown(layout.homes[a]) ==> Shown(layout'.homes[a]) else Shown(layout'.homes[a])
    ensures Represented(layout', ids')
  {
    forall a | a in layout'.homes && !Shown(layout'.homes[a]) ensures FactMapped(ids', a) {
      assert FactMapped(ids, a);
      var k :| k in ids && (k.0 == ExternalResult || k.0 == CandidateAttempt) && ids[k].action == a;
      assert k in ids';
    }
  }

  lemma FirstPhasesStay(layout: Layout, ids: Identities, layout': Layout, ids': Identities, book: Book)
    requires FirstPhases(layout, ids, book) && Grown(layout, ids, layout', ids')
    requires forall r | r in layout'.pieces && (layout'.pieces[r].origin.Observed? || ForResult(layout'.pieces[r].origin)) ::
      r in layout.pieces
    requires forall a | a in layout'.homes ::
      if a in layout.homes then Shown(layout.homes[a]) ==> Shown(layout'.homes[a]) else Shown(layout'.homes[a])
    requires forall k | k in ids' && (k.0 == ExternalResult || k.0 == CandidateAttempt) :: k in ids
    ensures FirstPhases(layout', ids', book)
  {
    hide *;
    FirstPhasesIs(layout, ids, book);
    FirstPhasesIs(layout', ids', book);
    ExternalsStay(layout, ids, layout', ids', book.canon);
    AttemptsStay(layout, ids, layout', ids', book.plan, book.canon, book.Attempts());
    AttemptRowsUntouched(layout, ids, layout', ids', book);
    RepresentedStays(layout, ids, layout', ids');
  }

  /** The layout and the map rows after message `p` has been placed on Action `a` with receipt `r`. */
  ghost predicate PostfixWritten(
    layout: Layout, ids: Identities, book: Book, p: Postfix, a: int, r: Option<int>, layout': Layout, ids': Identities)
  {
    && layout' == WithPrepared(
         layout.(homes := layout.homes[a := PostfixHome(layout, book, p).(postfix := Some(p))]), book.facts, p, a, r)
    && ids' == WithPostfixRows(ids, p, a, r, p.Pair() in book.facts.receipts, p.Pair() in book.facts.dispatches)
    && (r.Some? <==> p.Pair() in book.facts.receipts || p.Pair() in book.facts.dispatches)
    && (r.Some? ==> r.value !in layout.pieces)
    && (if p.Pair() in book.deliveries
        then a == book.deliveries[p.Pair()] && a in layout.homes && layout.homes[a].postfix.None?
        else a !in layout.homes)
    && (OutboundPostfix, PairId(p.Pair())) !in ids
    && (PostfixReceipt, PairId(p.Pair())) !in ids && (NativeDispatch, PairId(p.Pair())) !in ids
  }

  lemma PostfixGrown(
    layout: Layout, ids: Identities, book: Book, p: Postfix, a: int, r: Option<int>, layout': Layout, ids': Identities)
    requires PostfixWritten(layout, ids, book, p, a, r, layout', ids')
    ensures Grown(layout, ids, layout', ids')
    ensures forall x | x in layout'.pieces && !layout'.pieces[x].origin.Prepared? :: x in layout.pieces
    ensures forall x | x in layout'.pieces && (layout'.pieces[x].origin.Observed? || ForResult(layout'.pieces[x].origin)) ::
      x in layout.pieces
    ensures forall b | b in layout'.homes ::
      if b in layout.homes then Shown(layout.homes[b]) ==> Shown(layout'.homes[b]) else Shown(layout'.homes[b])
    ensures forall k | k in ids' && k.0 != OutboundPostfix && k.0 != PostfixReceipt && k.0 != NativeDispatch :: k in ids
    ensures forall b | b in layout'.homes && b != a :: b in layout.homes && layout'.homes[b] == layout.homes[b]
  {
  }

  lemma NoSentsStay(
    layout: Layout, ids: Identities, book: Book, p: Postfix, a: int, r: Option<int>, layout': Layout, ids': Identities)
    requires PostfixWritten(layout, ids, book, p, a, r, layout', ids') && NoSents(layout, ids)
    ensures NoSents(layout', ids')
  {
  }

  lemma PostfixPlacedStays(layout: Layout, ids: Identities, layout': Layout, ids': Identities, facts: Facts, p: Postfix)
    requires PostfixPlaced(layout, ids, facts, p) && Grown(layout, ids, layout', ids')
    requires
      var a := ids[(OutboundPostfix, PairId(p.Pair()))].action;
      a in layout'.homes && layout'.homes[a].postfix == layout.homes[a].postfix
      && layout'.homes[a].prepared == layout.homes[a].prepared
    ensures PostfixPlaced(layout', ids', facts, p)
    ensures ids'[(OutboundPostfix, PairId(p.Pair()))] == ids[(OutboundPostfix, PairId(p.Pair()))]
  {
    var at := ids[(OutboundPostfix, PairId(p.Pair()))];
    if at.receipt.Some? {
      var r := at.receipt.value;
      assert r in layout.pieces;
    }
  }

  lemma NewPostfixPlaced(
    layout: Layout, ids: Identities, book: Book, rows: set<Postfix>, p: Postfix, a: int, r: Option<int>,
    layout': Layout, ids': Identities)
    requires PostfixWritten(layout, ids, book, p, a, r, layout', ids')
    requires PostfixesPlaced(layout, ids, book.facts, rows)
    ensures PostfixPlaced(layout', ids', book.facts, p)
    ensures ids'[(OutboundPostfix, PairId(p.Pair()))] == Mapped(a, r)
    ensures a in layout'.homes && layout'.homes[a].postfix == Some(p)
  {
    assert PostfixHome(layout, book, p).prepared.None?;
  }

  lemma PostfixesPlacedAdded(
    layout: Layout, ids: Identities, book: Book, rows: set<Postfix>, p: Postfix, a: int, r: Option<int>,
    layout': Layout, ids': Identities)
    requires PostfixWritten(layout, ids, book, p, a, r, layout', ids')
    requires PostfixesPlaced(layout, ids, book.facts, rows)
    ensures PostfixesPlaced(layout', ids', book.facts, rows + {p})
  {
    hide PostfixWritten;
    hide PostfixPlaced;
    PostfixGrown(layout, ids, book, p, a, r, layout', ids');
    NewPostfixPlaced(layout, ids, book, rows, p, a, r, layout', ids');
    OldPostfixesStay(layout, ids, book, rows, p, a, r, layout', ids');
    NewPostfixPieces(layout, ids, book, p, a, r, layout', ids');
    NewPostfixIds(layout, ids, book, p, a, r, layout', ids');
    assert p in rows + {p};
    forall identity | (OutboundPostfix, identity) in ids' ensures exists q :: q in rows + {p} && identity == PairId(q.Pair()) {
      if identity != PairId(p.Pair()) {
        var q :| q in rows && identity == PairId(q.Pair());
        assert q in rows + {p};
      }
    }
    ChildRowsAdded(layout, ids, book, rows, p, layout', ids');
  }

  lemma ChildRowsAdded(
    layout: Layout, ids: Identities, book: Book, rows: set<Postfix>, p: Postfix, layout': Layout, ids': Identities)
    requires PostfixesPlaced(layout, ids, book.facts, rows)
    requires forall k | k in ids' :: k in ids || k.1 == PairId(p.Pair())
    requires (PostfixReceipt, PairId(p.Pair())) in ids' ==> p.Pair() in book.facts.receipts
    requires (NativeDispatch, PairId(p.Pair())) in ids' ==> p.Pair() in book.facts.dispatches
    ensures forall identity | (PostfixReceipt, identity) in ids' ::
      exists q :: q in rows + {p} && identity == PairId(q.Pair()) && q.Pair() in book.facts.receipts
    ensures forall identity | (NativeDispatch, identity) in ids' ::
      exists q :: q in rows + {p} && identity == PairId(q.Pair()) && q.Pair() in book.facts.dispatches
  {
    hide PostfixPlaced;
    assert p in rows + {p};
    forall identity | (PostfixReceipt, identity) in ids'
      ensures exists q :: q in rows + {p} && identity == PairId(q.Pair()) && q.Pair() in book.facts.receipts
    {
      if identity != PairId(p.Pair()) {
        var q :| q in rows && identity == PairId(q.Pair()) && q.Pair() in book.facts.receipts;
        assert q in rows + {p};
      }
    }
    forall identity | (NativeDispatch, identity) in ids'
      ensures exists q :: q in rows + {p} && identity == PairId(q.Pair()) && q.Pair() in book.facts.dispatches
    {
      if identity != PairId(p.Pair()) {
        var q :| q in rows && identity == PairId(q.Pair()) && q.Pair() in book.facts.dispatches;
        assert q in rows + {p};
      }
    }
  }

  lemma NewPostfixIds(
    layout: Layout, ids: Identities, book: Book, p: Postfix, a: int, r: Option<int>, layout': Layout, ids': Identities)
    requires PostfixWritten(layout, ids, book, p, a, r, layout', ids')
    ensures forall k | k in ids' :: k in ids || k.1 == PairId(p.Pair())
    ensures (PostfixReceipt, PairId(p.Pair())) in ids' ==> p.Pair() in book.facts.receipts
    ensures (NativeDispatch, PairId(p.Pair())) in ids' ==> p.Pair() in book.facts.dispatches
  {
  }

  lemma NewPostfixPieces(
    layout: Layout, ids: Identities, book: Book, p: Postfix, a: int, r: Option<int>, layout': Layout, ids': Identities)
    requires PostfixWritten(layout, ids, book, p, a, r, layout', ids')
    ensures forall x | x in layout'.pieces && x !in layout.pieces ::
      r == Some(x) && layout'.pieces[x] == Piece(a, PostfixOrigin(book.facts, p))
  {
  }

  lemma OldPostfixesStay(
    layout: Layout, ids: Identities, book: Book, rows: set<Postfix>, p: Postfix, a: int, r: Option<int>,
    layout': Layout, ids': Identities)
    requires PostfixWritten(layout, ids, book, p, a, r, layout', ids')
    requires PostfixesPlaced(layout, ids, book.facts, rows)
    ensures forall q | q in rows ::
      PostfixPlaced(layout', ids', book.facts, q)
      && ids'[(OutboundPostfix, PairId(q.Pair()))] == ids[(OutboundPostfix, PairId(q.Pair()))]
  {
    PostfixGrown(layout, ids, book, p, a, r, layout', ids');
    forall q | q in rows
      ensures PostfixPlaced(layout', ids', book.facts, q)
      ensures ids'[(OutboundPostfix, PairId(q.Pair()))] == ids[(OutboundPostfix, PairId(q.Pair()))]
    {
      assert PostfixPlaced(layout, ids, book.facts, q);
      var b := ids[(OutboundPostfix, PairId(q.Pair()))].action;
      assert b != a;
      PostfixPlacedStays(layout, ids, layout', ids', book.facts, q);
    }
  }

  lemma PostfixesViaAdded(
    layout: Layout, ids: Identities, book: Book, rows: set<Postfix>, p: Postfix, a: int, r: Option<int>,
    layout': Layout, ids': Identities)
    requires PostfixWritten(layout, ids, book, p, a, r, layout', ids')
    requires FirstPhases(layout, ids, book) && PostfixesVia(layout, ids, book, rows)
    ensures PostfixesVia(layout', ids', book, rows + {p})
  {
    PostfixGrown(layout, ids, book, p, a, r, layout', ids');
    NewPostfixVia(layout, ids, book, p, a, r, layout', ids');
    hide PostfixWritten;
    hide FirstPhases;
    forall q | q in rows ensures PostfixVia(layout', ids', book, q) {
      assert PostfixVia(layout, ids, book, q);
    }
  }

  lemma NewPostfixPlace(
    layout: Layout, ids: Identities, book: Book, p: Postfix, a: int, r: Option<int>, layout': Layout, ids': Identities)
    requires PostfixWritten(layout, ids, book, p, a, r, layout', ids')
    ensures (OutboundPostfix, PairId(p.Pair())) in ids' && ids'[(OutboundPostfix, PairId(p.Pair()))] == Mapped(a, r)
    ensures p.Pair() in book.deliveries ==> a == book.deliveries[p.Pair()]
    ensures p.Pair() !in book.deliveries ==>
      a !in layout.homes && a in layout'.homes && layout'.homes[a].core == NewPostfixCore(p, book.prepared)
  {
  }

  lemma NewPostfixVia(
    layout: Layout, ids: Identities, book: Book, p: Postfix, a: int, r: Option<int>, layout': Layout, ids': Identities)
    requires PostfixWritten(layout, ids, book, p, a, r, layout', ids') && FirstPhases(layout, ids, book)
    ensures PostfixVia(layout', ids', book, p)
  {
    hide PostfixWritten;
    hide FirstPhases;
    NewPostfixPlace(layout, ids, book, p, a, r, layout', ids');
    PostfixGrown(layout, ids, book, p, a, r, layout', ids');
    if p.Pair() !in book.deliveries {
      FirstPhasesIs(layout, ids, book);
      NewCoreLone(p, book.plan, book.prepared);
      AttemptsElsewhere(layout, ids, layout', ids', book, a);
    }
  }

  lemma AttemptsElsewhere(layout: Layout, ids: Identities, layout': Layout, ids': Identities, book: Book, a: int)
    requires FirstPhases(layout, ids, book) && Grown(layout, ids, layout', ids')
    requires a !in layout.homes
    requires forall k | k in ids' && k.0 == CandidateAttempt :: k in ids
    ensures forall t | t in book.Attempts() && (CandidateAttempt, IntegerId(t.id)) in ids' ::
      ids'[(CandidateAttempt, IntegerId(t.id))].action != a
  {
    forall t | t in book.Attempts() && (CandidateAttempt, IntegerId(t.id)) in ids'
      ensures ids'[(CandidateAttempt, IntegerId(t.id))].action != a
    {
      assert AttemptPlaced(layout, ids, book.plan, book.canon, t);
    }
  }

  lemma PostfixAdded(
    layout: Layout, ids: Identities, book: Book, rows: set<Postfix>, p: Postfix, a: int, r: Option<int>,
    layout': Layout, ids': Identities)
    requires PostfixWritten(layout, ids, book, p, a, r, layout', ids')
    requires PostfixesKept(layout, ids, book, rows) && PostfixesConsistent(book, rows + {p})
    ensures PostfixesKept(layout', ids', book, rows + {p})
  {
    hide *;
    PostfixesKeptIs(layout, ids, book, rows);
    PostfixesKeptIs(layout', ids', book, rows + {p});
    PostfixGrown(layout, ids, book, p, a, r, layout', ids');
    FirstPhasesStay(layout, ids, layout', ids', book);
    NoSentsStay(layout, ids, book, p, a, r, layout', ids');
    PostfixesPlacedAdded(layout, ids, book, rows, p, a, r, layout', ids');
    PostfixesViaAdded(layout, ids, book, rows, p, a, r, layout', ids');
  }

  method TransferPostfix(
    c: Ledger.Connection, p: Postfix, deliveries: map<Pair, int>, prepared: map<Pair, PreparedCandidate>,
    receipts: map<Pair, PreparedReceipt>, dispatches: map<Pair, string>,
    ghost layout: Layout, ghost book: Book, ghost rows: set<Postfix>)
    returns (ok: bool, ghost layout': Layout)
    requires Kept(c.db, layout) && PostfixesKept(layout, c.db.identities, book, rows)
    requires deliveries == book.deliveries && prepared == book.prepared
    requires receipts == book.facts.receipts && dispatches == book.facts.dispatches
    requires forall q | q in rows :: q.Pair() != p.Pair()
    modifies c
    ensures ok <==> PostfixesConsistent(book, rows + {p})
    ensures ok ==> Kept(c.db, layout') && PostfixesKept(layout', c.db.identities, book, rows + {p})
    ensures c.db.observers == old(c.db.observers)
  {
    hide *;
    layout' := layout;
    PostfixesKeptIs(layout, c.db.identities, book, rows);
    PostfixesConsistentWith(book, rows, p);
    PairIdNew(layout, c.db.identities, book.facts, rows, p);
    ghost var ids := c.db.identities;
    var a, r;
    ghost var placed;
    ok, a, placed := PlacePostfix(c, p, deliveries, prepared, layout, book, rows);
    if !ok {
      return;
    }
    r, layout' := AttachReceipt(c, p, a, receipts, dispatches, placed, book.facts);
    MapPostfix(c, p, a, r, p.Pair() in receipts, p.Pair() in dispatches, layout');
    PostfixWrittenIs(layout, ids, book, p, a, r, placed, layout', c.db.identities);
    PostfixAdded(layout, ids, book, rows, p, a, r, layout', c.db.identities);
  }

  lemma PostfixWrittenIs(
    layout: Layout, ids: Identities, book: Book, p: Postfix, a: int, r: Option<int>,
    placed: Layout, layout': Layout, ids': Identities)
    requires placed == layout.(homes := layout.homes[a := PostfixHome(layout, book, p).(postfix := Some(p))])
    requires layout' == WithPrepared(placed, book.facts, p, a, r)
    requires ids' == WithPostfixRows(ids, p, a, r, p.Pair() in book.facts.receipts, p.Pair() in book.facts.dispatches)
    requires r.Some? <==> p.Pair() in book.facts.receipts || p.Pair() in book.facts.dispatches
    requires r.Some? ==> r.value !in placed.pieces
    requires if p.Pair() in book.deliveries
             then a == book.deliveries[p.Pair()] && a in layout.homes && layout.homes[a].postfix.None?
             else a !in layout.homes
    requires (OutboundPostfix, PairId(p.Pair())) !in ids
    requires (PostfixReceipt, PairId(p.Pair())) !in ids && (NativeDispatch, PairId(p.Pair())) !in ids
    ensures PostfixWritten(layout, ids, book, p, a, r, layout', ids')
  {
  }

  // ---------- the loop ----------

  lemma NextPostfix(rows: seq<Postfix>, i: nat)
    requires i < |rows| && PostfixesUnique(rows)
    ensures forall q | q in Rows(rows[..i]) :: q.Pair() != rows[i].Pair()
    ensures Rows(rows[..i + 1]) == Rows(rows[..i]) + {rows[i]} <= Rows(rows)
  {
    assert rows[..i + 1] == rows[..i] + [rows[i]];
    assert rows[i] in rows;
    forall q | q in rows[..i] ensures q.Pair() != rows[i].Pair() {
      var j :| 0 <= j < i && rows[j] == q;
    }
  }

  lemma PostfixesSubset(book: Book, few: set<Postfix>, all: set<Postfix>)
    requires few <= all && PostfixesConsistent(book, all)
    ensures PostfixesConsistent(book, few)
  {
  }

  lemma NoPostfixesYet(layout: Layout, ids: Identities, book: Book, orphans: Orphans)
    requires CandidatesKept(layout, ids, book.plan, book.canon, book.Attempts(), orphans, book.deliveries)
    requires PreparedKnown(book.plan, book.plan.Keys, book.prepared)
    ensures PostfixesKept(layout, ids, book, {})
    ensures Rows<Postfix>([]) == {}
  {
    CandidatesKeptIs(layout, ids, book.plan, book.canon, book.Attempts(), orphans, book.deliveries);
    FirstPhasesIs(layout, ids, book);
    PostfixesKeptIs(layout, ids, book, {});
    assert OwnersKept(layout, ids, book.plan, book.canon, book.Attempts(), orphans)
      ==> ExternalsPlaced(layout, ids, book.canon) && CoresOnly(layout, ids);
    hide *;
    NothingPrepared(layout, ids, book);
  }

  lemma NothingPrepared(layout: Layout, ids: Identities, book: Book)
    requires CoresOnly(layout, ids)
    ensures NoSents(layout, ids) && PostfixesPlaced(layout, ids, book.facts, {})
    ensures PostfixesVia(layout, ids, book, {}) && PostfixesConsistent(book, {})
    ensures Rows<Postfix>([]) == {}
  {
  }

  method TransferPostfixes(
    c: Ledger.Connection, rows: seq<Postfix>, deliveries: map<Pair, int>, prepared: map<Pair, PreparedCandidate>,
    receipts: map<Pair, PreparedReceipt>, dispatches: map<Pair, string>,
    ghost layout: Layout, ghost book: Book, ghost orphans: Orphans)
    returns (ok: bool, ghost layout': Layout)
    requires Kept(c.db, layout) && PostfixesUnique(rows)
    requires CandidatesKept(layout, c.db.identities, book.plan, book.canon, book.Attempts(), orphans, book.deliveries)
    requires PreparedKnown(book.plan, book.plan.Keys, book.prepared)
    requires deliveries == book.deliveries && prepared == book.prepared
    requires receipts == book.facts.receipts && dispatches == book.facts.dispatches
    modifies c
    ensures ok <==> PostfixesConsistent(book, Rows(rows))
    ensures ok ==> Kept(c.db, layout') && PostfixesKept(layout', c.db.identities, book, Rows(rows))
    ensures c.db.observers == old(c.db.observers)
  {
    layout' := layout;
    NoPostfixesYet(layout, c.db.identities, book, orphans);
    PostfixesKeptIs(layout, c.db.identities, book, {});
    assert rows[..0] == [];
    hide *;
    for i := 0 to |rows|
      invariant Kept(c.db, layout')
      invariant PostfixesKept(layout', c.db.identities, book, Rows(rows[..i]))
      invariant PostfixesConsistent(book, Rows(rows[..i]))
      invariant c.db.observers == old(c.db.observers)
    {
      NextPostfix(rows, i);
      ok, layout' := TransferPostfix(
        c, rows[i], deliveries, prepared, receipts, dispatches, layout', book, Rows(rows[..i]));
      if !ok {
        if PostfixesConsistent(book, Rows(rows)) {
          PostfixesSubset(book, Rows(rows[..i + 1]), Rows(rows));
        }
        return;
      }
    }
    assert rows[..|rows|] == rows;
    ok := true;
  }
}
