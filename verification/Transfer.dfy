/** The whole transfer: exactly when it goes through, and what the tables hold when it has. */
module Transfer {
  import opened ActionEntity
  import opened TransferModel
  import opened ResultPhase
  import opened CandidatePhase
  import opened PostfixPhase
  import opened SentPhase
  import opened TransferColumns
  import Ledger

  /** The canonical results by key, as the facts alone determine them. */
  ghost function ResultsByKey(rows: seq<External>): (byKey: map<string, External>)
    requires ExternalsUnique(rows)
    ensures ByKey(byKey, rows)
  {
    if rows == [] then map[]
    else
      var last := |rows| - 1;
      ByKeyStep(ResultsByKey(rows[..last]), rows, last);
      assert rows[..last + 1] == rows;
      ResultsByKey(rows[..last])[rows[last].key := rows[last]]
  }

  lemma ByKeyUnique(byKey: map<string, External>, other: map<string, External>, rows: seq<External>)
    requires ByKey(byKey, rows) && ByKey(other, rows)
    ensures byKey == other
  {
  }

  /** The facts and the plan as the conditions read them. */
  ghost function Account(facts: Facts, plan: Plan): Book
    requires WellFormed(facts)
  {
    Book(facts, plan, Canon(ResultsByKey(facts.externals), map[], map[]), map[], map[])
  }

  /** What a caller can check beforehand: the transfer goes through exactly on such facts. */
  ghost predicate Consistent(facts: Facts, plan: Plan)
    requires WellFormed(facts)
  {
    var book := Account(facts, plan);
    && ExternalsConsistent(facts.externals)
    && PlanConsistent(plan)
    && AttemptsConsistent(plan, book.canon.rows, Rows(facts.attempts))
    && PostfixesConsistent(book, Rows(facts.postfixes))
    && SentsAccepted(book, facts.sents)
    && ObserversConsistent(facts.observers, facts.sents)
  }

  /** The tables hold exactly these facts, in the places `layout` accounts for. */
  ghost predicate Holds(db: Db, layout: Layout, book: Book) {
    && Kept(db, layout)
    && ByKey(book.canon.rows, book.facts.externals)
    && AllPlaced(layout, db.identities, book, Rows(book.facts.sents))
    && ObserversPlaced(db.observers, db.identities, Rows(book.facts.observers))
  }

  /** The conditions look at the facts, the plan and the results by key, at nothing the transfer fills in. */
  lemma SameConditions(book: Book, other: Book)
    requires book.facts == other.facts && book.plan == other.plan && book.canon.rows == other.canon.rows
    ensures PostfixesConsistent(book, Rows(book.facts.postfixes)) == PostfixesConsistent(other, Rows(book.facts.postfixes))
    ensures SentsAccepted(book, book.facts.sents) == SentsAccepted(other, book.facts.sents)
  {
    assert forall t, p :: AttemptOf(book, t, p) == AttemptOf(other, t, p);
    assert forall p :: PostfixAlone(book, p) == PostfixAlone(other, p);
    assert forall p, q :: PostfixPair(book, p, q) == PostfixPair(other, p, q);
    assert forall key, p :: SharesAction(book, key, p) == SharesAction(other, key, p);
    SameSents(book, other);
  }

  lemma SameSents(book: Book, other: Book)
    requires book.facts == other.facts && forall key, p :: SharesAction(book, key, p) == SharesAction(other, key, p)
    ensures SentsAccepted(book, book.facts.sents) == SentsAccepted(other, book.facts.sents)
  {
    hide SharesAction;
    forall before, s ensures SentAccepted(book, before, s) == SentAccepted(other, before, s) {
      AcceptedIs(book, before, s);
      AcceptedIs(other, before, s);
      OpenIs(book, before, s);
      OpenIs(other, before, s);
      hide PairOpen;
      hide SentAccepted;
      assert forall q :: OtherChannel(book, before, q, s) == OtherChannel(other, before, q, s);
    }
  }

  /** Results, approved steps and attempts: the phases that decide who owns what. */
  method TransferOwners(c: Ledger.Connection, facts: Facts, plan: Plan, order: seq<(int, int)>)
    returns (ok: bool, owners: map<string, int>, bodies: map<string, int>, prepared: map<Pair, PreparedCandidate>,
             deliveries: map<Pair, int>, ghost layout: Layout, ghost byKey: map<string, External>, ghost orphans: Orphans)
    requires Coherent(c.db) && ExternalsUnique(facts.externals) && AttemptsUnique(facts.attempts)
    requires c.db.actions == map[] && c.db.receipts == map[] && c.db.identities == map[] && c.db.observers == map[]
    requires forall k :: k in order <==> k in plan
    modifies c
    ensures ok <==>
      && ExternalsConsistent(facts.externals) && PlanConsistent(plan)
      && AttemptsConsistent(plan, ResultsByKey(facts.externals), Rows(facts.attempts))
    ensures ok ==> Kept(c.db, layout) && c.db.observers == map[] && byKey == ResultsByKey(facts.externals)
    ensures ok ==> PreparedKnown(plan, plan.Keys, prepared)
    ensures ok ==>
      CandidatesKept(layout, c.db.identities, plan, Canon(byKey, owners, bodies), Rows(facts.attempts), orphans, deliveries)
  {
    hide *;
    prepared, deliveries, orphans := map[], map[], map[];
    ok, owners, bodies, layout, byKey := TransferExternalResults(c, facts.externals);
    if !ok { return; }
    ByKeyUnique(byKey, ResultsByKey(facts.externals), facts.externals);
    ok, prepared := PreparedCandidates(plan, order);
    if !ok { return; }
    ok, deliveries, layout, orphans :=
      TransferCandidates(c, facts.attempts, plan, owners, bodies, layout, Canon(byKey, owners, bodies));
  }

  /** Prepared messages, replies and observers: the phases that write on the owners. */
  method TransferMessages(
    c: Ledger.Connection, facts: Facts, owners: map<string, int>, bodies: map<string, int>,
    prepared: map<Pair, PreparedCandidate>, deliveries: map<Pair, int>,
    ghost start: Layout, ghost book: Book, ghost orphans: Orphans)
    returns (ok: bool, ghost layout: Layout)
    requires Kept(c.db, start) && c.db.observers == map[]
    requires PostfixesUnique(facts.postfixes) && SentsUnique(facts.sents) && ObserversUnique(facts.observers)
    requires CandidatesKept(start, c.db.identities, book.plan, book.canon, book.Attempts(), orphans, book.deliveries)
    requires PreparedKnown(book.plan, book.plan.Keys, book.prepared)
    requires book.facts == facts && book.canon.owners == owners && book.canon.bodies == bodies
    requires book.deliveries == deliveries && book.prepared == prepared
    modifies c
    ensures ok <==>
      && PostfixesConsistent(book, Rows(facts.postfixes)) && SentsAccepted(book, facts.sents)
      && ObserversConsistent(facts.observers, facts.sents)
    ensures ok ==> Kept(c.db, layout) && AllPlaced(layout, c.db.identities, book, Rows(facts.sents))
    ensures ok ==> ObserversPlaced(c.db.observers, c.db.identities, Rows(facts.observers))
  {
    hide *;
    var sentMap;
    ok, layout := TransferPostfixes(
      c, facts.postfixes, deliveries, prepared, facts.receipts, facts.dispatches, start, book, orphans);
    if !ok { return; }
    ok, sentMap, layout := TransferSentReplies(c, facts.sents, owners, bodies, layout, book);
    if !ok { return; }
    ok := TransferObservers(c, facts.observers, sentMap, layout, book, facts.sents);
  }

  /** The transfer of the covered families, in the order of the release. */
  method TransferSourceFacts(c: Ledger.Connection, facts: Facts, plan: Plan, order: seq<(int, int)>)
    returns (ok: bool, ghost layout: Layout, ghost book: Book)
    requires Coherent(c.db) && WellFormed(facts)
    requires c.db.actions == map[] && c.db.receipts == map[] && c.db.identities == map[] && c.db.observers == map[]
    requires forall k :: k in order <==> k in plan
    modifies c
    ensures ok <==> Consistent(facts, plan)
    ensures ok ==> Holds(c.db, layout, book) && book.facts == facts && book.plan == plan
    ensures ok ==> Written(c.db, facts, plan)
  {
    WellFormedIs(facts);
    ConsistentIs(facts, plan);
    AccountIs(facts, plan);
    ghost var account := Account(facts, plan);
    hide *;
    var owners, bodies, prepared, deliveries;
    ghost var byKey, orphans;
    ok, owners, bodies, prepared, deliveries, layout, byKey, orphans := TransferOwners(c, facts, plan, order);
    book := Book(facts, plan, Canon(byKey, owners, bodies), deliveries, prepared);
    if ok {
      BookIs(book, facts);
      SameConditions(book, account);
      ok, layout := TransferMessages(c, facts, owners, bodies, prepared, deliveries, layout, book, orphans);
      HoldsIs(c.db, layout, book);
      if ok { HoldsWritten(c.db, layout, book); }
    }
  }

  lemma HoldsWritten(db: Db, layout: Layout, book: Book)
    requires Holds(db, layout, book)
    ensures Written(db, book.facts, book.plan)
  {
    HoldsIs(db, layout, book);
    hide *;
    TransferWritten(db, layout, book);
  }

  lemma AccountIs(facts: Facts, plan: Plan)
    requires WellFormed(facts)
    ensures ExternalsUnique(facts.externals)
    ensures Account(facts, plan) == Book(facts, plan, Canon(ResultsByKey(facts.externals), map[], map[]), map[], map[])
  {
  }

  lemma WellFormedIs(facts: Facts)
    requires WellFormed(facts)
    ensures ExternalsUnique(facts.externals) && AttemptsUnique(facts.attempts) && PostfixesUnique(facts.postfixes)
    ensures SentsUnique(facts.sents) && ObserversUnique(facts.observers)
  {
  }

  lemma ConsistentIs(facts: Facts, plan: Plan)
    requires WellFormed(facts)
    ensures
      var book := Account(facts, plan);
      && (Consistent(facts, plan) <==>
            ExternalsConsistent(facts.externals) && PlanConsistent(plan)
            && AttemptsConsistent(plan, book.canon.rows, Rows(facts.attempts))
            && PostfixesConsistent(book, Rows(facts.postfixes))
            && SentsAccepted(book, facts.sents) && ObserversConsistent(facts.observers, facts.sents))
      && book.facts == facts && book.plan == plan && ByKey(book.canon.rows, facts.externals)
  {
    hide ExternalsConsistent;
    hide PlanConsistent;
    hide AttemptsConsistent;
    hide PostfixesConsistent;
    hide SentsAccepted;
    hide ObserversConsistent;
    hide ByKey;
  }

  lemma BookIs(book: Book, facts: Facts)
    requires book.facts == facts
    ensures book.Attempts() == Rows(facts.attempts)
  {
  }

  lemma HoldsIs(db: Db, layout: Layout, book: Book)
    ensures Holds(db, layout, book) <==>
      Kept(db, layout) && ByKey(book.canon.rows, book.facts.externals)
      && AllPlaced(layout, db.identities, book, Rows(book.facts.sents))
      && ObserversPlaced(db.observers, db.identities, Rows(book.facts.observers))
  {
  }

  /** The release: publish the transferred tables, or leave the database as it was. */
  method Publish(c: Ledger.Connection, facts: Facts, plan: Plan, order: seq<(int, int)>)
    returns (ok: bool, ghost layout: Layout, ghost book: Book)
    requires Coherent(c.db) && WellFormed(facts)
    requires c.db.actions == map[] && c.db.receipts == map[] && c.db.identities == map[] && c.db.observers == map[]
    requires forall k :: k in order <==> k in plan
    modifies c
    ensures ok <==> Consistent(facts, plan)
    ensures ok ==> Holds(c.db, layout, book) && book.facts == facts && book.plan == plan
    ensures ok ==> Written(c.db, facts, plan)
    ensures !ok ==> c.db == old(c.db)
  {
    var before := c.db;
    ok, layout, book := TransferSourceFacts(c, facts, plan, order);
    if !ok {
      c.db := before;
    }
  }
}
