/** Who owns what after a transfer: one Action per key, one owner per delivery identity. */
module Ownership {
  import opened Wrappers
  import opened ActionEntity
  import opened TransferModel
  import opened CandidatePhase
  import opened PostfixPhase
  import opened SentPhase
  import opened Transfer
  import ResultPhase

  /** The Action the identity map names for an attempt, a prepared message or a reply. */
  predicate OwnedBy(ids: Identities, family: Family, identity: Identity, a: int) {
    (family, identity) in ids && ids[(family, identity)].action == a
  }

  /** Two attempts share an Action exactly when they carry the same non-empty key. */
  lemma AttemptsPartition(db: Db, layout: Layout, book: Book, t: Attempt, u: Attempt, a: int, b: int)
    requires Holds(db, layout, book) && t in book.facts.attempts && u in book.facts.attempts && t != u
    requires OwnedBy(db.identities, CandidateAttempt, IntegerId(t.id), a)
    requires OwnedBy(db.identities, CandidateAttempt, IntegerId(u.id), b)
    ensures a == b <==> t.key == u.key && t.key != ""
  {
    AllPlacedIs(layout, db.identities, book, Rows(book.facts.sents));
    hide AllPlaced;
    FirstPhasesIs(layout, db.identities, book);
    hide FirstPhases;
    assert t in book.Attempts() && u in book.Attempts();
  }

  /** At most one Action carries a key, and at most one a delivery identity. */
  lemma OneOwner(db: Db, layout: Layout, book: Book, a: int, b: int)
    requires Holds(db, layout, book) && a in db.actions && b in db.actions
    requires (db.actions[a].externalKey.Some? && db.actions[a].externalKey == db.actions[b].externalKey)
             || (db.actions[a].deliveryChannel.Some? && db.actions[a].deliveryChannel == db.actions[b].deliveryChannel
                 && db.actions[a].deliveryKey.Some? && db.actions[a].deliveryKey == db.actions[b].deliveryKey)
    ensures a == b
  {
    assert Coherent(db);
    hide AllPlaced;
    assert NoOtherClashes(db.actions, b, db.actions[b]);
  }

  lemma PreparedOwner(layout: Layout, ids: Identities, book: Book, p: Postfix, t: Attempt)
    requires FirstPhases(layout, ids, book) && PostfixesVia(layout, ids, book, Rows(book.facts.postfixes))
    requires p in book.facts.postfixes && t in book.facts.attempts && (CandidateAttempt, IntegerId(t.id)) in ids
    requires (OutboundPostfix, PairId(p.Pair())) in ids
    ensures ids[(OutboundPostfix, PairId(p.Pair()))].action == ids[(CandidateAttempt, IntegerId(t.id))].action ==>
      exists u :: AttemptOf(book, u, p) && (u == t || (u.key == t.key && t.key != ""))
    ensures AttemptOf(book, t, p) ==>
      ids[(OutboundPostfix, PairId(p.Pair()))].action == ids[(CandidateAttempt, IntegerId(t.id))].action
  {
    assert t in book.Attempts() && p in Rows(book.facts.postfixes) && PostfixVia(layout, ids, book, p);
    if p.Pair() in book.deliveries {
      var u := AttemptBehind(layout, ids, book, p);
      hide PostfixesVia;
      if ids[(CandidateAttempt, IntegerId(u.id))].action == ids[(CandidateAttempt, IntegerId(t.id))].action {
        assert u == t || (u.key == t.key && t.key != "");
      }
    }
  }

  /**
   * A prepared message is on the Action of an attempt exactly when the approved step of that attempt, or
   * of another attempt under its non-empty key, resolves to the delivery identity of the message.
   */
  lemma PreparedWithAttempt(db: Db, layout: Layout, book: Book, p: Postfix, t: Attempt, a: int, b: int)
    requires Holds(db, layout, book) && p in book.facts.postfixes && t in book.facts.attempts
    requires OwnedBy(db.identities, OutboundPostfix, PairId(p.Pair()), a)
    requires OwnedBy(db.identities, CandidateAttempt, IntegerId(t.id), b)
    ensures a == b <==> exists u :: AttemptOf(book, u, p) && (u == t || (u.key == t.key && t.key != ""))
  {
    AllPlacedIs(layout, db.identities, book, Rows(book.facts.sents));
    hide AllPlaced;
    hide Kept;
    FirstPhasesIs(layout, db.identities, book);
    hide FirstPhases;
    hide PostfixesVia;
    PreparedOwner(layout, db.identities, book, p, t);
    if u :| AttemptOf(book, u, p) && (u == t || (u.key == t.key && t.key != "")) {
      AttemptListed(layout, db.identities, book, u);
      PreparedOwner(layout, db.identities, book, p, u);
      if u != t {
        AttemptsPartition(db, layout, book, u, t, db.identities[(CandidateAttempt, IntegerId(u.id))].action, b);
      }
    }
  }

  lemma AttemptListed(layout: Layout, ids: Identities, book: Book, t: Attempt)
    requires AttemptsPlaced(layout, ids, book.plan, book.canon, book.Attempts()) && t in book.Attempts()
    ensures (CandidateAttempt, IntegerId(t.id)) in ids && t in book.facts.attempts
  {
    assert AttemptPlaced(layout, ids, book.plan, book.canon, t);
  }

  /** A reply is on the Action of a canonical result exactly when that result has the key of the reply. */
  lemma ReplyWithResult(db: Db, layout: Layout, book: Book, s: Sent, e: External, a: int, b: int)
    requires Holds(db, layout, book) && s in book.facts.sents && e in book.facts.externals
    requires OwnedBy(db.identities, SentReply, IntegerId(s.id), a)
    requires OwnedBy(db.identities, ExternalResult, TextId(e.key), b)
    ensures a == b <==> s.key == e.key
  {
    AllPlacedIs(layout, db.identities, book, Rows(book.facts.sents));
    hide AllPlaced;
    FirstPhasesIs(layout, db.identities, book);
    hide FirstPhases;
    var ids := db.identities;
    ReplyCore(layout, ids, book, s);
    ResultCore(layout, ids, book, e);
    if s.key == e.key { OneHome(db, layout, b, a); }
  }

  lemma ReplyCore(layout: Layout, ids: Identities, book: Book, s: Sent)
    requires SentsPlaced(layout, ids, book.canon, Rows(book.facts.sents)) && s in book.facts.sents
    ensures (SentReply, IntegerId(s.id)) in ids
    ensures
      var a := ids[(SentReply, IntegerId(s.id))].action;
      a in layout.homes && layout.homes[a].core.key == if s.key in book.canon.rows then Some(s.key) else None
  {
    assert s in Rows(book.facts.sents) && SentPlaced(layout, ids, book.canon, s);
  }

  lemma ResultCore(layout: Layout, ids: Identities, book: Book, e: External)
    requires ExternalsPlaced(layout, ids, book.canon) && ResultPhase.ByKey(book.canon.rows, book.facts.externals)
    requires e in book.facts.externals
    ensures (ExternalResult, TextId(e.key)) in ids && e.key in book.canon.rows
    ensures
      var a := ids[(ExternalResult, TextId(e.key))].action;
      a in layout.homes && layout.homes[a].core.key == Some(e.key)
  {
    assert ExternalPlaced(layout, ids, book.canon, e.key);
  }
}
