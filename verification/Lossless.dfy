/** Which facts survive the transfer and its inverse unchanged: a condition on each row, and the round trip. */
module Lossless {
  import opened Wrappers
  import opened ActionEntity
  import opened TransferModel
  import opened CandidatePhase
  import opened PostfixPhase
  import opened SentPhase
  import opened Transfer
  import opened Capture
  import opened RoundTrip
  import opened Recovery
  import Ids
  import Ledger

  // ---------- the predecessor's own rows ----------

  function PlainPostfix(facts: Facts, p: Postfix): CapturedPostfix {
    CapturedPostfix(
      p.channel, p.key, p.body, p.token, Some(p.version), Some(p.createdAt),
      if p.Pair() in facts.receipts then Some(facts.receipts[p.Pair()].body) else None,
      if p.Pair() in facts.receipts then Some(facts.receipts[p.Pair()].createdAt) else None,
      if p.Pair() in facts.dispatches then Some(facts.dispatches[p.Pair()]) else None)
  }

  function PlainSent(s: Sent, a: int): CapturedSent {
    CapturedSent(Some(IntegerId(s.id)), a, Some(s.conversation), Some(s.trigger), Some(s.text), Some(s.sentAt),
                 s.result, s.recallKey, s.recallStatus, s.recallError, s.recalledAt, s.token,
                 s.channel, Some(s.run), s.key)
  }

  // ---------- row by row ----------

  /** The key of the reply has a canonical result, or there is no key; and its channel is not empty. */
  predicate KeepsSent(canon: map<string, External>, s: Sent) {
    (s.key == "" || s.key in canon) && s.channel != ""
  }

  /** Nothing the reply on the same Action carries differs, and the receipt has a clock. */
  ghost predicate KeepsPostfix(book: Book, p: Postfix) {
    && (forall s | s in book.facts.sents && SharesAction(book, s.key, p) :: s.channel == p.channel && s.token == p.token)
    && (p.Pair() in book.facts.receipts ==> book.facts.receipts[p.Pair()].createdAt != "")
  }

  /** A reply is among the captured rows as it was exactly when its key and channel can be kept. */
  lemma SentUnchangedIff(captured: Captured, ids: Identities, book: Book, s: Sent)
    requires Recovered(captured, ids, book) && SentsUnique(book.facts.sents) && s in book.facts.sents
    ensures (SentReply, IntegerId(s.id)) in ids
    ensures PlainSent(s, ids[(SentReply, IntegerId(s.id))].action) in captured.sents <==> KeepsSent(book.canon.rows, s)
  {
    var a := ids[(SentReply, IntegerId(s.id))].action;
    assert ReturnsSents(captured.sents, ids, book.canon.rows, book.facts.sents);
    if PlainSent(s, a) in captured.sents {
      var u :| u in book.facts.sents
        && PlainSent(s, a) == BackSent(book.canon.rows, u, ids[(SentReply, IntegerId(u.id))].action);
      SameSent(book.facts.sents, s, u);
    }
    if KeepsSent(book.canon.rows, s) {
      assert PlainSent(s, a) == BackSent(book.canon.rows, s, a);
    }
  }

  lemma SameSent(rows: seq<Sent>, s: Sent, u: Sent)
    requires SentsUnique(rows) && s in rows && u in rows && s.id == u.id
    ensures s == u
  {
    var i :| 0 <= i < |rows| && rows[i] == s;
    var j :| 0 <= j < |rows| && rows[j] == u;
  }

  /** A prepared message comes back as it was exactly when its reply agrees and its receipt has a clock. */
  lemma PostfixUnchangedIff(book: Book, p: Postfix, reply: Option<Sent>)
    requires MessageOf(book, p, reply) && SentsConsistent(book, book.facts.sents)
    requires forall s, u | s in book.facts.sents && u in book.facts.sents
               && SharesAction(book, s.key, p) && SharesAction(book, u.key, p) :: s == u
    ensures BackPostfix(book.facts, p, reply) == PlainPostfix(book.facts, p) <==> KeepsPostfix(book, p)
  {
    if reply.Some? {
      assert SentConsistent(book, reply.value);
      assert p.body == reply.value.text;
    }
    hide SharesAction;
    hide SentConsistent;
    hide SentsConsistent;
  }

  /** At most one reply can share the Action of a prepared message. */
  lemma OneSharer(book: Book, p: Postfix, s: Sent, u: Sent)
    requires SentsUnique(book.facts.sents) && s in book.facts.sents && u in book.facts.sents
    requires forall t, v | AttemptOf(book, t, p) && AttemptOf(book, v, p) :: t.key == v.key
    requires SharesAction(book, s.key, p) && SharesAction(book, u.key, p) && s.key != ""
    ensures s == u
  {
    var t := ShareIs(book, s.key, p);
    var v := ShareIs(book, u.key, p);
    var i :| 0 <= i < |book.facts.sents| && book.facts.sents[i] == s;
    var j :| 0 <= j < |book.facts.sents| && book.facts.sents[j] == u;
  }

  lemma SharersAgree(layout: Layout, ids: Identities, book: Book, p: Postfix)
    requires FirstPhases(layout, ids, book) && SentsUnique(book.facts.sents)
    ensures forall s, u | s in book.facts.sents && u in book.facts.sents
              && SharesAction(book, s.key, p) && SharesAction(book, u.key, p) :: s == u
  {
    forall t, v | AttemptOf(book, t, p) && AttemptOf(book, v, p) ensures t.key == v.key {
      assert AttemptPairConsistent(book.plan, book.canon.rows, t, v);
    }
    assert ExternalsPlaced(layout, ids, book.canon);
    hide FirstPhases;
    forall s, u | s in book.facts.sents && u in book.facts.sents && SharesAction(book, s.key, p) && SharesAction(book, u.key, p)
      ensures s == u
    {
      CanonicalHome(layout, ids, book.canon, s.key);
      OneSharer(book, p, s, u);
    }
  }

  // ---------- all rows at once ----------

  ghost predicate KeepsAll(book: Book) {
    && (forall s | s in book.facts.sents :: KeepsSent(book.canon.rows, s))
    && (forall p | p in book.facts.postfixes :: KeepsPostfix(book, p))
  }

  /** The rows of `xs` are those of `ys`, each as often, in some order. */
  ghost predicate SameRows<T(!new)>(xs: seq<T>, ys: seq<T>) { multiset(xs) == multiset(ys) }

  lemma OnceCounts<T(!new)>(xs: seq<T>, x: T)
    requires Once(xs)
    ensures multiset(xs)[x] == if x in xs then 1 else 0
  {
    if xs != [] {
      var last := |xs| - 1;
      assert xs == xs[..last] + [xs[last]];
      OnceCounts(xs[..last], x);
    }
  }

  lemma SameRowsIs<T(!new)>(xs: seq<T>, ys: seq<T>)
    requires Once(xs) && Once(ys) && forall x :: x in xs <==> x in ys
    ensures SameRows(xs, ys)
  {
    forall x ensures multiset(xs)[x] == multiset(ys)[x] {
      OnceCounts(xs, x);
      OnceCounts(ys, x);
    }
  }

  ghost function Images<S(!new), T(!new)>(rows: seq<S>, f: S -> T): (images: seq<T>)
    ensures |images| == |rows| && forall i | 0 <= i < |rows| :: images[i] == f(rows[i])
    ensures forall x :: x in images <==> exists r :: r in rows && x == f(r)
  {
    if rows == [] then []
    else
      var last := |rows| - 1;
      assert rows == rows[..last] + [rows[last]];
      Images(rows[..last], f) + [f(rows[last])]
  }

  function PlaceOf(ids: Identities, number: int): int {
    if (SentReply, IntegerId(number)) in ids then ids[(SentReply, IntegerId(number))].action else 0
  }

  /** An observer as the inverse reads it: on the Action of its reply. */
  function PlainObserver(ids: Identities, o: Observer): CapturedObserver {
    CapturedObserver(PlaceOf(ids, o.sent), o.run, o.task, o.createdAt,
                     if o.sent != 0 then Some((IntegerId(o.sent), o.run)) else None)
  }

  /** The children of prepared messages: a row for each, under its parent's pair. */
  ghost predicate SameChildren(captured: Captured, facts: Facts) {
    && Once(captured.receipts) && Once(captured.dispatches)
    && (forall x :: x in captured.receipts <==>
          (x.channel, x.key) in facts.receipts
          && x == CapturedReceipt(x.channel, x.key, facts.receipts[(x.channel, x.key)].body,
                                  Some(facts.receipts[(x.channel, x.key)].createdAt)))
    && (forall x :: x in captured.dispatches <==>
          (x.channel, x.key) in facts.dispatches
          && x == CapturedDispatch(x.channel, x.key, facts.dispatches[(x.channel, x.key)]))
  }

  ghost predicate SameFacts(captured: Captured, ids: Identities, facts: Facts) {
    && SameRows(captured.externals, Images(facts.externals, BackExternal))
    && SameRows(captured.attempts, Images(facts.attempts, BackAttempt))
    && SameRows(captured.postfixes, Images(facts.postfixes, (p: Postfix) => PlainPostfix(facts, p)))
    && SameChildren(captured, facts)
    && SameRows(captured.sents, Images(facts.sents, (s: Sent) => PlainSent(s, PlaceOf(ids, s.id))))
    && SameRows(captured.observers, Images(facts.observers, (o: Observer) => PlainObserver(ids, o)))
  }

  lemma SameExternals(xs: seq<CapturedExternal>, rows: seq<External>)
    requires Once(xs) && ReturnsExternals(xs, rows) && ExternalsUnique(rows)
    ensures SameRows(xs, Images(rows, BackExternal))
  {
    var ys := Images(rows, BackExternal);
    assert forall i | 0 <= i < |ys| :: ys[i].key == rows[i].key;
    SameRowsIs(xs, ys);
  }

  lemma SameAttempts(xs: seq<CapturedAttempt>, rows: seq<Attempt>)
    requires Once(xs) && ReturnsAttempts(xs, rows) && AttemptsUnique(rows)
    ensures SameRows(xs, Images(rows, BackAttempt))
  {
    var ys := Images(rows, BackAttempt);
    assert forall i | 0 <= i < |ys| :: ys[i].id == Some(IntegerId(rows[i].id));
    SameRowsIs(xs, ys);
  }

  lemma SameSents(xs: seq<CapturedSent>, ids: Identities, canon: map<string, External>, rows: seq<Sent>)
    requires Once(xs) && ReturnsSents(xs, ids, canon, rows) && SentsUnique(rows)
    requires forall s | s in rows :: KeepsSent(canon, s)
    ensures SameRows(xs, Images(rows, (s: Sent) => PlainSent(s, PlaceOf(ids, s.id))))
  {
    var ys := Images(rows, (s: Sent) => PlainSent(s, PlaceOf(ids, s.id)));
    assert forall i | 0 <= i < |ys| :: ys[i].id == Some(IntegerId(rows[i].id));
    forall s | s in rows
      ensures PlainSent(s, PlaceOf(ids, s.id)) == BackSent(canon, s, ids[(SentReply, IntegerId(s.id))].action)
    {
      assert KeepsSent(canon, s);
    }
    SameRowsIs(xs, ys);
  }

  lemma SameObservers(xs: seq<CapturedObserver>, layout: Layout, ids: Identities, canon: Canon, sents: set<Sent>, rows: seq<Observer>)
    requires Once(xs) && ReturnsObservers(xs, ids, rows) && ObserversUnique(rows)
    requires SentsPlaced(layout, ids, canon, sents)
    ensures SameRows(xs, Images(rows, (o: Observer) => PlainObserver(ids, o)))
  {
    var ys := Images(rows, (o: Observer) => PlainObserver(ids, o));
    forall i, j | 0 <= i < j < |ys| ensures ys[i] != ys[j] {
      ObserverPlaces(layout, ids, canon, sents, rows[i].sent, rows[j].sent);
      assert ys[i].action == PlaceOf(ids, rows[i].sent) && ys[j].action == PlaceOf(ids, rows[j].sent);
    }
    hide SentsPlaced;
    assert forall o | o in rows :: PlainObserver(ids, o) == BackObserver(ids, o);
    SameRowsIs(xs, ys);
  }

  lemma ObserverPlaces(layout: Layout, ids: Identities, canon: Canon, sents: set<Sent>, x: int, y: int)
    requires SentsPlaced(layout, ids, canon, sents)
    requires (SentReply, IntegerId(x)) in ids && (SentReply, IntegerId(y)) in ids
    ensures PlaceOf(ids, x) == PlaceOf(ids, y) ==> x == y
  {
    var s :| s in sents && IntegerId(x) == IntegerId(s.id);
    var u :| u in sents && IntegerId(y) == IntegerId(u.id);
    assert SentPlaced(layout, ids, canon, s) && SentPlaced(layout, ids, canon, u);
  }

  function PlainReceipt(facts: Facts, p: Postfix): Option<CapturedReceipt> {
    if p.Pair() !in facts.receipts then None
    else Some(CapturedReceipt(p.channel, p.key, facts.receipts[p.Pair()].body, Some(facts.receipts[p.Pair()].createdAt)))
  }

  function PlainDispatch(facts: Facts, p: Postfix): Option<CapturedDispatch> {
    if p.Pair() !in facts.dispatches then None
    else Some(CapturedDispatch(p.channel, p.key, facts.dispatches[p.Pair()]))
  }

  /** Every prepared message and its children come back as they were. */
  ghost predicate MessagesPlain(book: Book) {
    forall p, reply | MessageOf(book, p, reply) ::
      && BackPostfix(book.facts, p, reply) == PlainPostfix(book.facts, p)
      && BackReceipt(book.facts, p, reply) == PlainReceipt(book.facts, p)
      && BackDispatch(book.facts, p, reply) == PlainDispatch(book.facts, p)
  }

  lemma MessageKept(layout: Layout, ids: Identities, book: Book, p: Postfix, reply: Option<Sent>)
    requires FirstPhases(layout, ids, book) && SentsUnique(book.facts.sents) && SentsConsistent(book, book.facts.sents)
    requires MessageOf(book, p, reply) && KeepsPostfix(book, p)
    ensures BackPostfix(book.facts, p, reply) == PlainPostfix(book.facts, p)
    ensures BackReceipt(book.facts, p, reply) == PlainReceipt(book.facts, p)
    ensures BackDispatch(book.facts, p, reply) == PlainDispatch(book.facts, p)
  {
    SharersAgree(layout, ids, book, p);
    hide FirstPhases;
    hide SharesAction;
    PostfixUnchangedIff(book, p, reply);
    hide SentsConsistent;
    if reply.Some? { assert reply.value.channel == p.channel; }
  }

  lemma AllMessagesKept(layout: Layout, ids: Identities, book: Book)
    requires FirstPhases(layout, ids, book) && SentsUnique(book.facts.sents) && SentsConsistent(book, book.facts.sents)
    requires forall p | p in book.facts.postfixes :: KeepsPostfix(book, p)
    ensures MessagesPlain(book)
  {
    forall p, reply | MessageOf(book, p, reply)
      ensures BackPostfix(book.facts, p, reply) == PlainPostfix(book.facts, p)
      ensures BackReceipt(book.facts, p, reply) == PlainReceipt(book.facts, p)
      ensures BackDispatch(book.facts, p, reply) == PlainDispatch(book.facts, p)
    {
      assert KeepsPostfix(book, p);
      hide FirstPhases;
      hide KeepsPostfix;
      MessageKept(layout, ids, book, p, reply);
    }
  }

  /** Every prepared message has a reply on its Action, or has none. */
  lemma SomeReply(book: Book, p: Postfix) returns (reply: Option<Sent>)
    ensures SharedReply(book, p, reply)
  {
    if s :| s in book.facts.sents && SharesAction(book, s.key, p) {
      reply := Some(s);
    } else {
      reply := None;
    }
  }

  lemma SamePostfixes(captured: Captured, book: Book)
    requires Once(captured.postfixes) && PostfixesUnique(book.facts.postfixes) && MessagesPlain(book)
    requires ReturnsMessages(captured.postfixes, captured.receipts, captured.dispatches, book)
    ensures SameRows(captured.postfixes, Images(book.facts.postfixes, (p: Postfix) => PlainPostfix(book.facts, p)))
  {
    var ys := Images(book.facts.postfixes, (p: Postfix) => PlainPostfix(book.facts, p));
    forall i, j | 0 <= i < j < |ys| ensures ys[i] != ys[j] {
      assert (ys[i].channel, ys[i].key) == book.facts.postfixes[i].Pair();
      assert (ys[j].channel, ys[j].key) == book.facts.postfixes[j].Pair();
    }
    hide PlainPostfix;
    hide BackPostfix;
    hide SharedReply;
    forall p | p in book.facts.postfixes ensures PlainPostfix(book.facts, p) in captured.postfixes {
      var reply := SomeReply(book, p);
      assert MessageOf(book, p, reply);
    }
    SameRowsIs(captured.postfixes, ys);
  }

  lemma ParentOf(facts: Facts, pair: Pair) returns (p: Postfix)
    requires ChildrenHaveParents(facts) && (pair in facts.receipts || pair in facts.dispatches)
    ensures p in facts.postfixes && p.Pair() == pair
  {
    p :| p in facts.postfixes && p.Pair() == pair;
  }

  lemma SameReceiptsAndDispatches(captured: Captured, book: Book)
    requires Once(captured.receipts) && Once(captured.dispatches) && MessagesPlain(book) && ChildrenHaveParents(book.facts)
    requires ReturnsMessages(captured.postfixes, captured.receipts, captured.dispatches, book)
    ensures SameChildren(captured, book.facts)
  {
    hide SharedReply;
    hide BackPostfix;
    hide BackReceipt;
    hide BackDispatch;
    hide ChildrenHaveParents;
    forall pair: Pair | pair in book.facts.receipts
      ensures CapturedReceipt(pair.0, pair.1, book.facts.receipts[pair].body, Some(book.facts.receipts[pair].createdAt))
              in captured.receipts
    {
      var p := ParentOf(book.facts, pair);
      var reply := SomeReply(book, p);
      assert MessageOf(book, p, reply);
    }
    forall pair: Pair | pair in book.facts.dispatches
      ensures CapturedDispatch(pair.0, pair.1, book.facts.dispatches[pair]) in captured.dispatches
    {
      var p := ParentOf(book.facts, pair);
      var reply := SomeReply(book, p);
      assert MessageOf(book, p, reply);
    }
  }

  /** The round trip: when every row can be kept, all seven families come back as they were. */
  lemma RoundTripExact(captured: Captured, db: Db, layout: Layout, book: Book)
    requires Holds(db, layout, book) && Recovered(captured, db.identities, book)
    requires WellFormed(book.facts) && SentsConsistent(book, book.facts.sents) && KeepsAll(book)
    ensures SameFacts(captured, db.identities, book.facts)
  {
    RecoveredParts(captured, db.identities, book);
    WellFormedIs(book.facts);
    assert ChildrenHaveParents(book.facts);
    KeepsAllIs(book);
    hide *;
    HoldsIs(db, layout, book);
    AllPlacedIs(layout, db.identities, book, Rows(book.facts.sents));
    AllMessagesKept(layout, db.identities, book);
    SameExternals(captured.externals, book.facts.externals);
    SameAttempts(captured.attempts, book.facts.attempts);
    SamePostfixes(captured, book);
    SameReceiptsAndDispatches(captured, book);
    SameSents(captured.sents, db.identities, book.canon.rows, book.facts.sents);
    SameObservers(captured.observers, layout, db.identities, book.canon, Rows(book.facts.sents), book.facts.observers);
    SameFactsIs(captured, db.identities, book.facts);
  }

  // ---------- and only then ----------

  /** Each prepared message comes back as some row of the facts, its own or another's. */
  ghost predicate AmongPlain(book: Book) {
    forall p, reply | MessageOf(book, p, reply) ::
      exists q :: q in book.facts.postfixes && BackPostfix(book.facts, p, reply) == PlainPostfix(book.facts, q)
  }

  /**
   * Messages cannot trade channels: the first reply to move its message would have taken the identity of
   * another message that was still in place.
   */
  lemma {:induction false} ChannelStays(book: Book, i: nat, p: Postfix)
    requires SentsAccepted(book, book.facts.sents) && AmongPlain(book)
    requires i < |book.facts.sents| && SharesAction(book, book.facts.sents[i].key, p)
    ensures book.facts.sents[i].channel == p.channel
    decreases i
  {
    var sents := book.facts.sents;
    var s := sents[i];
    SharesKey(book, s.key, p);
    hide SharesAction;
    assert s in sents && MessageOf(book, p, Some(s));
    var q :| q in book.facts.postfixes && BackPostfix(book.facts, p, Some(s)) == PlainPostfix(book.facts, q);
    assert q.key == p.key && q.channel == s.channel;
    if q != p {
      assert SentAccepted(book, Rows(sents[..i]), s);
      assert OtherChannel(book, Rows(sents[..i]), q, s);
      var u :| u in Rows(sents[..i]) && SharesAction(book, u.key, q);
      var j :| 0 <= j < i && sents[j] == u;
      ChannelStays(book, j, q);
    }
  }

  lemma OwnRow(book: Book, p: Postfix, reply: Option<Sent>)
    requires SentsAccepted(book, book.facts.sents) && AmongPlain(book) && PostfixesUnique(book.facts.postfixes)
    requires MessageOf(book, p, reply)
    ensures BackPostfix(book.facts, p, reply) == PlainPostfix(book.facts, p)
  {
    var q :| q in book.facts.postfixes && BackPostfix(book.facts, p, reply) == PlainPostfix(book.facts, q);
    if reply.Some? {
      var i :| 0 <= i < |book.facts.sents| && book.facts.sents[i] == reply.value;
      ChannelStays(book, i, p);
    }
    hide SharedReply;
    hide SentsAccepted;
    hide AmongPlain;
    assert q.Pair() == p.Pair();
    if q != p { PairsDiffer(book.facts.postfixes, p, q); }
  }

  lemma SameMembers<T(!new)>(xs: seq<T>, ys: seq<T>, x: T)
    requires SameRows(xs, ys)
    ensures x in xs <==> x in ys
  {
    assert x in multiset(xs) <==> x in multiset(ys);
  }

  lemma PostfixesAmongPlain(captured: Captured, book: Book)
    requires ReturnsMessages(captured.postfixes, captured.receipts, captured.dispatches, book)
    requires SameRows(captured.postfixes, Images(book.facts.postfixes, (p: Postfix) => PlainPostfix(book.facts, p)))
    ensures AmongPlain(book)
  {
    var plain := Images(book.facts.postfixes, (p: Postfix) => PlainPostfix(book.facts, p));
    hide MessageOf;
    hide BackPostfix;
    hide PlainPostfix;
    hide SameRows;
    forall p, reply | MessageOf(book, p, reply)
      ensures exists q :: q in book.facts.postfixes && BackPostfix(book.facts, p, reply) == PlainPostfix(book.facts, q)
    {
      assert BackPostfix(book.facts, p, reply) in captured.postfixes;
      SameMembers(captured.postfixes, plain, BackPostfix(book.facts, p, reply));
    }
  }

  lemma MessagesMustKeep(captured: Captured, layout: Layout, ids: Identities, book: Book)
    requires ReturnsMessages(captured.postfixes, captured.receipts, captured.dispatches, book)
    requires SameRows(captured.postfixes, Images(book.facts.postfixes, (p: Postfix) => PlainPostfix(book.facts, p)))
    requires SentsAccepted(book, book.facts.sents) && PostfixesUnique(book.facts.postfixes)
    requires FirstPhases(layout, ids, book) && SentsUnique(book.facts.sents)
    ensures forall p | p in book.facts.postfixes :: KeepsPostfix(book, p)
  {
    PostfixesAmongPlain(captured, book);
    AcceptedConsistent(book, book.facts.sents);
    hide *;
    forall p | p in book.facts.postfixes ensures KeepsPostfix(book, p) {
      var reply := SomeReply(book, p);
      MessageOfIs(book, p, reply);
      OwnRow(book, p, reply);
      SharersAgree(layout, ids, book, p);
      PostfixUnchangedIff(book, p, reply);
    }
  }

  lemma MessageOfIs(book: Book, p: Postfix, reply: Option<Sent>)
    ensures MessageOf(book, p, reply) <==> p in book.facts.postfixes && SharedReply(book, p, reply)
  {
  }

  lemma SentsMustKeep(captured: Captured, ids: Identities, book: Book)
    requires Recovered(captured, ids, book) && SentsUnique(book.facts.sents)
    requires SameRows(captured.sents, Images(book.facts.sents, (s: Sent) => PlainSent(s, PlaceOf(ids, s.id))))
    ensures forall s | s in book.facts.sents :: KeepsSent(book.canon.rows, s)
  {
    var plain := Images(book.facts.sents, (s: Sent) => PlainSent(s, PlaceOf(ids, s.id)));
    hide Recovered;
    hide SameRows;
    hide KeepsSent;
    hide PlainSent;
    forall s | s in book.facts.sents ensures KeepsSent(book.canon.rows, s) {
      SentUnchangedIff(captured, ids, book, s);
      SameMembers(captured.sents, plain, PlainSent(s, PlaceOf(ids, s.id)));
    }
  }

  /** All families come back as they were if and only if every row can be kept. */
  lemma RoundTripIff(captured: Captured, db: Db, layout: Layout, book: Book)
    requires Holds(db, layout, book) && Recovered(captured, db.identities, book)
    requires WellFormed(book.facts) && SentsAccepted(book, book.facts.sents)
    ensures SameFacts(captured, db.identities, book.facts) <==> KeepsAll(book)
  {
    RecoveredParts(captured, db.identities, book);
    WellFormedIs(book.facts);
    SameFactsGive(captured, db.identities, book.facts);
    KeepsAllFrom(book);
    hide *;
    HoldsIs(db, layout, book);
    AllPlacedIs(layout, db.identities, book, Rows(book.facts.sents));
    AcceptedConsistent(book, book.facts.sents);
    if KeepsAll(book) { RoundTripExact(captured, db, layout, book); }
    if SameFacts(captured, db.identities, book.facts) {
      MessagesMustKeep(captured, layout, db.identities, book);
      SentsMustKeep(captured, db.identities, book);
    }
  }

  lemma SameFactsGive(captured: Captured, ids: Identities, facts: Facts)
    ensures SameFacts(captured, ids, facts) ==>
      && SameRows(captured.postfixes, Images(facts.postfixes, (p: Postfix) => PlainPostfix(facts, p)))
      && SameRows(captured.sents, Images(facts.sents, (s: Sent) => PlainSent(s, PlaceOf(ids, s.id))))
  {
  }

  lemma KeepsAllFrom(book: Book)
    ensures
      ((forall s | s in book.facts.sents :: KeepsSent(book.canon.rows, s))
       && (forall p | p in book.facts.postfixes :: KeepsPostfix(book, p))) ==> KeepsAll(book)
  {
  }

  lemma RecoveredParts(captured: Captured, ids: Identities, book: Book)
    requires Recovered(captured, ids, book)
    ensures Once(captured.externals) && Once(captured.attempts) && Once(captured.postfixes)
    ensures Once(captured.receipts) && Once(captured.dispatches) && Once(captured.sents) && Once(captured.observers)
    ensures ReturnsExternals(captured.externals, book.facts.externals)
    ensures ReturnsAttempts(captured.attempts, book.facts.attempts)
    ensures ReturnsMessages(captured.postfixes, captured.receipts, captured.dispatches, book)
    ensures ReturnsSents(captured.sents, ids, book.canon.rows, book.facts.sents)
    ensures ReturnsObservers(captured.observers, ids, book.facts.observers)
  {
  }

  lemma KeepsAllIs(book: Book)
    requires KeepsAll(book)
    ensures forall s | s in book.facts.sents :: KeepsSent(book.canon.rows, s)
    ensures forall p | p in book.facts.postfixes :: KeepsPostfix(book, p)
  {
  }

  lemma SameFactsIs(captured: Captured, ids: Identities, facts: Facts)
    requires SameRows(captured.externals, Images(facts.externals, BackExternal))
    requires SameRows(captured.attempts, Images(facts.attempts, BackAttempt))
    requires SameRows(captured.postfixes, Images(facts.postfixes, (p: Postfix) => PlainPostfix(facts, p)))
    requires SameChildren(captured, facts)
    requires SameRows(captured.sents, Images(facts.sents, (s: Sent) => PlainSent(s, PlaceOf(ids, s.id))))
    requires SameRows(captured.observers, Images(facts.observers, (o: Observer) => PlainObserver(ids, o)))
    ensures SameFacts(captured, ids, facts)
  {
  }

  // ---------- the release and its inverse, one after the other ----------

  /** The order in which the tables are read: receipts by ID, the others as it happens. */
  method ReadTables(db: Db) returns (orders: Orders)
    ensures OrdersOf(orders, db)
  {
    var identities := Listed(db.identities.Keys);
    var actions := Listed(db.actions.Keys);
    var receipts := Ids.Sorted(db.receipts.Keys);
    Ids.SortedIs(db.receipts.Keys);
    var observers := Listed(db.observers.Keys);
    orders := Orders(identities, actions, receipts, observers);
  }

  lemma KeepsSame(book: Book, other: Book)
    requires book.facts == other.facts && book.plan == other.plan && book.canon.rows == other.canon.rows
    ensures KeepsAll(book) == KeepsAll(other)
  {
    assert forall t, p :: AttemptOf(book, t, p) == AttemptOf(other, t, p);
    assert forall key, p :: SharesAction(book, key, p) == SharesAction(other, key, p);
    assert forall p :: KeepsPostfix(book, p) == KeepsPostfix(other, p);
  }

  /** The account of a published transfer is the one the facts and the plan determine. */
  lemma BookAccount(db: Db, layout: Layout, book: Book)
    requires Holds(db, layout, book) && WellFormed(book.facts) && Consistent(book.facts, book.plan)
    ensures SentsAccepted(book, book.facts.sents)
    ensures KeepsAll(book) == KeepsAll(Account(book.facts, book.plan))
  {
    hide *;
    AccountIs(book.facts, book.plan);
    ConsistentIs(book.facts, book.plan);
    HoldsIs(db, layout, book);
    ByKeyUnique(book.canon.rows, Account(book.facts, book.plan).canon.rows, book.facts.externals);
    SameConditions(book, Account(book.facts, book.plan));
    KeepsSame(book, Account(book.facts, book.plan));
  }

  /** Transfer, then read back: accepted exactly on consistent facts, and exact exactly on facts that can be kept. */
  method ThereAndBack(c: Ledger.Connection, facts: Facts, plan: Plan, order: seq<(int, int)>)
    returns (result: Result<Captured>)
    requires Coherent(c.db) && WellFormed(facts)
    requires c.db.actions == map[] && c.db.receipts == map[] && c.db.identities == map[] && c.db.observers == map[]
    requires forall k :: k in order <==> k in plan
    modifies c
    ensures result.Success? <==> Consistent(facts, plan)
    ensures result.Success? ==> (SameFacts(result.value, c.db.identities, facts) <==> KeepsAll(Account(facts, plan)))
    ensures result.Failure? ==> c.db == old(c.db)
  {
    hide *;
    var ok;
    ghost var layout, book;
    ok, layout, book := Publish(c, facts, plan, order);
    if !ok {
      return Failure;
    }
    var orders := ReadTables(c.db);
    result := Recover(c.db, orders, layout, book);
    BookAccount(c.db, layout, book);
    RoundTripIff(result.value, c.db, layout, book);
  }
}
