/** Last phases: sent replies land on the Action of their canonical result or on a new one; observers follow. */
module SentPhase {
  import opened Wrappers
  import opened ActionEntity
  import opened TransferModel
  import opened ResultPhase
  import opened CandidatePhase
  import opened PostfixPhase
  import Ledger

  ghost predicate AllPlaced(layout: Layout, ids: Identities, book: Book, rows: set<Sent>) {
    && FirstPhases(layout, ids, book)
    && PostfixesPlaced(layout, ids, book.facts, Rows(book.facts.postfixes))
    && PostfixesVia(layout, ids, book, Rows(book.facts.postfixes))
    && SentsPlaced(layout, ids, book.canon, rows)
  }

  ghost predicate SentsKept(layout: Layout, ids: Identities, book: Book, rows: set<Sent>) {
    AllPlaced(layout, ids, book, rows) && forall k | k in ids :: k.0 != SentObserver
  }

  lemma AllPlacedIs(layout: Layout, ids: Identities, book: Book, rows: set<Sent>)
    ensures AllPlaced(layout, ids, book, rows) <==>
      FirstPhases(layout, ids, book)
      && PostfixesPlaced(layout, ids, book.facts, Rows(book.facts.postfixes))
      && PostfixesVia(layout, ids, book, Rows(book.facts.postfixes))
      && SentsPlaced(layout, ids, book.canon, rows)
  {
  }

  lemma SentsKeptIs(layout: Layout, ids: Identities, book: Book, rows: set<Sent>)
    ensures SentsKept(layout, ids, book, rows) <==>
      FirstPhases(layout, ids, book)
      && PostfixesPlaced(layout, ids, book.facts, Rows(book.facts.postfixes))
      && PostfixesVia(layout, ids, book, Rows(book.facts.postfixes))
      && SentsPlaced(layout, ids, book.canon, rows)
      && (forall k | k in ids :: k.0 != SentObserver)
  {
  }

  // ---------- when a sent reply is accepted ----------

  /** The prepared message `p` sits on the Action of the canonical result with this key. */
  ghost predicate SharesAction(book: Book, key: string, p: Postfix) {
    key in book.canon.rows && p in book.facts.postfixes && exists t :: AttemptOf(book, t, p) && t.key == key
  }

  ghost predicate SentConsistent(book: Book, s: Sent) {
    forall p | SharesAction(book, s.key, p) :: p.body == s.text
  }

  /** Another message `q` with the delivery key of the reply's own is not on the channel of the reply by now. */
  ghost predicate OtherChannel(book: Book, before: set<Sent>, q: Postfix, s: Sent) {
    && (forall u | u in before && SharesAction(book, u.key, q) :: u.channel != s.channel)
    && ((forall u | u in before :: !SharesAction(book, u.key, q)) ==> q.channel != s.channel)
  }

  /** The delivery identity the message moves to with its reply is not taken, given the replies before. */
  ghost predicate PairOpen(book: Book, before: set<Sent>, s: Sent) {
    forall p, q | SharesAction(book, s.key, p) && q in book.facts.postfixes && q != p && q.key == p.key ::
      OtherChannel(book, before, q, s)
  }

  ghost predicate SentAccepted(book: Book, before: set<Sent>, s: Sent) {
    SentConsistent(book, s) && PairOpen(book, before, s)
  }

  /** The reply was sent through the channel its message was prepared for. */
  ghost predicate ChannelAgrees(book: Book, s: Sent) {
    forall p | SharesAction(book, s.key, p) :: p.channel == s.channel
  }

  /** Replies through the channels of their messages never take another message's identity. */
  lemma AgreeingOpen(book: Book, before: set<Sent>, s: Sent)
    requires PostfixesUnique(book.facts.postfixes) && ChannelAgrees(book, s)
    requires forall u | u in before :: ChannelAgrees(book, u)
    ensures PairOpen(book, before, s)
  {
    forall p, q | SharesAction(book, s.key, p) && q in book.facts.postfixes && q != p && q.key == p.key
      ensures OtherChannel(book, before, q, s)
    {
      PairsDiffer(book.facts.postfixes, p, q);
      hide SharesAction;
    }
  }

  lemma PairsDiffer(rows: seq<Postfix>, p: Postfix, q: Postfix)
    requires PostfixesUnique(rows) && p in rows && q in rows && p != q
    ensures p.Pair() != q.Pair()
  {
    var i :| 0 <= i < |rows| && rows[i] == p;
    var j :| 0 <= j < |rows| && rows[j] == q;
  }

  lemma ActionKey(home: Home)
    ensures ActionOf(home).externalKey == home.core.key && ActionOf(home).planId.None? && ActionOf(home).status.None?
    ensures ActionOf(home).deliveryReceipt == home.delivery && ActionOf(home).preparedReceipt == home.prepared
  {
  }

  lemma OneHome(db: Db, layout: Layout, a: int, b: int)
    requires Kept(db, layout)
    requires a in layout.homes && b in layout.homes && layout.homes[a].core.key.Some?
    requires layout.homes[b].core.key == layout.homes[a].core.key
    ensures b == a
  {
    ActionKey(layout.homes[a]);
    ActionKey(layout.homes[b]);
    assert NoOtherClashes(db.actions, a, db.actions[a]);
    assert db.actions[a] == ActionOf(layout.homes[a]) && db.actions[b] == ActionOf(layout.homes[b]);
  }

  lemma CanonicalHome(layout: Layout, ids: Identities, canon: Canon, key: string)
    requires ExternalsPlaced(layout, ids, canon) && key in canon.rows
    ensures key != "" && key in canon.owners && canon.owners[key] in layout.homes
    ensures layout.homes[canon.owners[key]].core.key == Some(key)
  {
    assert ExternalPlaced(layout, ids, canon, key);
  }

  /** Which prepared message the Action of a canonical result holds. */
  lemma SharedIs(db: Db, layout: Layout, ids: Identities, book: Book, key: string, p: Postfix)
    requires Kept(db, layout) && FirstPhases(layout, ids, book)
    requires PostfixesPlaced(layout, ids, book.facts, Rows(book.facts.postfixes))
    requires PostfixesVia(layout, ids, book, Rows(book.facts.postfixes))
    requires key in book.canon.rows && key in book.canon.owners
    requires book.canon.owners[key] in layout.homes && layout.homes[book.canon.owners[key]].core.key == Some(key)
    ensures layout.homes[book.canon.owners[key]].postfix == Some(p) <==> SharesAction(book, key, p)
  {
    hide *;
    var a := book.canon.owners[key];
    if layout.homes[a].postfix == Some(p) {
      PlacedHere(layout, ids, book, p, a);
      RowsIs(book.facts.postfixes, p);
      SharedByAttempt(layout, ids, book, key, p, a);
    }
    if SharesAction(book, key, p) {
      var t := ShareIs(book, key, p);
      CanonicalHomeKey(layout, ids, book, key);
      AttemptHome(layout, ids, book, p, t);
      OneHome(db, layout, a, book.deliveries[p.Pair()]);
      RowsIs(book.facts.postfixes, p);
      PostfixThere(layout, ids, book, p);
    }
  }

  lemma RowsIs<T>(rows: seq<T>, t: T)
    ensures t in Rows(rows) <==> t in rows
  {
  }

  lemma ShareIs(book: Book, key: string, p: Postfix) returns (t: Attempt)
    requires SharesAction(book, key, p)
    ensures key in book.canon.rows && p in book.facts.postfixes && AttemptOf(book, t, p) && t.key == key
  {
    t :| AttemptOf(book, t, p) && t.key == key;
  }

  lemma PlacedHere(layout: Layout, ids: Identities, book: Book, p: Postfix, a: int)
    requires PostfixesPlaced(layout, ids, book.facts, Rows(book.facts.postfixes))
    requires PostfixesVia(layout, ids, book, Rows(book.facts.postfixes))
    requires a in layout.homes && layout.homes[a].postfix == Some(p)
    ensures p in Rows(book.facts.postfixes) && PostfixVia(layout, ids, book, p)
    ensures (OutboundPostfix, PairId(p.Pair())) in ids && ids[(OutboundPostfix, PairId(p.Pair()))].action == a
  {
  }

  lemma CanonicalHomeKey(layout: Layout, ids: Identities, book: Book, key: string)
    requires FirstPhases(layout, ids, book) && key in book.canon.rows
    ensures key != "" && key in book.canon.owners && book.canon.owners[key] in layout.homes
    ensures layout.homes[book.canon.owners[key]].core.key == Some(key)
  {
    CanonicalHome(layout, ids, book.canon, key);
  }

  lemma SharedByAttempt(layout: Layout, ids: Identities, book: Book, key: string, p: Postfix, a: int)
    requires FirstPhases(layout, ids, book) && PostfixVia(layout, ids, book, p)
    requires key in book.canon.rows && p in book.facts.postfixes
    requires ids[(OutboundPostfix, PairId(p.Pair()))].action == a
    requires a in layout.homes && layout.homes[a].core.key == Some(key)
    ensures SharesAction(book, key, p)
  {
    var t := AttemptBehind(layout, ids, book, p);
    assert AttemptPlaced(layout, ids, book.plan, book.canon, t);
    assert t.key == key;
  }

  lemma AttemptHome(layout: Layout, ids: Identities, book: Book, p: Postfix, t: Attempt)
    requires FirstPhases(layout, ids, book) && AttemptOf(book, t, p) && t.key != ""
    ensures p.Pair() in book.deliveries && book.deliveries[p.Pair()] in layout.homes
    ensures layout.homes[book.deliveries[p.Pair()]].core.key == Some(t.key)
  {
    assert AttemptPlaced(layout, ids, book.plan, book.canon, t);
  }

  lemma PostfixThere(layout: Layout, ids: Identities, book: Book, p: Postfix)
    requires PostfixesPlaced(layout, ids, book.facts, Rows(book.facts.postfixes))
    requires PostfixesVia(layout, ids, book, Rows(book.facts.postfixes))
    requires p in Rows(book.facts.postfixes) && p.Pair() in book.deliveries
    ensures book.deliveries[p.Pair()] in layout.homes
    ensures layout.homes[book.deliveries[p.Pair()]].postfix == Some(p)
  {
    assert PostfixVia(layout, ids, book, p) && PostfixPlaced(layout, ids, book.facts, p);
  }

  /** The owner of a canonical result holds no sent reply yet when its key has not been seen. */
  lemma OwnerUnsent(layout: Layout, ids: Identities, book: Book, rows: set<Sent>, key: string, a: int)
    requires SentsPlaced(layout, ids, book.canon, rows)
    requires a in layout.homes && layout.homes[a].core.key == Some(key)
    requires forall s | s in rows :: s.key != key
    ensures layout.homes[a].sent.None? && layout.homes[a].delivery.None?
  {
    assert forall s | s in rows :: SentPlaced(layout, ids, book.canon, s);
  }

  // ---------- the Action a sent reply is written to ----------

  function SentCore(s: Sent): Core { Core(None, None, None, None, Some(s.run)) }

  function NewSentAction(s: Sent): Action {
    BLANK_ACTION.(
      preparedBody := Some(s.text), deliveryChannel := Some(s.channel), feedbackToken := Some(s.token),
      conversation := Some(s.conversation), trigger := Some(s.trigger), recallKey := Some(s.recallKey),
      recallStatus := Some(s.recallStatus), recallError := Some(s.recallError), recalledAt := s.recalledAt,
      agentRun := Some(s.run))
  }

  predicate SentRefused(current: Action, s: Sent) {
    || (current.preparedBody.Some? && current.preparedBody != Some(s.text))
    || (current.conversation.Some? && current.conversation != Some(s.conversation))
    || (current.trigger.Some? && current.trigger != Some(s.trigger))
  }

  function WithSentFields(current: Action, s: Sent): Action {
    current.(
      preparedBody := Some(s.text), deliveryChannel := Some(s.channel), feedbackToken := Some(s.token),
      conversation := Some(s.conversation), trigger := Some(s.trigger), recallKey := Some(s.recallKey),
      recallStatus := Some(s.recallStatus), recallError := Some(s.recallError), recalledAt := s.recalledAt)
  }

  ghost function SentHome(layout: Layout, canon: Canon, s: Sent): Home {
    if s.key in canon.owners && canon.owners[s.key] in layout.homes
    then layout.homes[canon.owners[s.key]]
    else Home(SentCore(s), None, None, None, None)
  }

  lemma SentRow(home: Home, s: Sent)
    requires home.sent.None?
    ensures WithSentFields(ActionOf(home), s) == ActionOf(home.(sent := Some(s)))
    ensures SentRefused(ActionOf(home), s) <==> home.postfix.Some? && home.postfix.value.body != s.text
  {
  }

  lemma NewSentRow(db: Db, s: Sent)
    ensures NewSentAction(s) == ActionOf(Home(SentCore(s), None, Some(s), None, None))
    ensures CanCreateAction(db, NewSentAction(s))
  {
    CreationAllowed(db, NewSentAction(s));
  }

  /** The channel an Action with a prepared message carries at this point. */
  function CurrentChannel(home: Home): string
    requires home.postfix.Some?
  {
    if home.sent.Some? then home.sent.value.channel else home.postfix.value.channel
  }

  /** No other Action with a message under this delivery key is on this channel. */
  ghost predicate ChannelFree(layout: Layout, a: int, key: string, channel: string) {
    forall b | b in layout.homes && b != a && layout.homes[b].postfix.Some? && layout.homes[b].postfix.value.key == key ::
      CurrentChannel(layout.homes[b]) != channel
  }

  /** Only the delivery index can refuse the reply's fields: when its pair is on another Action. */
  lemma ReplyClash(x: Home, y: Home, s: Sent)
    requires !Clash(ActionOf(x), ActionOf(y))
    ensures Clash(ActionOf(x), ActionOf(y.(sent := Some(s)))) <==>
      y.postfix.Some? && x.postfix.Some? && x.postfix.value.key == y.postfix.value.key && CurrentChannel(x) == s.channel
  {
  }

  lemma SentUpdateIff(db: Db, layout: Layout, a: int, s: Sent)
    requires Kept(db, layout) && a in layout.homes
    ensures CanUpdateAction(db, a, ActionOf(layout.homes[a].(sent := Some(s)))) <==>
      layout.homes[a].postfix.None? || ChannelFree(layout, a, layout.homes[a].postfix.value.key, s.channel)
    ensures a in db.actions
  {
    var home := layout.homes[a].(sent := Some(s));
    ActionKey(home);
    ActionKey(layout.homes[a]);
    RowsKept(db, layout, a);
    hide ActionOf;
    hide Clash;
    hide Kept;
    forall b | b in layout.homes && b != a
      ensures Clash(db.actions[b], ActionOf(home)) <==>
        home.postfix.Some? && layout.homes[b].postfix.Some? && layout.homes[b].postfix.value.key == home.postfix.value.key
        && CurrentChannel(layout.homes[b]) == s.channel
    {
      ReplyClash(layout.homes[b], layout.homes[a], s);
    }
  }

  lemma RowsKept(db: Db, layout: Layout, a: int)
    requires Kept(db, layout) && a in layout.homes
    ensures db.actions.Keys == layout.homes.Keys && forall b | b in layout.homes :: db.actions[b] == ActionOf(layout.homes[b])
    ensures forall b | b in layout.homes && b != a :: !Clash(ActionOf(layout.homes[b]), ActionOf(layout.homes[a]))
  {
    hide ActionOf;
    hide Clash;
    assert NoOtherClashes(db.actions, a, db.actions[a]);
  }

  // ---------- the replies already on messages ----------

  lemma CanonicalReply(layout: Layout, ids: Identities, book: Book, rows: set<Sent>, s: Sent)
    requires ExternalsPlaced(layout, ids, book.canon) && SentsPlaced(layout, ids, book.canon, rows)
    requires s in rows && s.key in book.canon.rows
    ensures s.key in book.canon.owners && book.canon.owners[s.key] in layout.homes
    ensures layout.homes[book.canon.owners[s.key]].core.key == Some(s.key)
    ensures (SentReply, IntegerId(s.id)) in ids
    ensures
      var a := ids[(SentReply, IntegerId(s.id))].action;
      a in layout.homes && layout.homes[a].core.key == Some(s.key) && layout.homes[a].sent == Some(s)
  {
    CanonicalHome(layout, ids, book.canon, s.key);
    assert SentPlaced(layout, ids, book.canon, s);
  }

  /** The Action of a canonical key holds message `p` and reply `s` exactly when `p` shares the key of `s`. */
  lemma ReplyAt(db: Db, layout: Layout, book: Book, rows: set<Sent>, a: int, p: Postfix, s: Sent)
    requires Kept(db, layout) && AllPlaced(layout, db.identities, book, rows)
    requires a in layout.homes && layout.homes[a].postfix == Some(p) && s in rows
    ensures SharesAction(book, s.key, p) <==> layout.homes[a].sent == Some(s)
  {
    AllPlacedIs(layout, db.identities, book, rows);
    FirstPhasesIs(layout, db.identities, book);
    ReplyKeyed(layout, db.identities, book, rows, a, p, s);
    SharesKey(book, s.key, p);
    hide *;
    if s.key in book.canon.rows {
      CanonicalReply(layout, db.identities, book, rows, s);
      SharedIs(db, layout, db.identities, book, s.key, p);
      OneHome(db, layout, book.canon.owners[s.key], db.identities[(SentReply, IntegerId(s.id))].action);
      if layout.homes[a].sent == Some(s) {
        OneHome(db, layout, book.canon.owners[s.key], a);
      }
      if SharesAction(book, s.key, p) {
        PlacedHere(layout, db.identities, book, p, a);
        PlacedHere(layout, db.identities, book, p, book.canon.owners[s.key]);
      }
    }
  }

  lemma SharesKey(book: Book, key: string, p: Postfix)
    ensures SharesAction(book, key, p) ==> key in book.canon.rows && p in book.facts.postfixes
  {
  }

  lemma ReplyKeyed(layout: Layout, ids: Identities, book: Book, rows: set<Sent>, a: int, p: Postfix, s: Sent)
    requires SentsPlaced(layout, ids, book.canon, rows)
    requires a in layout.homes && layout.homes[a].postfix == Some(p)
    ensures layout.homes[a].sent == Some(s) ==> s.key in book.canon.rows && layout.homes[a].core.key == Some(s.key)
  {
    if layout.homes[a].sent == Some(s) { assert SentPlaced(layout, ids, book.canon, s); }
  }

  lemma ReplyListed(layout: Layout, ids: Identities, book: Book, rows: set<Sent>, a: int)
    requires SentsPlaced(layout, ids, book.canon, rows) && a in layout.homes
    ensures layout.homes[a].sent.Some? ==> layout.homes[a].sent.value in rows
  {
  }

  lemma MessageAt(layout: Layout, ids: Identities, book: Book, p: Postfix) returns (a: int)
    requires PostfixesPlaced(layout, ids, book.facts, Rows(book.facts.postfixes)) && p in book.facts.postfixes
    ensures a in layout.homes && layout.homes[a].postfix == Some(p)
    ensures (OutboundPostfix, PairId(p.Pair())) in ids && a == ids[(OutboundPostfix, PairId(p.Pair()))].action
  {
    assert PostfixPlaced(layout, ids, book.facts, p);
    a := ids[(OutboundPostfix, PairId(p.Pair()))].action;
  }

  /** What the replies before say about message `q` is what its Action shows. */
  lemma OtherChannelIs(db: Db, layout: Layout, book: Book, rows: set<Sent>, b: int, q: Postfix, s: Sent)
    requires Kept(db, layout) && AllPlaced(layout, db.identities, book, rows)
    requires b in layout.homes && layout.homes[b].postfix == Some(q)
    ensures OtherChannel(book, rows, q, s) <==> CurrentChannel(layout.homes[b]) != s.channel
  {
    hide *;
    AllPlacedIs(layout, db.identities, book, rows);
    ReplyListed(layout, db.identities, book, rows, b);
    forall u | u in rows ensures SharesAction(book, u.key, q) <==> layout.homes[b].sent == Some(u) {
      ReplyAt(db, layout, book, rows, b, q, u);
    }
    ChannelFromReplies(layout.homes[b], book, rows, q, s);
  }

  lemma ChannelFromReplies(home: Home, book: Book, rows: set<Sent>, q: Postfix, s: Sent)
    requires home.postfix == Some(q) && (home.sent.Some? ==> home.sent.value in rows)
    requires forall u | u in rows :: SharesAction(book, u.key, q) <==> home.sent == Some(u)
    ensures OtherChannel(book, rows, q, s) <==> CurrentChannel(home) != s.channel
  {
    hide SharesAction;
  }

  lemma PairDecides(db: Db, layout: Layout, book: Book, rows: set<Sent>, a: int, p: Postfix, s: Sent)
    requires Kept(db, layout) && AllPlaced(layout, db.identities, book, rows)
    requires a in layout.homes && layout.homes[a].postfix == Some(p)
    requires forall x :: SharesAction(book, s.key, x) <==> x == p
    ensures PairOpen(book, rows, s) <==> ChannelFree(layout, a, p.key, s.channel)
  {
    hide *;
    AllPlacedIs(layout, db.identities, book, rows);
    OpenIs(book, rows, s);
    FreeIs(layout, a, p.key, s.channel);
    forall b | b in layout.homes && b != a && layout.homes[b].postfix.Some?
      ensures
        var q := layout.homes[b].postfix.value;
        && q in book.facts.postfixes && q != p
        && (OtherChannel(book, rows, q, s) <==> CurrentChannel(layout.homes[b]) != s.channel)
    {
      var q := layout.homes[b].postfix.value;
      PlacedHere(layout, db.identities, book, q, b);
      PlacedHere(layout, db.identities, book, p, a);
      RowsIs(book.facts.postfixes, q);
      OtherChannelIs(db, layout, book, rows, b, q, s);
    }
    forall q | q in book.facts.postfixes && q != p
      ensures exists b :: b in layout.homes && b != a && layout.homes[b].postfix == Some(q)
    {
      var b := MessageAt(layout, db.identities, book, q);
    }
  }

  lemma OpenIs(book: Book, before: set<Sent>, s: Sent)
    ensures PairOpen(book, before, s) <==>
      forall p, q | SharesAction(book, s.key, p) && q in book.facts.postfixes && q != p && q.key == p.key ::
        OtherChannel(book, before, q, s)
  {
    hide SharesAction;
    hide OtherChannel;
  }

  lemma FreeIs(layout: Layout, a: int, key: string, channel: string)
    ensures ChannelFree(layout, a, key, channel) <==>
      forall b | b in layout.homes && b != a && layout.homes[b].postfix.Some? && layout.homes[b].postfix.value.key == key ::
        CurrentChannel(layout.homes[b]) != channel
  {
  }

  /** What the Action of a keyed reply looks like before the reply is written. */
  lemma OwnedReplyRow(db: Db, layout: Layout, ids: Identities, book: Book, rows: set<Sent>, s: Sent)
    requires Kept(db, layout) && SentsKept(layout, ids, book, rows) && ids == db.identities
    requires s.key in book.canon.rows && forall u | u in rows :: u.key != s.key
    ensures s.key in book.canon.owners
    ensures
      var a := book.canon.owners[s.key];
      && a in layout.homes && a in db.actions && layout.homes[a].sent.None? && layout.homes[a].delivery.None?
      && db.actions[a] == ActionOf(layout.homes[a])
      && layout.homes[a].core.key == Some(s.key)
      && (SentRefused(db.actions[a], s) <==> !SentConsistent(book, s))
      && WithSentFields(db.actions[a], s) == ActionOf(layout.homes[a].(sent := Some(s)))
      && (PairOpen(book, rows, s) <==> CanUpdateAction(db, a, ActionOf(layout.homes[a].(sent := Some(s)))))
  {
    hide *;
    SentsKeptIs(layout, ids, book, rows);
    KeptIs(db, layout);
    CanonicalHomeKey(layout, ids, book, s.key);
    var a := book.canon.owners[s.key];
    RowRendered(db, layout, a);
    OwnerUnsent(layout, ids, book, rows, s.key, a);
    SentRow(layout.homes[a], s);
    TextDecides(db, layout, ids, book, s, a);
    SentUpdateIff(db, layout, a, s);
    AllPlacedIs(layout, ids, book, rows);
    SharedBy(db, layout, ids, book, s.key, a);
    if layout.homes[a].postfix.Some? {
      PairDecides(db, layout, book, rows, a, layout.homes[a].postfix.value, s);
    } else {
      OpenIs(book, rows, s);
    }
  }

  lemma SharedBy(db: Db, layout: Layout, ids: Identities, book: Book, key: string, a: int)
    requires Kept(db, layout) && FirstPhases(layout, ids, book)
    requires PostfixesPlaced(layout, ids, book.facts, Rows(book.facts.postfixes))
    requires PostfixesVia(layout, ids, book, Rows(book.facts.postfixes))
    requires key in book.canon.rows && key in book.canon.owners && a == book.canon.owners[key]
    requires a in layout.homes && layout.homes[a].core.key == Some(key)
    ensures forall p :: SharesAction(book, key, p) <==> layout.homes[a].postfix == Some(p)
  {
    hide *;
    forall p ensures SharesAction(book, key, p) <==> layout.homes[a].postfix == Some(p) {
      SharedIs(db, layout, ids, book, key, p);
    }
  }

  lemma RowRendered(db: Db, layout: Layout, a: int)
    requires Rendered(db, layout) && a in layout.homes
    ensures a in db.actions && db.actions[a] == ActionOf(layout.homes[a])
  {
  }

  lemma TextDecides(db: Db, layout: Layout, ids: Identities, book: Book, s: Sent, a: int)
    requires Kept(db, layout) && FirstPhases(layout, ids, book)
    requires PostfixesPlaced(layout, ids, book.facts, Rows(book.facts.postfixes))
    requires PostfixesVia(layout, ids, book, Rows(book.facts.postfixes))
    requires s.key in book.canon.rows && s.key in book.canon.owners && a == book.canon.owners[s.key]
    requires a in layout.homes && layout.homes[a].core.key == Some(s.key)
    ensures SentConsistent(book, s) <==> !(layout.homes[a].postfix.Some? && layout.homes[a].postfix.value.body != s.text)
  {
    hide FirstPhases;
    hide Kept;
    hide PostfixesPlaced;
    hide PostfixesVia;
    hide SharesAction;
    forall p ensures layout.homes[a].postfix == Some(p) <==> SharesAction(book, s.key, p) {
      SharedIs(db, layout, ids, book, s.key, p);
    }
  }

  method PlaceSent(
    c: Ledger.Connection, s: Sent, owners: map<string, int>, ghost layout: Layout, ghost book: Book, ghost rows: set<Sent>)
    returns (ok: bool, a: int, ghost layout': Layout)
    requires Kept(c.db, layout) && SentsKept(layout, c.db.identities, book, rows)
    requires owners == book.canon.owners && owners.Keys == book.canon.rows.Keys
    requires s.key != "" ==> forall u | u in rows :: u.key != s.key
    requires s.key in owners ==> s.key != ""
    modifies c
    ensures ok <==> SentAccepted(book, rows, s)
    ensures ok ==> Kept(c.db, layout')
    ensures ok ==> layout' == layout.(homes := layout.homes[a := SentHome(layout, book.canon, s).(sent := Some(s))])
    ensures ok ==> if s.key in owners
                   then a == owners[s.key] && a in layout.homes && layout.homes[a].sent.None?
                        && layout.homes[a].delivery.None? && layout.homes[a].core.key == Some(s.key)
                   else a !in layout.homes
    ensures c.db.identities == old(c.db.identities) && c.db.observers == old(c.db.observers)
  {
    layout' := layout;
    hide *;
    AcceptedIs(book, rows, s);
    SentHomeIs(layout, book.canon, s);
    if s.key in owners {
      OwnedReplyRow(c.db, layout, c.db.identities, book, rows, s);
      a := owners[s.key];
      var current := c.db.actions[a];
      if SentRefused(current, s) {
        return false, a, layout;
      }
      ghost var before, home := c.db, layout.homes[a].(sent := Some(s));
      KeptIs(c.db, layout);
      ok := PutAction(c, a, WithSentFields(current, s));
      if ok {
        HomeWritten(before, c.db, layout, a, home);
        layout' := layout.(homes := layout.homes[a := home]);
        KeptIs(c.db, layout');
      }
    } else {
      hide *;
      NewSentRow(c.db, s);
      Unshared(book, rows, s);
      a, layout' := CreateHome(c, NewSentAction(s), layout, Home(SentCore(s), None, Some(s), None, None));
      ok := true;
    }
  }

  lemma AcceptedIs(book: Book, before: set<Sent>, s: Sent)
    ensures SentAccepted(book, before, s) <==> SentConsistent(book, s) && PairOpen(book, before, s)
  {
  }

  lemma Unshared(book: Book, rows: set<Sent>, s: Sent)
    requires s.key !in book.canon.rows
    ensures SentAccepted(book, rows, s)
  {
  }

  lemma SentHomeIs(layout: Layout, canon: Canon, s: Sent)
    ensures s.key in canon.owners && canon.owners[s.key] in layout.homes
      ==> SentHome(layout, canon, s) == layout.homes[canon.owners[s.key]]
    ensures s.key !in canon.owners
      ==> SentHome(layout, canon, s).(sent := Some(s)) == Home(SentCore(s), None, Some(s), None, None)
  {
  }

  // ---------- its receipt, its delivery link and its map row ----------

  function SentReceipt(a: int, s: Sent): Receipt {
    BlankReceipt(a).(observedAt := Some(s.sentAt), agentRun := Some(s.run), body := s.result)
  }

  lemma SentReceiptReady(db: Db, layout: Layout, s: Sent, a: int)
    requires Rendered(db, layout) && a in layout.homes
    ensures SentReceipt(a, s) == ReceiptOf(Piece(a, Delivered(s, None)))
    ensures CanInsertReceipt(db, ReceiptOf(Piece(a, Delivered(s, None))))
  {
    ReceiptAllowed(db, layout, Piece(a, Delivered(s, None)));
  }

  /** Pointing a reply without a body of its own at the canonical body is never refused. */
  lemma LinkReady(db: Db, layout: Layout, s: Sent, a: int, r: int, e: External, body: int)
    requires Kept(db, layout) && r in layout.pieces && layout.pieces[r] == Piece(a, Delivered(s, None))
    requires s.result.None? && body in layout.pieces && layout.pieces[body] == Piece(a, Canonical(e))
    ensures r in db.receipts
    ensures db.receipts[r].(provider := Some(body)) == ReceiptOf(Piece(a, Delivered(s, Some(body))))
    ensures CanUpdateReceipt(db, r, ReceiptOf(Piece(a, Delivered(s, Some(body)))))
  {
    assert db.receipts[r] == ReceiptOf(layout.pieces[r]) && db.receipts[body] == ReceiptOf(layout.pieces[body]);
  }

  method PutReceipt(c: Ledger.Connection, id: int, receipt: Receipt) returns (ok: bool)
    requires Coherent(c.db) && id in c.db.receipts
    modifies c
    ensures ok <==> CanUpdateReceipt(old(c.db), id, receipt)
    ensures c.db == if ok then old(c.db).(receipts := old(c.db).receipts[id := receipt]) else old(c.db)
    ensures Coherent(c.db)
  {
    ok := CanUpdateReceipt(c.db, id, receipt);
    if ok {
      UpdateReceiptCoherent(c.db, id, receipt);
      c.db := c.db.(receipts := c.db.receipts[id := receipt]);
    }
  }

  lemma PieceWritten(before: Db, db: Db, layout: Layout, r: int, piece: Piece)
    requires Rendered(before, layout) && db == before.(receipts := before.receipts[r := ReceiptOf(piece)])
    ensures Rendered(db, layout.(pieces := layout.pieces[r := piece]))
  {
  }

  lemma DeliveryLinkReady(db: Db, layout: Layout, a: int, r: int)
    requires Kept(db, layout) && a in layout.homes && r in layout.pieces && layout.pieces[r].owner == a
    ensures a in db.actions
    ensures db.actions[a].(deliveryReceipt := Some(r)) == ActionOf(layout.homes[a].(delivery := Some(r)))
    ensures CanUpdateAction(db, a, ActionOf(layout.homes[a].(delivery := Some(r))))
  {
    var action := db.actions[a].(deliveryReceipt := Some(r));
    assert db.receipts[r] == ReceiptOf(layout.pieces[r]);
    OwnerKept(layout.pieces[r]);
    ActionLinked(layout.homes[a], r);
    hide ReceiptOf;
    hide ActionOf;
    forall b | b in db.actions && b != a ensures !Clash(db.actions[b], action) {
      assert NoOtherClashes(db.actions, a, db.actions[a]) && !Clash(db.actions[b], db.actions[a]);
    }
  }

  lemma OwnerKept(piece: Piece)
    ensures ReceiptOf(piece).owner == piece.owner
  {
  }

  lemma ActionLinked(home: Home, r: int)
    ensures ActionOf(home).(deliveryReceipt := Some(r)) == ActionOf(home.(delivery := Some(r)))
    ensures ActionOf(home).status.None?
  {
  }

  ghost predicate CanonicalBody(layout: Layout, canon: Canon, s: Sent, a: int) {
    s.key in canon.bodies ==>
      && s.key in canon.rows && canon.bodies[s.key] in layout.pieces
      && layout.pieces[canon.bodies[s.key]] == Piece(a, Canonical(canon.rows[s.key]))
  }

  lemma SentOriginIs(s: Sent, canon: Canon)
    ensures SentOrigin(s, canon)
      == Delivered(s, if s.result.None? && s.key in canon.bodies then Some(canon.bodies[s.key]) else None)
  {
  }

  lemma BodyHere(layout: Layout, canon: Canon, s: Sent, a: int)
    requires CanonicalBody(layout, canon, s, a) && s.key in canon.bodies
    ensures s.key in canon.rows && canon.bodies[s.key] in layout.pieces
    ensures layout.pieces[canon.bodies[s.key]] == Piece(a, Canonical(canon.rows[s.key]))
  {
  }

  method AppendSentReceipt(
    c: Ledger.Connection, s: Sent, a: int, bodies: map<string, int>, ghost layout: Layout, ghost canon: Canon)
    returns (r: int, ghost layout': Layout)
    requires Kept(c.db, layout) && a in layout.homes
    requires bodies == canon.bodies && CanonicalBody(layout, canon, s, a)
    modifies c
    ensures Kept(c.db, layout') && r !in layout.pieces
    ensures layout' == layout.(pieces := layout.pieces[r := Piece(a, SentOrigin(s, canon))])
    ensures c.db.identities == old(c.db.identities) && c.db.observers == old(c.db.observers)
  {
    hide *;
    SentOriginIs(s, canon);
    if s.key in canon.bodies { BodyHere(layout, canon, s, a); }
    KeptIs(c.db, layout);
    SentReceiptReady(c.db, layout, s, a);
    r, layout' := AppendPiece(c, SentReceipt(a, s), layout, Piece(a, Delivered(s, None)));
    if s.result.None? && s.key in bodies {
      var body := bodies[s.key];
      LinkReady(c.db, layout', s, a, r, canon.rows[s.key], body);
      KeptIs(c.db, layout');
      ghost var before, piece := c.db, Piece(a, Delivered(s, Some(body)));
      var linked := PutReceipt(c, r, c.db.receipts[r].(provider := Some(body)));
      PieceWritten(before, c.db, layout', r, piece);
      layout' := layout'.(pieces := layout'.pieces[r := piece]);
      KeptIs(c.db, layout');
    }
  }

  method LinkDelivery(c: Ledger.Connection, a: int, r: int, ghost layout: Layout) returns (ghost layout': Layout)
    requires Kept(c.db, layout) && a in layout.homes && r in layout.pieces && layout.pieces[r].owner == a
    modifies c
    ensures Kept(c.db, layout')
    ensures layout' == layout.(homes := layout.homes[a := layout.homes[a].(delivery := Some(r))])
    ensures c.db.identities == old(c.db.identities) && c.db.observers == old(c.db.observers)
  {
    KeptIs(c.db, layout);
    DeliveryLinkReady(c.db, layout, a, r);
    hide *;
    ghost var before, home := c.db, layout.homes[a].(delivery := Some(r));
    var linked := PutAction(c, a, c.db.actions[a].(deliveryReceipt := Some(r)));
    HomeWritten(before, c.db, layout, a, home);
    layout' := layout.(homes := layout.homes[a := home]);
    KeptIs(c.db, layout');
  }

  // ---------- one more reply placed ----------

  ghost predicate SentWritten(
    layout: Layout, ids: Identities, book: Book, s: Sent, a: int, r: int, layout': Layout, ids': Identities)
  {
    && layout' == Layout(
         layout.homes[a := SentHome(layout, book.canon, s).(sent := Some(s), delivery := Some(r))],
         layout.pieces[r := Piece(a, SentOrigin(s, book.canon))])
    && ids' == ids[(SentReply, IntegerId(s.id)) := Mapped(a, Some(r))]
    && r !in layout.pieces && (SentReply, IntegerId(s.id)) !in ids
    && book.canon.rows.Keys == book.canon.owners.Keys
    && (if s.key in book.canon.owners
        then a == book.canon.owners[s.key] && a in layout.homes && layout.homes[a].sent.None?
             && layout.homes[a].core.key == Some(s.key)
        else a !in layout.homes)
  }

  lemma SentGrown(
    layout: Layout, ids: Identities, book: Book, s: Sent, a: int, r: int, layout': Layout, ids': Identities)
    requires SentWritten(layout, ids, book, s, a, r, layout', ids')
    ensures Grown(layout, ids, layout', ids')
    ensures forall x | x in layout'.pieces && x !in layout.pieces :: x == r
    ensures layout'.pieces[r].origin.Delivered?
    ensures forall x | x in layout'.pieces && (layout'.pieces[x].origin.Observed? || ForResult(layout'.pieces[x].origin)) ::
      x in layout.pieces
    ensures forall b | b in layout'.homes ::
      if b in layout.homes then Shown(layout.homes[b]) ==> Shown(layout'.homes[b]) else Shown(layout'.homes[b])
    ensures forall k | k in ids' && k.0 != SentReply :: k in ids
    ensures forall b | b in layout'.homes && b != a :: b in layout.homes && layout'.homes[b] == layout.homes[b]
    ensures forall b | b in layout.homes ::
      layout'.homes[b].postfix == layout.homes[b].postfix && layout'.homes[b].prepared == layout.homes[b].prepared
    ensures a !in layout.homes ==> layout'.homes[a].postfix.None? && layout'.homes[a].prepared.None?
  {
  }

  lemma PreparedStays(
    layout: Layout, ids: Identities, book: Book, s: Sent, a: int, r: int, layout': Layout, ids': Identities,
    rows: set<Postfix>)
    requires SentWritten(layout, ids, book, s, a, r, layout', ids')
    requires PostfixesPlaced(layout, ids, book.facts, rows)
    ensures PostfixesPlaced(layout', ids', book.facts, rows)
  {
    SentGrown(layout, ids, book, s, a, r, layout', ids');
    hide SentWritten;
    forall p | p in rows
      ensures PostfixPlaced(layout', ids', book.facts, p)
      ensures ids'[(OutboundPostfix, PairId(p.Pair()))] == ids[(OutboundPostfix, PairId(p.Pair()))]
    {
      var b := ids[(OutboundPostfix, PairId(p.Pair()))].action;
      assert PostfixPlaced(layout, ids, book.facts, p) && b in layout.homes;
      PostfixPlacedStays(layout, ids, layout', ids', book.facts, p);
    }
    hide PostfixPlaced;
  }

  lemma PreparedViaStays(
    layout: Layout, ids: Identities, layout': Layout, ids': Identities, book: Book, rows: set<Postfix>)
    requires PostfixesVia(layout, ids, book, rows) && Grown(layout, ids, layout', ids')
    requires forall k | k in ids' && k.0 == CandidateAttempt :: k in ids
    ensures PostfixesVia(layout', ids', book, rows)
  {
    forall p | p in rows ensures PostfixVia(layout', ids', book, p) {
      assert PostfixVia(layout, ids, book, p);
      var a := ids[(OutboundPostfix, PairId(p.Pair()))].action;
    }
  }

  lemma SentPlacedStays(layout: Layout, ids: Identities, layout': Layout, ids': Identities, canon: Canon, s: Sent)
    requires SentPlaced(layout, ids, canon, s) && Grown(layout, ids, layout', ids')
    requires
      var a := ids[(SentReply, IntegerId(s.id))].action;
      a in layout'.homes && layout'.homes[a] == layout.homes[a]
    ensures SentPlaced(layout', ids', canon, s)
    ensures ids'[(SentReply, IntegerId(s.id))] == ids[(SentReply, IntegerId(s.id))]
  {
    var r := ids[(SentReply, IntegerId(s.id))].receipt.value;
    assert r in layout.pieces;
  }

  lemma NewSentPlaced(
    layout: Layout, ids: Identities, book: Book, s: Sent, a: int, r: int, layout': Layout, ids': Identities)
    requires SentWritten(layout, ids, book, s, a, r, layout', ids')
    ensures SentPlaced(layout', ids', book.canon, s)
    ensures ids'[(SentReply, IntegerId(s.id))] == Mapped(a, Some(r))
  {
  }

  lemma OldSentsStay(
    layout: Layout, ids: Identities, book: Book, rows: set<Sent>, s: Sent, a: int, r: int, layout': Layout, ids': Identities)
    requires SentWritten(layout, ids, book, s, a, r, layout', ids')
    requires SentsPlaced(layout, ids, book.canon, rows)
    ensures forall u | u in rows ::
      SentPlaced(layout', ids', book.canon, u)
      && ids'[(SentReply, IntegerId(u.id))] == ids[(SentReply, IntegerId(u.id))]
  {
    SentGrown(layout, ids, book, s, a, r, layout', ids');
    forall u | u in rows
      ensures SentPlaced(layout', ids', book.canon, u)
      ensures ids'[(SentReply, IntegerId(u.id))] == ids[(SentReply, IntegerId(u.id))]
    {
      assert SentPlaced(layout, ids, book.canon, u);
      var b := ids[(SentReply, IntegerId(u.id))].action;
      assert b != a;
      SentPlacedStays(layout, ids, layout', ids', book.canon, u);
    }
  }

  lemma SentHomesAdded(
    layout: Layout, ids: Identities, book: Book, rows: set<Sent>, s: Sent, a: int, r: int, layout': Layout, ids': Identities)
    requires SentWritten(layout, ids, book, s, a, r, layout', ids') && SentsPlaced(layout, ids, book.canon, rows)
    ensures forall b | b in layout'.homes ::
      if layout'.homes[b].sent.None? then layout'.homes[b].delivery.None?
      else
        var u := layout'.homes[b].sent.value;
        u in rows + {s} && SentPlaced(layout', ids', book.canon, u) && ids'[(SentReply, IntegerId(u.id))].action == b
  {
    NewSentPlaced(layout, ids, book, s, a, r, layout', ids');
    OldSentsStay(layout, ids, book, rows, s, a, r, layout', ids');
    assert layout'.homes[a].sent == Some(s);
    assert forall b | b in layout'.homes && b != a :: b in layout.homes && layout'.homes[b] == layout.homes[b];
    hide SentWritten;
    hide SentPlaced;
  }

  lemma SentPiecesAdded(
    layout: Layout, ids: Identities, book: Book, rows: set<Sent>, s: Sent, a: int, r: int, layout': Layout, ids': Identities)
    requires SentWritten(layout, ids, book, s, a, r, layout', ids') && SentsPlaced(layout, ids, book.canon, rows)
    ensures forall x | x in layout'.pieces && layout'.pieces[x].origin.Delivered? ::
      var u := layout'.pieces[x].origin.sent;
      u in rows + {s} && SentPlaced(layout', ids', book.canon, u)
      && ids'[(SentReply, IntegerId(u.id))] == Mapped(layout'.pieces[x].owner, Some(x))
  {
    NewSentPlaced(layout, ids, book, s, a, r, layout', ids');
    OldSentsStay(layout, ids, book, rows, s, a, r, layout', ids');
    assert layout'.pieces[r] == Piece(a, SentOrigin(s, book.canon));
    assert forall x | x in layout'.pieces && x != r :: x in layout.pieces && layout'.pieces[x] == layout.pieces[x];
    hide SentWritten;
    hide SentPlaced;
  }

  lemma SentIdsAdded(
    layout: Layout, ids: Identities, book: Book, rows: set<Sent>, s: Sent, a: int, r: int, layout': Layout, ids': Identities)
    requires SentWritten(layout, ids, book, s, a, r, layout', ids') && SentsPlaced(layout, ids, book.canon, rows)
    ensures forall identity | (SentReply, identity) in ids' :: exists u :: u in rows + {s} && identity == IntegerId(u.id)
  {
    assert forall k | k in ids' :: k in ids || k.1 == IntegerId(s.id);
    hide SentWritten;
    hide SentPlaced;
    forall identity | (SentReply, identity) in ids'
      ensures exists u :: u in rows + {s} && identity == IntegerId(u.id)
    {
      if identity == IntegerId(s.id) {
        assert s in rows + {s};
      } else {
        var u :| u in rows && identity == IntegerId(u.id);
        assert u in rows + {s};
      }
    }
  }

  lemma SentsPlacedAdded(
    layout: Layout, ids: Identities, book: Book, rows: set<Sent>, s: Sent, a: int, r: int, layout': Layout, ids': Identities)
    requires SentWritten(layout, ids, book, s, a, r, layout', ids') && SentsPlaced(layout, ids, book.canon, rows)
    ensures SentsPlaced(layout', ids', book.canon, rows + {s})
  {
    NewSentPlaced(layout, ids, book, s, a, r, layout', ids');
    OldSentsStay(layout, ids, book, rows, s, a, r, layout', ids');
    SentHomesAdded(layout, ids, book, rows, s, a, r, layout', ids');
    SentPiecesAdded(layout, ids, book, rows, s, a, r, layout', ids');
    SentIdsAdded(layout, ids, book, rows, s, a, r, layout', ids');
    hide SentWritten;
    hide SentPlaced;
  }

  lemma SentAdded(
    layout: Layout, ids: Identities, book: Book, rows: set<Sent>, s: Sent, a: int, r: int, layout': Layout, ids': Identities)
    requires SentWritten(layout, ids, book, s, a, r, layout', ids')
    requires SentsKept(layout, ids, book, rows)
    ensures SentsKept(layout', ids', book, rows + {s})
  {
    hide *;
    SentsKeptIs(layout, ids, book, rows);
    SentsKeptIs(layout', ids', book, rows + {s});
    SentGrown(layout, ids, book, s, a, r, layout', ids');
    FirstPhasesStay(layout, ids, layout', ids', book);
    PreparedStays(layout, ids, book, s, a, r, layout', ids', Rows(book.facts.postfixes));
    PreparedViaStays(layout, ids, layout', ids', book, Rows(book.facts.postfixes));
    SentsPlacedAdded(layout, ids, book, rows, s, a, r, layout', ids');
  }

  ghost predicate SentNew(rows: set<Sent>, s: Sent) {
    && (forall u | u in rows :: u.id != s.id)
    && (s.key != "" ==> forall u | u in rows :: u.key != s.key)
  }

  lemma SentReady(layout: Layout, ids: Identities, book: Book, rows: set<Sent>, s: Sent)
    requires SentsKept(layout, ids, book, rows) && SentNew(rows, s)
    ensures (SentReply, IntegerId(s.id)) !in ids
    ensures book.canon.owners.Keys == book.canon.rows.Keys
    ensures s.key in book.canon.owners ==> s.key != ""
    ensures s.key != "" ==> forall u | u in rows :: u.key != s.key
    ensures s.key in book.canon.owners ==> CanonicalBody(layout, book.canon, s, book.canon.owners[s.key])
    ensures s.key !in book.canon.owners ==> s.key !in book.canon.bodies
  {
    if s.key in book.canon.rows {
      assert ExternalPlaced(layout, ids, book.canon, s.key);
    }
  }

  lemma CanonicalBodyStays(layout: Layout, layout': Layout, canon: Canon, s: Sent, a: int)
    requires s.key in canon.owners ==> a == canon.owners[s.key] && CanonicalBody(layout, canon, s, a)
    requires s.key !in canon.owners ==> s.key !in canon.bodies
    requires layout'.pieces == layout.pieces
    ensures CanonicalBody(layout', canon, s, a)
  {
  }

  method TransferSentReply(
    c: Ledger.Connection, s: Sent, owners: map<string, int>, bodies: map<string, int>,
    ghost layout: Layout, ghost book: Book, ghost rows: set<Sent>)
    returns (ok: bool, a: int, ghost layout': Layout)
    requires Kept(c.db, layout) && SentsKept(layout, c.db.identities, book, rows) && SentNew(rows, s)
    requires owners == book.canon.owners && bodies == book.canon.bodies
    modifies c
    ensures ok <==> SentAccepted(book, rows, s)
    ensures ok ==> Kept(c.db, layout') && SentsKept(layout', c.db.identities, book, rows + {s})
    ensures ok ==> (SentReply, IntegerId(s.id)) in c.db.identities && c.db.identities[(SentReply, IntegerId(s.id))].action == a
    ensures forall k | k in old(c.db.identities) :: k in c.db.identities && c.db.identities[k] == old(c.db.identities)[k]
    ensures c.db.observers == old(c.db.observers)
  {
    layout' := layout;
    hide *;
    ghost var ids := c.db.identities;
    SentReady(layout, ids, book, rows, s);
    ghost var placed, received, linked;
    ok, a, placed := PlaceSent(c, s, owners, layout, book, rows);
    if !ok {
      return;
    }
    CanonicalBodyStays(layout, placed, book.canon, s, a);
    var r;
    r, received := AppendSentReceipt(c, s, a, bodies, placed, book.canon);
    linked := LinkDelivery(c, a, r, received);
    layout' := linked;
    KeptMapped(c.db, layout', ids[(SentReply, IntegerId(s.id)) := Mapped(a, Some(r))]);
    var mapped := MapIdentity(c, SentReply, IntegerId(s.id), a, Some(r));
    SentWrittenIs(layout, ids, book, s, a, r, placed, layout', c.db.identities);
    SentAdded(layout, ids, book, rows, s, a, r, layout', c.db.identities);
  }

  lemma SentWrittenIs(
    layout: Layout, ids: Identities, book: Book, s: Sent, a: int, r: int, placed: Layout, layout': Layout, ids': Identities)
    requires placed == layout.(homes := layout.homes[a := SentHome(layout, book.canon, s).(sent := Some(s))])
    requires r !in placed.pieces && (SentReply, IntegerId(s.id)) !in ids
    requires layout' == Layout(
      placed.homes[a := placed.homes[a].(delivery := Some(r))],
      placed.pieces[r := Piece(a, SentOrigin(s, book.canon))])
    requires ids' == ids[(SentReply, IntegerId(s.id)) := Mapped(a, Some(r))]
    requires book.canon.rows.Keys == book.canon.owners.Keys
    requires if s.key in book.canon.owners
             then a == book.canon.owners[s.key] && a in layout.homes && layout.homes[a].sent.None?
                  && layout.homes[a].core.key == Some(s.key)
             else a !in layout.homes
    ensures SentWritten(layout, ids, book, s, a, r, layout', ids')
  {
  }

  // ---------- the loop over sent replies ----------

  /** The dictionary observers are resolved through: each placed reply and the Action it is on. */
  ghost predicate SentMapIs(sentMap: map<int, int>, ids: Identities, rows: set<Sent>) {
    && (forall s | s in rows ::
          s.id in sentMap && (SentReply, IntegerId(s.id)) in ids
          && ids[(SentReply, IntegerId(s.id))].action == sentMap[s.id])
    && (forall id | id in sentMap :: exists s :: s in rows && s.id == id)
  }

  lemma SentMapAdded(sentMap: map<int, int>, ids: Identities, rows: set<Sent>, s: Sent, a: int, ids': Identities)
    requires SentMapIs(sentMap, ids, rows)
    requires forall k | k in ids :: k in ids' && ids'[k] == ids[k]
    requires (SentReply, IntegerId(s.id)) in ids' && ids'[(SentReply, IntegerId(s.id))].action == a
    requires forall u | u in rows :: u.id != s.id
    ensures SentMapIs(sentMap[s.id := a], ids', rows + {s})
  {
    var sentMap' := sentMap[s.id := a];
    forall id | id in sentMap' ensures exists u :: u in rows + {s} && u.id == id {
      if id in sentMap {
        var u :| u in rows && u.id == id;
        assert u in rows + {s};
      } else {
        assert s in rows + {s};
      }
    }
  }

  lemma NextSent(rows: seq<Sent>, i: nat)
    requires i < |rows| && SentsUnique(rows)
    ensures SentNew(Rows(rows[..i]), rows[i]) && forall u | u in Rows(rows[..i]) :: u.id != rows[i].id
    ensures Rows(rows[..i + 1]) == Rows(rows[..i]) + {rows[i]} <= Rows(rows)
  {
    assert rows[..i + 1] == rows[..i] + [rows[i]];
    assert rows[i] in rows;
    forall u | u in rows[..i] ensures u.id != rows[i].id && (rows[i].key != "" ==> u.key != rows[i].key) {
      var j :| 0 <= j < i && rows[j] == u;
    }
  }

  lemma NoSentsYet(layout: Layout, ids: Identities, book: Book)
    requires PostfixesKept(layout, ids, book, Rows(book.facts.postfixes))
    ensures SentsKept(layout, ids, book, {}) && SentMapIs(map[], ids, {}) && Rows<Sent>([]) == {}
    ensures SentsAccepted(book, [])
  {
    PostfixesKeptIs(layout, ids, book, Rows(book.facts.postfixes));
    SentsKeptIs(layout, ids, book, {});
    hide FirstPhases;
    hide PostfixesPlaced;
    hide PostfixesVia;
  }

  ghost predicate SentsConsistent(book: Book, rows: seq<Sent>) {
    forall s | s in rows :: SentConsistent(book, s)
  }

  /** Reply by reply: its text agrees and its delivery identity is open after the replies before it. */
  ghost predicate SentsAccepted(book: Book, rows: seq<Sent>) {
    forall i | 0 <= i < |rows| :: SentAccepted(book, Rows(rows[..i]), rows[i])
  }

  lemma AcceptedConsistent(book: Book, rows: seq<Sent>)
    requires SentsAccepted(book, rows)
    ensures SentsConsistent(book, rows)
  {
    forall s | s in rows ensures SentConsistent(book, s) {
      var i :| 0 <= i < |rows| && rows[i] == s;
      assert SentAccepted(book, Rows(rows[..i]), rows[i]);
    }
  }

  /** With agreeing channels it is the texts alone that decide. */
  lemma AgreeingAccepted(book: Book, rows: seq<Sent>)
    requires PostfixesUnique(book.facts.postfixes) && SentsConsistent(book, rows)
    requires forall s | s in rows :: ChannelAgrees(book, s)
    ensures SentsAccepted(book, rows)
  {
    hide PairOpen;
    hide SentConsistent;
    hide ChannelAgrees;
    forall i | 0 <= i < |rows| ensures SentAccepted(book, Rows(rows[..i]), rows[i]) {
      assert rows[i] in rows && forall u | u in rows[..i] :: u in rows;
      AgreeingOpen(book, Rows(rows[..i]), rows[i]);
    }
  }

  method TransferSentRow(
    c: Ledger.Connection, s: Sent, owners: map<string, int>, bodies: map<string, int>, sentMap: map<int, int>,
    ghost layout: Layout, ghost book: Book, ghost rows: set<Sent>)
    returns (ok: bool, a: int, sentMap': map<int, int>, ghost layout': Layout)
    requires Kept(c.db, layout) && SentsKept(layout, c.db.identities, book, rows) && SentNew(rows, s)
    requires SentMapIs(sentMap, c.db.identities, rows) && forall u | u in rows :: u.id != s.id
    requires owners == book.canon.owners && bodies == book.canon.bodies
    modifies c
    ensures ok <==> SentAccepted(book, rows, s)
    ensures ok ==> Kept(c.db, layout') && SentsKept(layout', c.db.identities, book, rows + {s})
    ensures ok ==> SentMapIs(sentMap', c.db.identities, rows + {s})
    ensures c.db.observers == old(c.db.observers)
  {
    hide *;
    sentMap' := sentMap;
    ghost var ids := c.db.identities;
    ok, a, layout' := TransferSentReply(c, s, owners, bodies, layout, book, rows);
    if ok {
      SentMapAdded(sentMap, ids, rows, s, a, c.db.identities);
      sentMap' := sentMap[s.id := a];
    }
  }

  lemma NoRowsYet<T>()
    ensures Rows<T>([]) == {}
  {
  }

  lemma NoneAccepted(book: Book)
    ensures SentsAccepted(book, [])
  {
  }

  method TransferSentReplies(
    c: Ledger.Connection, rows: seq<Sent>, owners: map<string, int>, bodies: map<string, int>,
    ghost layout: Layout, ghost book: Book)
    returns (ok: bool, sentMap: map<int, int>, ghost layout': Layout)
    requires Kept(c.db, layout) && SentsUnique(rows)
    requires PostfixesKept(layout, c.db.identities, book, Rows(book.facts.postfixes))
    requires owners == book.canon.owners && bodies == book.canon.bodies
    modifies c
    ensures ok <==> SentsAccepted(book, rows)
    ensures ok ==> Kept(c.db, layout') && SentsKept(layout', c.db.identities, book, Rows(rows))
    ensures ok ==> SentMapIs(sentMap, c.db.identities, Rows(rows))
    ensures c.db.observers == old(c.db.observers)
  {
    hide *;
    sentMap, layout' := map[], layout;
    NoSentsYet(layout, c.db.identities, book);
    NoRowsYet<Sent>();
    NoneAccepted(book);
    ghost var done: set<Sent> := {};
    assert rows[..0] == [] && rows[..|rows|] == rows;
    for i := 0 to |rows|
      invariant Kept(c.db, layout')
      invariant done == Rows(rows[..i])
      invariant SentsKept(layout', c.db.identities, book, done)
      invariant SentMapIs(sentMap, c.db.identities, done)
      invariant SentsAccepted(book, rows[..i])
      invariant c.db.observers == old(c.db.observers)
    {
      var s := rows[i];
      NextSent(rows, i);
      var a;
      ok, a, sentMap, layout' := TransferSentRow(c, s, owners, bodies, sentMap, layout', book, done);
      NextAccepted(book, rows, i, ok);
      if !ok {
        return;
      }
      done := done + {s};
    }
    ok := true;
  }

  lemma NextAccepted(book: Book, rows: seq<Sent>, i: nat, ok: bool)
    requires i < |rows| && SentsAccepted(book, rows[..i])
    requires ok <==> SentAccepted(book, Rows(rows[..i]), rows[i])
    ensures ok ==> SentsAccepted(book, rows[..i + 1])
    ensures !ok ==> !SentsAccepted(book, rows)
  {
    hide SentAccepted;
    forall k | 0 <= k < i ensures SentAccepted(book, Rows(rows[..k]), rows[k]) {
      assert rows[..i][..k] == rows[..k] && SentAccepted(book, Rows(rows[..i][..k]), rows[..i][k]);
    }
    assert forall k | 0 <= k <= i :: rows[..i + 1][..k] == rows[..k];
  }

  // ---------- observers ----------

  ghost predicate ObserverPlaced(observers: map<(int, int), Observation>, ids: Identities, o: Observer) {
    && (SentReply, IntegerId(o.sent)) in ids
    && (ids[(SentReply, IntegerId(o.sent))].action, o.run) in observers
    && observers[(ids[(SentReply, IntegerId(o.sent))].action, o.run)] == Observation(o.task, o.createdAt)
    && (SentObserver, IntegerPair(o.sent, o.run)) in ids
    && ids[(SentObserver, IntegerPair(o.sent, o.run))] == Mapped(ids[(SentReply, IntegerId(o.sent))].action, None)
  }

  ghost predicate ObserversPlaced(observers: map<(int, int), Observation>, ids: Identities, rows: set<Observer>) {
    && (forall o | o in rows :: ObserverPlaced(observers, ids, o))
    && (forall pair | pair in observers ::
          exists o :: o in rows && (SentReply, IntegerId(o.sent)) in ids
                        && pair == (ids[(SentReply, IntegerId(o.sent))].action, o.run))
    && (forall identity | (SentObserver, identity) in ids :: exists o :: o in rows && identity == IntegerPair(o.sent, o.run))
  }

  /** Two replies are never on one Action, so an observer row is never ignored as a duplicate. */
  lemma RepliesApart(layout: Layout, ids: Identities, canon: Canon, rows: set<Sent>, s: Sent, u: Sent)
    requires SentsPlaced(layout, ids, canon, rows) && s in rows && u in rows
    requires ids[(SentReply, IntegerId(s.id))].action == ids[(SentReply, IntegerId(u.id))].action
    ensures s == u
  {
    assert SentPlaced(layout, ids, canon, s) && SentPlaced(layout, ids, canon, u);
  }

  lemma ObserverNew(
    layout: Layout, ids: Identities, book: Book, sents: set<Sent>, sentMap: map<int, int>,
    observers: map<(int, int), Observation>, rows: set<Observer>, o: Observer)
    requires SentsPlaced(layout, ids, book.canon, sents) && SentMapIs(sentMap, ids, sents)
    requires ObserversPlaced(observers, ids, rows) && o.sent in sentMap
    requires forall x | x in rows :: (x.sent, x.run) != (o.sent, o.run) && x.sent in sentMap
    ensures (sentMap[o.sent], o.run) !in observers
    ensures (SentReply, IntegerId(o.sent)) in ids && ids[(SentReply, IntegerId(o.sent))].action == sentMap[o.sent]
    ensures sentMap[o.sent] in layout.homes
  {
    var s :| s in sents && s.id == o.sent;
    assert SentPlaced(layout, ids, book.canon, s);
    forall x | x in rows ensures (sentMap[x.sent], x.run) != (sentMap[o.sent], o.run) {
      var u :| u in sents && u.id == x.sent;
      if sentMap[x.sent] == sentMap[o.sent] { RepliesApart(layout, ids, book.canon, sents, s, u); }
    }
  }

  lemma ObserverAdded(
    observers: map<(int, int), Observation>, ids: Identities, rows: set<Observer>, o: Observer, a: int, ids': Identities)
    requires ObserversPlaced(observers, ids, rows)
    requires (SentReply, IntegerId(o.sent)) in ids && ids[(SentReply, IntegerId(o.sent))].action == a
    requires (a, o.run) !in observers && (SentObserver, IntegerPair(o.sent, o.run)) !in ids
    requires ids' == ids[(SentObserver, IntegerPair(o.sent, o.run)) := Mapped(a, None)]
    ensures ObserversPlaced(observers[(a, o.run) := Observation(o.task, o.createdAt)], ids', rows + {o})
  {
    hide *;
    OldObserversStay(observers, ids, rows, o, a, ids');
    NewObserverRows(observers, ids, rows, o, a, observers[(a, o.run) := Observation(o.task, o.createdAt)], ids');
    ObserverMapRows(observers, ids, rows, o, a, ids');
    ObserversPlacedIs(observers[(a, o.run) := Observation(o.task, o.createdAt)], ids', rows + {o});
  }

  lemma ObserversPlacedIs(observers: map<(int, int), Observation>, ids: Identities, rows: set<Observer>)
    ensures ObserversPlaced(observers, ids, rows) <==>
      && (forall o | o in rows :: ObserverPlaced(observers, ids, o))
      && (forall pair | pair in observers ::
            exists o :: o in rows && (SentReply, IntegerId(o.sent)) in ids
                          && pair == (ids[(SentReply, IntegerId(o.sent))].action, o.run))
      && (forall identity | (SentObserver, identity) in ids :: exists o :: o in rows && identity == IntegerPair(o.sent, o.run))
  {
    hide ObserverPlaced;
  }

  lemma OldObserversStay(
    observers: map<(int, int), Observation>, ids: Identities, rows: set<Observer>, o: Observer, a: int, ids': Identities)
    requires ObserversPlaced(observers, ids, rows)
    requires (SentReply, IntegerId(o.sent)) in ids && ids[(SentReply, IntegerId(o.sent))].action == a
    requires (a, o.run) !in observers && (SentObserver, IntegerPair(o.sent, o.run)) !in ids
    requires ids' == ids[(SentObserver, IntegerPair(o.sent, o.run)) := Mapped(a, None)]
    ensures forall x | x in rows + {o} :: ObserverPlaced(observers[(a, o.run) := Observation(o.task, o.createdAt)], ids', x)
  {
    forall x | x in rows
      ensures ObserverPlaced(observers[(a, o.run) := Observation(o.task, o.createdAt)], ids', x)
    {
      assert ObserverPlaced(observers, ids, x);
    }
  }

  lemma NewObserverRows(
    observers: map<(int, int), Observation>, ids: Identities, rows: set<Observer>, o: Observer, a: int,
    observers': map<(int, int), Observation>, ids': Identities)
    requires ObserversPlaced(observers, ids, rows)
    requires (SentReply, IntegerId(o.sent)) in ids && ids[(SentReply, IntegerId(o.sent))].action == a
    requires ids' == ids[(SentObserver, IntegerPair(o.sent, o.run)) := Mapped(a, None)]
    requires observers' == observers[(a, o.run) := Observation(o.task, o.createdAt)]
    ensures forall pair | pair in observers' ::
      exists x :: x in rows + {o} && (SentReply, IntegerId(x.sent)) in ids'
                    && pair == (ids'[(SentReply, IntegerId(x.sent))].action, x.run)
  {
    forall pair | pair in observers'
      ensures exists x :: x in rows + {o} && (SentReply, IntegerId(x.sent)) in ids'
                            && pair == (ids'[(SentReply, IntegerId(x.sent))].action, x.run)
    {
      if pair in observers {
        var x :| x in rows && (SentReply, IntegerId(x.sent)) in ids
                 && pair == (ids[(SentReply, IntegerId(x.sent))].action, x.run);
        assert x in rows + {o};
      } else {
        assert o in rows + {o};
      }
    }
    hide ObserverPlaced;
  }

  lemma ObserverMapRows(
    observers: map<(int, int), Observation>, ids: Identities, rows: set<Observer>, o: Observer, a: int, ids': Identities)
    requires ObserversPlaced(observers, ids, rows)
    requires ids' == ids[(SentObserver, IntegerPair(o.sent, o.run)) := Mapped(a, None)]
    ensures forall identity | (SentObserver, identity) in ids' ::
      exists x :: x in rows + {o} && identity == IntegerPair(x.sent, x.run)
  {
    forall identity | (SentObserver, identity) in ids' ensures exists x :: x in rows + {o} && identity == IntegerPair(x.sent, x.run) {
      if identity == IntegerPair(o.sent, o.run) {
        assert o in rows + {o};
      } else {
        var x :| x in rows && identity == IntegerPair(x.sent, x.run);
        assert x in rows + {o};
      }
    }
    hide ObserverPlaced;
  }

  /** The map rows of observers, and nothing else, on top of `ids`. */
  ghost predicate ObserverRows(ids: Identities, ids': Identities, rows: set<Observer>) {
    && (forall k | k in ids :: k in ids' && ids'[k] == ids[k])
    && (forall k | k in ids' && k !in ids ::
          k.0 == SentObserver && exists o :: o in rows && k.1 == IntegerPair(o.sent, o.run))
  }

  lemma ObserverRowAdded(ids: Identities, ids': Identities, rows: set<Observer>, o: Observer, a: int)
    requires ObserverRows(ids, ids', rows)
    requires forall x | x in rows :: (x.sent, x.run) != (o.sent, o.run)
    requires forall k | k in ids :: k.0 != SentObserver
    ensures (SentObserver, IntegerPair(o.sent, o.run)) !in ids'
    ensures ObserverRows(ids, ids'[(SentObserver, IntegerPair(o.sent, o.run)) := Mapped(a, None)], rows + {o})
  {
    var ids'' := ids'[(SentObserver, IntegerPair(o.sent, o.run)) := Mapped(a, None)];
    forall k | k in ids'' && k !in ids
      ensures k.0 == SentObserver && exists x :: x in rows + {o} && k.1 == IntegerPair(x.sent, x.run)
    {
      if k in ids' {
        var x :| x in rows && k.1 == IntegerPair(x.sent, x.run);
        assert x in rows + {o};
      } else {
        assert o in rows + {o};
      }
    }
  }

  lemma AllPlacedStays(layout: Layout, ids: Identities, ids': Identities, book: Book, sents: set<Sent>, rows: set<Observer>)
    requires AllPlaced(layout, ids, book, sents) && ObserverRows(ids, ids', rows)
    ensures AllPlaced(layout, ids', book, sents)
  {
    assert Grown(layout, ids, layout, ids');
    AllPlacedIs(layout, ids, book, sents);
    AllPlacedIs(layout, ids', book, sents);
    assert forall k | k in ids' && k.0 != SentObserver :: k in ids;
    hide *;
    FirstPhasesStay(layout, ids, layout, ids', book);
    PreparedViaStays(layout, ids, layout, ids', book, Rows(book.facts.postfixes));
    PostfixRowsStay(layout, ids, ids', book.facts, Rows(book.facts.postfixes));
    SentRowsStay(layout, ids, ids', book.canon, sents);
  }

  lemma PostfixRowsStay(layout: Layout, ids: Identities, ids': Identities, facts: Facts, rows: set<Postfix>)
    requires PostfixesPlaced(layout, ids, facts, rows) && Grown(layout, ids, layout, ids')
    requires forall k | k in ids' && k.0 != SentObserver :: k in ids
    ensures PostfixesPlaced(layout, ids', facts, rows)
  {
    forall p | p in rows
      ensures PostfixPlaced(layout, ids', facts, p)
      ensures ids'[(OutboundPostfix, PairId(p.Pair()))] == ids[(OutboundPostfix, PairId(p.Pair()))]
    {
      assert PostfixPlaced(layout, ids, facts, p);
      PostfixPlacedStays(layout, ids, layout, ids', facts, p);
    }
    hide PostfixPlaced;
  }

  lemma SentRowsStay(layout: Layout, ids: Identities, ids': Identities, canon: Canon, rows: set<Sent>)
    requires SentsPlaced(layout, ids, canon, rows) && Grown(layout, ids, layout, ids')
    requires forall k | k in ids' && k.0 != SentObserver :: k in ids
    ensures SentsPlaced(layout, ids', canon, rows)
  {
    forall s | s in rows
      ensures SentPlaced(layout, ids', canon, s)
      ensures ids'[(SentReply, IntegerId(s.id))] == ids[(SentReply, IntegerId(s.id))]
    {
      assert SentPlaced(layout, ids, canon, s);
      SentPlacedStays(layout, ids, layout, ids', canon, s);
    }
    hide SentPlaced;
  }

  lemma NextObserver(rows: seq<Observer>, i: nat)
    requires i < |rows| && ObserversUnique(rows)
    ensures forall x | x in Rows(rows[..i]) :: (x.sent, x.run) != (rows[i].sent, rows[i].run)
    ensures Rows(rows[..i + 1]) == Rows(rows[..i]) + {rows[i]} && rows[i] in rows
  {
    assert rows[..i + 1] == rows[..i] + [rows[i]];
    forall x | x in rows[..i] ensures (x.sent, x.run) != (rows[i].sent, rows[i].run) {
      var j :| 0 <= j < i && rows[j] == x;
    }
  }

  ghost predicate ObserversConsistent(rows: seq<Observer>, sents: seq<Sent>) {
    forall o | o in rows :: exists s :: s in sents && s.id == o.sent
  }

  /** The state of the observer loop: the reply rows of the start, plus what it has added itself. */
  ghost predicate ObserversKept(
    db: Db, ids: Identities, layout: Layout, sentMap: map<int, int>, sents: set<Sent>, rows: set<Observer>)
  {
    && ObserverRows(ids, db.identities, rows)
    && ObserversPlaced(db.observers, db.identities, rows)
    && SentMapIs(sentMap, db.identities, sents)
    && (forall o | o in rows :: o.sent in sentMap)
  }

  lemma SentMapStays(sentMap: map<int, int>, ids: Identities, ids': Identities, rows: set<Sent>)
    requires SentMapIs(sentMap, ids, rows)
    requires forall k | k in ids :: k in ids' && ids'[k] == ids[k]
    ensures SentMapIs(sentMap, ids', rows)
  {
  }

  lemma ObserverReady(
    db: Db, ids: Identities, layout: Layout, book: Book, sentMap: map<int, int>, sents: set<Sent>,
    rows: set<Observer>, o: Observer)
    requires ObserversKept(db, ids, layout, sentMap, sents, rows)
    requires SentsPlaced(layout, db.identities, book.canon, sents)
    requires forall x | x in rows :: (x.sent, x.run) != (o.sent, o.run)
    requires o.sent in sentMap
    ensures sentMap[o.sent] in layout.homes && (sentMap[o.sent], o.run) !in db.observers
    ensures (SentReply, IntegerId(o.sent)) in db.identities
    ensures db.identities[(SentReply, IntegerId(o.sent))].action == sentMap[o.sent]
  {
    hide *;
    ObserversKeptIs(db, ids, layout, sentMap, sents, rows);
    ObserverNew(layout, db.identities, book, sents, sentMap, db.observers, rows, o);
  }

  lemma ObserverStep(
    db: Db, db': Db, ids: Identities, layout: Layout, sentMap: map<int, int>, sents: set<Sent>,
    rows: set<Observer>, o: Observer, a: int)
    requires ObserversKept(db, ids, layout, sentMap, sents, rows)
    requires forall x | x in rows :: (x.sent, x.run) != (o.sent, o.run)
    requires forall k | k in ids :: k.0 != SentObserver
    requires o.sent in sentMap && a == sentMap[o.sent] && (a, o.run) !in db.observers
    requires (SentReply, IntegerId(o.sent)) in db.identities && db.identities[(SentReply, IntegerId(o.sent))].action == a
    requires db'.identities == db.identities[(SentObserver, IntegerPair(o.sent, o.run)) := Mapped(a, None)]
    requires db'.observers == db.observers[(a, o.run) := Observation(o.task, o.createdAt)]
    ensures ObserversKept(db', ids, layout, sentMap, sents, rows + {o})
  {
    hide *;
    ObserversKeptIs(db, ids, layout, sentMap, sents, rows);
    ObserversKeptIs(db', ids, layout, sentMap, sents, rows + {o});
    ObserverRowAdded(ids, db.identities, rows, o, a);
    ObserverAdded(db.observers, db.identities, rows, o, a, db'.identities);
    SentMapStays(sentMap, db.identities, db'.identities, sents);
  }

  lemma ObserversKeptIs(
    db: Db, ids: Identities, layout: Layout, sentMap: map<int, int>, sents: set<Sent>, rows: set<Observer>)
    ensures ObserversKept(db, ids, layout, sentMap, sents, rows) <==>
      ObserverRows(ids, db.identities, rows)
      && ObserversPlaced(db.observers, db.identities, rows)
      && SentMapIs(sentMap, db.identities, sents)
      && (forall o | o in rows :: o.sent in sentMap)
  {
  }

  method TransferObserver(
    c: Ledger.Connection, o: Observer, a: int, ghost layout: Layout)
    requires Kept(c.db, layout) && a in layout.homes && (a, o.run) !in c.db.observers
    requires (SentObserver, IntegerPair(o.sent, o.run)) !in c.db.identities
    modifies c
    ensures Kept(c.db, layout)
    ensures c.db == old(c.db).(
      identities := old(c.db).identities[(SentObserver, IntegerPair(o.sent, o.run)) := Mapped(a, None)],
      observers := old(c.db).observers[(a, o.run) := Observation(o.task, o.createdAt)])
  {
    var reply := c.AddActionObserver(a, o.run, Observation(o.task, o.createdAt));
    assert Rendered(c.db, layout);
    KeptMapped(c.db, layout, c.db.identities[(SentObserver, IntegerPair(o.sent, o.run)) := Mapped(a, None)]);
    hide Kept;
    var mapped := MapIdentity(c, SentObserver, IntegerPair(o.sent, o.run), a, None);
  }

  method TransferObservers(
    c: Ledger.Connection, rows: seq<Observer>, sentMap: map<int, int>, ghost layout: Layout, ghost book: Book,
    ghost sents: seq<Sent>)
    returns (ok: bool)
    requires Kept(c.db, layout) && ObserversUnique(rows) && c.db.observers == map[]
    requires SentsKept(layout, c.db.identities, book, Rows(sents)) && SentMapIs(sentMap, c.db.identities, Rows(sents))
    modifies c
    ensures ok <==> ObserversConsistent(rows, sents)
    ensures ok ==> Kept(c.db, layout) && AllPlaced(layout, c.db.identities, book, Rows(sents))
    ensures ok ==> ObserversPlaced(c.db.observers, c.db.identities, Rows(rows))
  {
    ghost var ids := c.db.identities;
    assert rows[..0] == [];
    NoObserversYet(c.db, layout, book, sentMap, Rows(sents));
    hide *;
    for i := 0 to |rows|
      invariant Kept(c.db, layout) && AllPlaced(layout, c.db.identities, book, Rows(sents))
      invariant ObserversKept(c.db, ids, layout, sentMap, Rows(sents), Rows(rows[..i]))
    {
      var o := rows[i];
      NextObserver(rows, i);
      SentMapKeys(c.db, ids, layout, sentMap, sents, rows, i);
      if o.sent !in sentMap {
        return false;
      }
      AllPlacedIs(layout, c.db.identities, book, Rows(sents));
      ObserverReady(c.db, ids, layout, book, sentMap, Rows(sents), Rows(rows[..i]), o);
      ObserverRowsOf(c.db, ids, layout, sentMap, Rows(sents), Rows(rows[..i]));
      ObserverRowAdded(ids, c.db.identities, Rows(rows[..i]), o, sentMap[o.sent]);
      ghost var before := c.db;
      TransferObserver(c, o, sentMap[o.sent], layout);
      ObserverStep(before, c.db, ids, layout, sentMap, Rows(sents), Rows(rows[..i]), o, sentMap[o.sent]);
      ObserverRowsOf(c.db, ids, layout, sentMap, Rows(sents), Rows(rows[..i + 1]));
      AllPlacedStays(layout, ids, c.db.identities, book, Rows(sents), Rows(rows[..i + 1]));
    }
    assert rows[..|rows|] == rows;
    ObserversDone(c.db, ids, layout, sentMap, sents, rows);
    ok := true;
  }

  lemma NoObserversYet(db: Db, layout: Layout, book: Book, sentMap: map<int, int>, sents: set<Sent>)
    requires db.observers == map[] && SentsKept(layout, db.identities, book, sents) && SentMapIs(sentMap, db.identities, sents)
    ensures ObserversKept(db, db.identities, layout, sentMap, sents, {}) && Rows<Observer>([]) == {}
    ensures AllPlaced(layout, db.identities, book, sents)
    ensures forall k | k in db.identities :: k.0 != SentObserver
  {
    hide AllPlaced;
  }

  lemma ObserverRowsOf(
    db: Db, ids: Identities, layout: Layout, sentMap: map<int, int>, sents: set<Sent>, rows: set<Observer>)
    requires ObserversKept(db, ids, layout, sentMap, sents, rows)
    ensures ObserverRows(ids, db.identities, rows)
  {
  }

  lemma SentMapKeys(
    db: Db, ids: Identities, layout: Layout, sentMap: map<int, int>, sents: seq<Sent>, rows: seq<Observer>, i: nat)
    requires i < |rows| && ObserversKept(db, ids, layout, sentMap, Rows(sents), Rows(rows[..i]))
    ensures rows[i].sent !in sentMap ==> !ObserversConsistent(rows, sents)
  {
    assert rows[i] in rows;
    hide ObserverRows;
    hide ObserversPlaced;
    if ObserversConsistent(rows, sents) {
      var s :| s in sents && s.id == rows[i].sent;
      assert s in Rows(sents);
    }
  }

  lemma ObserversDone(
    db: Db, ids: Identities, layout: Layout, sentMap: map<int, int>, sents: seq<Sent>, rows: seq<Observer>)
    requires ObserversKept(db, ids, layout, sentMap, Rows(sents), Rows(rows))
    ensures ObserversPlaced(db.observers, db.identities, Rows(rows)) && ObserversConsistent(rows, sents)
  {
    hide ObserverRows;
    hide ObserversPlaced;
    forall o | o in rows ensures exists s :: s in sents && s.id == o.sent {
      assert o in Rows(rows);
      var s :| s in Rows(sents) && s.id == o.sent;
      assert s in sents;
    }
  }
}
