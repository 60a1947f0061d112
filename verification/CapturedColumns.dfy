/** What the inverse reads, told on the columns of the tables as they are: which rows there are, and every column of each. */
module CapturedColumns {
  import opened Wrappers
  import opened ActionEntity
  import opened Ids
  import opened Capture
  import opened Recovery

  // ---------- columns ----------

  /** A text column that reads as empty when it is absent. */
  predicate ReadsEmpty(x: string, column: Text) {
    match column
    case Some(value) => x == value
    case None => x == ""
  }

  predicate Filled(column: Text) { column.Some? && column.value != "" }

  /** The body column of the receipt referred to, when there is one. */
  predicate ReadsBody(x: Text, db: Db, receipt: Option<int>) {
    if receipt.Some? && receipt.value in db.receipts then x == db.receipts[receipt.value].body else x.None?
  }

  /** `id` is a source identity of the family that the map places on this receipt of this Action, if there is one. */
  ghost predicate ReadsId(id: Option<Identity>, db: Db, family: Family, a: int, r: int) {
    match id
    case Some(i) => (family, i) in db.identities && db.identities[(family, i)] == Mapped(a, Some(r))
    case None => forall i | (family, i) in db.identities :: db.identities[(family, i)] != Mapped(a, Some(r))
  }

  // ---------- canonical results ----------

  /** The columns that tell the metadata receipt of a canonical result from the other receipts of its Action. */
  predicate Metadata(db: Db, a: int, r: int)
    requires a in db.actions
  {
    r in db.receipts
    && var (action, receipt) := (db.actions[a], db.receipts[r]);
       && receipt.owner == a && receipt.provider.Some? && receipt.execution.None? && receipt.attemptNumber.None?
       && action.deliveryReceipt != Some(r) && action.preparedReceipt != Some(r) && receipt.status.None?
       && receipt.target.Some? && receipt.agentRun.Some? && receipt.createdAt.Some?
  }

  /** The receipt the map names for a canonical result with the key of the Action. */
  function MappedReceipt(db: Db, a: int): Option<int>
    requires a in db.actions
  {
    var key := db.actions[a].externalKey;
    if key.Some? && (ExternalResult, TextId(key.value)) in db.identities
    then db.identities[(ExternalResult, TextId(key.value))].receipt else None
  }

  ghost predicate HasResult(db: Db, a: int)
    requires a in db.actions
  {
    Filled(db.actions[a].externalKey) && (MappedReceipt(db, a).Some? || exists r :: Metadata(db, a, r))
  }

  /** The result is read from the mapped receipt, and without one from the metadata with the largest ID. */
  ghost predicate ReadFrom(db: Db, a: int, b: int)
    requires a in db.actions
  {
    && HasResult(db, a)
    && if MappedReceipt(db, a).Some? then MappedReceipt(db, a) == Some(b)
       else Metadata(db, a, b) && forall r | Metadata(db, a, r) :: r <= b
  }

  ghost predicate ShowsResult(x: CapturedExternal, db: Db, a: int, b: int) {
    && a in db.actions && b in db.receipts && ReadFrom(db, a, b)
    && var (action, binding) := (db.actions[a], db.receipts[b]);
       && action.externalKey == Some(x.key) && x.business == action.businessKey && x.identity == action.identity
       && x.operation == binding.operation && x.target == binding.target && x.run == binding.agentRun
       && x.createdAt == binding.createdAt && x.body.Some? && ReadsBody(x.body, db, binding.provider)
       && binding.provider.Some? && binding.provider.value in db.receipts
       && x.digest == db.receipts[binding.provider.value].digest
  }

  ghost predicate ResultsTold(xs: seq<CapturedExternal>, db: Db) {
    && (forall x | x in xs :: exists a, b :: ShowsResult(x, db, a, b))
    && (forall a | a in db.actions && HasResult(db, a) :: exists x, b :: x in xs && ShowsResult(x, db, a, b))
  }

  /** `body` is that of the canonical result of the Action, if it has one. */
  ghost predicate CanonicalBody(body: Text, db: Db, a: int)
    requires a in db.actions
  {
    if HasResult(db, a)
    then exists b :: b in db.receipts && ReadFrom(db, a, b) && ReadsBody(body, db, db.receipts[b].provider)
    else body.None?
  }

  // ---------- observations and replies ----------

  /** A body referred to is told for the row, except where it is the canonical one. */
  ghost predicate ReadsOwn(x: Text, own: Text, db: Db, a: int, provider: Option<int>)
    requires a in db.actions
  {
    if provider.None? then x == own
    else exists body, canonical ::
      && ReadsBody(body, db, provider) && CanonicalBody(canonical, db, a)
      && x == if body == canonical then None else body
  }

  ghost predicate ShowsAttempt(x: CapturedAttempt, db: Db, r: int) {
    r in db.receipts && db.receipts[r].owner in db.actions
    && var receipt := db.receipts[r];
       && ReadsId(x.id, db, CandidateAttempt, receipt.owner, r)
       && receipt.execution == Some(x.execution) && receipt.actionIndex == Some(x.index)
       && ReadsEmpty(x.key, db.actions[receipt.owner].externalKey) && x.status == receipt.status
       && x.createdAt == receipt.createdAt && x.updatedAt == receipt.updatedAt
       && if receipt.outcome.Some? then x.outcome == receipt.outcome
          else ReadsOwn(x.outcome, None, db, receipt.owner, receipt.provider)
  }

  predicate HasSlot(db: Db, r: int) { r in db.receipts && db.receipts[r].execution.Some? && db.receipts[r].actionIndex.Some? }

  ghost predicate AttemptsTold(xs: seq<CapturedAttempt>, db: Db) {
    && (forall x | x in xs :: exists r :: ShowsAttempt(x, db, r))
    && (forall r | HasSlot(db, r) :: exists x :: x in xs && ShowsAttempt(x, db, r))
  }

  ghost predicate ShowsSent(x: CapturedSent, db: Db, a: int) {
    a in db.actions && db.actions[a].deliveryReceipt.Some? && db.actions[a].deliveryReceipt.value in db.receipts
    && var (action, receipt) := (db.actions[a], db.receipts[db.actions[a].deliveryReceipt.value]);
       && ReadsId(x.id, db, SentReply, a, action.deliveryReceipt.value) && x.action == a
       && x.conversation == action.conversation && x.trigger == action.trigger && x.text == action.preparedBody
       && x.sentAt == receipt.observedAt && ReadsOwn(x.result, receipt.body, db, a, receipt.provider)
       && ReadsEmpty(x.recallKey, action.recallKey) && ReadsEmpty(x.recallStatus, action.recallStatus)
       && ReadsEmpty(x.recallError, action.recallError) && x.recalledAt == action.recalledAt
       && ReadsEmpty(x.token, action.feedbackToken) && x.run == receipt.agentRun
       && x.channel == (if Filled(action.deliveryChannel) then action.deliveryChannel.value else "dingtalk")
       && ReadsEmpty(x.key, action.externalKey)
  }

  ghost predicate SentsTold(xs: seq<CapturedSent>, db: Db) {
    && (forall x | x in xs :: exists a :: ShowsSent(x, db, a))
    && (forall a | a in db.actions && db.actions[a].deliveryReceipt.Some? :: exists x :: x in xs && ShowsSent(x, db, a))
  }

  // ---------- prepared messages ----------

  predicate HasAddress(db: Db, a: int) {
    a in db.actions && db.actions[a].deliveryChannel.Some? && db.actions[a].deliveryKey.Some?
  }

  predicate HasBody(db: Db, a: int)
    requires a in db.actions
  {
    var receipt := db.actions[a].preparedReceipt;
    receipt.Some? && receipt.value in db.receipts && db.receipts[receipt.value].body.Some?
  }

  predicate At(db: Db, a: int, channel: string, key: string) {
    HasAddress(db, a) && db.actions[a].deliveryChannel == Some(channel) && db.actions[a].deliveryKey == Some(key)
  }

  /** The clock of the provider body: when it was observed, and without that when the receipt was made. */
  predicate ReadsClock(x: Text, db: Db, a: int)
    requires a in db.actions && HasBody(db, a)
  {
    var receipt := db.receipts[db.actions[a].preparedReceipt.value];
    x == if Filled(receipt.observedAt) then receipt.observedAt else receipt.createdAt
  }

  predicate DispatchedBy(db: Db, a: int, r: int) {
    r in db.receipts && db.receipts[r].owner == a && db.receipts[r].dispatchedAt.Some?
  }

  ghost predicate Dispatched(db: Db, a: int) { exists r :: DispatchedBy(db, a, r) }

  /** The dispatch is that of the receipt with the smallest ID. */
  ghost predicate ReadsDispatch(x: string, db: Db, a: int) {
    exists r :: DispatchedBy(db, a, r) && db.receipts[r].dispatchedAt == Some(x) && forall q | DispatchedBy(db, a, q) :: r <= q
  }

  ghost predicate ShowsMessage(x: CapturedPostfix, db: Db, a: int) {
    At(db, a, x.channel, x.key)
    && var action := db.actions[a];
       && action.preparedBody == Some(x.body) && ReadsEmpty(x.token, action.feedbackToken)
       && x.version == action.postfixVersion && x.createdAt == action.preparedAt
       && ReadsBody(x.receiptBody, db, action.preparedReceipt)
       && (if HasBody(db, a) then ReadsClock(x.receiptAt, db, a) else x.receiptAt.None?)
       && (if x.dispatchedAt.Some? then ReadsDispatch(x.dispatchedAt.value, db, a) else !Dispatched(db, a))
  }

  predicate ShowsReceipt(x: CapturedReceipt, db: Db, a: int) {
    At(db, a, x.channel, x.key) && HasBody(db, a)
    && ReadsBody(Some(x.body), db, db.actions[a].preparedReceipt) && ReadsClock(x.createdAt, db, a)
  }

  ghost predicate ShowsDispatch(x: CapturedDispatch, db: Db, a: int) {
    At(db, a, x.channel, x.key) && ReadsDispatch(x.createdAt, db, a)
  }

  ghost predicate MessagesTold(xs: seq<CapturedPostfix>, db: Db) {
    && (forall x | x in xs :: exists a :: ShowsMessage(x, db, a))
    && (forall a | HasAddress(db, a) && db.actions[a].preparedBody.Some? :: exists x :: x in xs && ShowsMessage(x, db, a))
  }

  ghost predicate ReceiptsTold(xs: seq<CapturedReceipt>, db: Db) {
    && (forall x | x in xs :: exists a :: ShowsReceipt(x, db, a))
    && (forall a | HasAddress(db, a) && HasBody(db, a) :: exists x :: x in xs && ShowsReceipt(x, db, a))
  }

  ghost predicate DispatchesTold(xs: seq<CapturedDispatch>, db: Db) {
    && (forall x | x in xs :: exists a :: ShowsDispatch(x, db, a))
    && (forall a | HasAddress(db, a) && Dispatched(db, a) :: exists x :: x in xs && ShowsDispatch(x, db, a))
  }

  // ---------- observers ----------

  /** The composite identity is that of a reply mapped to the Action, when that identity counts as true. */
  ghost predicate ShowsObserver(x: CapturedObserver, db: Db, pair: (int, int)) {
    && pair in db.observers && (x.action, x.run) == pair
    && x.task == db.observers[pair].task && x.createdAt == db.observers[pair].createdAt
    && match x.legacy
       case Some((i, run)) =>
         run == pair.1 && (SentReply, i) in db.identities && db.identities[(SentReply, i)].action == pair.0
         && i != IntegerId(0) && i != TextId("")
       case None =>
         (forall i | (SentReply, i) in db.identities :: db.identities[(SentReply, i)].action != pair.0)
         || exists i :: (i == IntegerId(0) || i == TextId("")) && (SentReply, i) in db.identities
                        && db.identities[(SentReply, i)].action == pair.0
  }

  ghost predicate ObserversTold(xs: seq<CapturedObserver>, db: Db) {
    && (forall x | x in xs :: ShowsObserver(x, db, (x.action, x.run)))
    && (forall pair | pair in db.observers :: exists x :: x in xs && ShowsObserver(x, db, pair))
  }

  /** Every row of every family, column by column, and no other row. */
  ghost predicate Told(captured: Captured, db: Db) {
    && ResultsTold(captured.externals, db) && AttemptsTold(captured.attempts, db) && SentsTold(captured.sents, db)
    && MessagesTold(captured.postfixes, db) && ReceiptsTold(captured.receipts, db)
    && DispatchesTold(captured.dispatches, db) && ObserversTold(captured.observers, db)
  }

  // ---------- what one Action contributes ----------

  /** `rs` are the receipts of the Action, in the order of their IDs. */
  ghost predicate Own(rs: seq<int>, db: Db, a: int) {
    && a in db.actions && (forall r :: r in rs <==> r in db.receipts && db.receipts[r].owner == a) && Ascending(rs)
  }

  lemma {:induction false} OwnAscending(db: Db, a: int, order: seq<int>)
    requires Ascending(order) && forall r | r in order :: r in db.receipts
    ensures Ascending(ReceiptsOf(db, a, order))
    decreases |order|
  {
    if order != [] {
      var front, last := order[..|order| - 1], order[|order| - 1];
      assert order == front + [last];
      FrontBelow(front, last);
      OwnAscending(db, a, front);
      assert forall r | r in ReceiptsOf(db, a, front) :: r in front;
      assert ReceiptsOf(db, a, order) == ReceiptsOf(db, a, front) + if db.receipts[last].owner == a then [last] else [];
      AscendingWith(ReceiptsOf(db, a, front), last);
      hide Ascending;
      hide ReceiptsOf;
    }
  }

  lemma FrontBelow(front: seq<int>, last: int)
    requires Ascending(front + [last])
    ensures Ascending(front) && forall r | r in front :: r < last
  {
    var all := front + [last];
    forall i | 0 <= i < |front| ensures front[i] < last { assert all[i] < all[|front|]; }
    forall i, j | 0 <= i < j < |front| ensures front[i] < front[j] { assert all[i] < all[j]; }
  }

  lemma AscendingWith(front: seq<int>, last: int)
    requires Ascending(front) && forall r | r in front :: r < last
    ensures Ascending(front + [last]) && Ascending(front + [])
  {
    assert forall i | 0 <= i < |front| :: front[i] in front;
    assert front + [] == front;
  }

  lemma OwnIs(db: Db, slots: Slots, orders: Orders, parts: seq<Parts>, i: nat)
    requires OrdersOf(orders, db) && PartsOf(db, slots, orders.actions, orders.receipts, parts) && i < |parts|
    ensures i < |orders.actions| && (forall r | r in orders.receipts :: r in db.receipts)
    ensures Own(ReceiptsOf(db, orders.actions[i], orders.receipts), db, orders.actions[i])
    ensures ActionParts(db, slots, orders.actions[i], ReceiptsOf(db, orders.actions[i], orders.receipts)) == Success(parts[i])
  {
    PartIsOne(db, slots, orders, parts, i);
    OwnAscending(db, orders.actions[i], orders.receipts);
    hide ActionParts;
    hide PartsOf;
  }

  lemma {:induction false} GreatestIs(db: Db, a: int, rs: seq<int>)
    requires a in db.actions && forall r | r in rs :: r in db.receipts && db.receipts[r].owner == a
    ensures
      var found := GreatestBinding(db, a, rs);
      && (found.Some? ==> found.value in rs && Metadata(db, a, found.value))
      && (forall r | r in rs && Metadata(db, a, r) :: found.Some? && r <= found.value)
  {
    if rs != [] {
      var front, last := rs[..|rs| - 1], rs[|rs| - 1];
      assert rs == front + [last] && last in rs;
      GreatestIs(db, a, front);
      var before := GreatestBinding(db, a, front);
      assert LooksLikeBinding(db, a, last) <==> Metadata(db, a, last);
      forall r | r in rs && Metadata(db, a, r)
        ensures GreatestBinding(db, a, rs).Some? && r <= GreatestBinding(db, a, rs).value
      {
        if r in front { assert before.Some? && r <= before.value; } else { assert r == last; }
      }
    }
  }

  lemma BindingRead(db: Db, a: int, rs: seq<int>)
    requires Own(rs, db, a) && Filled(db.actions[a].externalKey) && ExternalPart(db, a, rs).Success?
    ensures
      var b := BindingOf(db, a, rs, db.actions[a].externalKey.value);
      (b.Some? <==> HasResult(db, a)) && (b.Some? ==> ReadFrom(db, a, b.value))
  {
    GreatestIs(db, a, rs);
    hide GreatestBinding;
    hide BodyOf;
    hide Metadata;
  }

  /** The canonical result, and the body the other rows are compared with. */
  ghost predicate ResultPartTold(db: Db, a: int, external: Option<CapturedExternal>)
    requires a in db.actions
  {
    && (external.Some? <==> HasResult(db, a))
    && (external.Some? ==> exists b :: ShowsResult(external.value, db, a, b))
    && CanonicalBody(CanonicalText(external), db, a)
  }

  lemma ResultPartIs(db: Db, a: int, rs: seq<int>, external: Option<CapturedExternal>)
    requires Own(rs, db, a) && ExternalPart(db, a, rs) == Success(external)
    ensures ResultPartTold(db, a, external)
  {
    if Filled(db.actions[a].externalKey) {
      BindingRead(db, a, rs);
      ResultColumns(db, a, rs, external);
    }
    hide BindingOf;
    hide ReadFrom;
  }

  lemma ResultColumns(db: Db, a: int, rs: seq<int>, external: Option<CapturedExternal>)
    requires Own(rs, db, a) && ExternalPart(db, a, rs) == Success(external) && Filled(db.actions[a].externalKey)
    ensures
      var b := BindingOf(db, a, rs, db.actions[a].externalKey.value);
      && (external.Some? <==> b.Some?)
      && (b.Some? && ReadFrom(db, a, b.value) ==>
            ShowsResult(external.value, db, a, b.value)
            && b.value in db.receipts && ReadsBody(external.value.body, db, db.receipts[b.value].provider))
  {
    hide BindingOf;
    hide ReadFrom;
  }

  lemma SlotRead(db: Db, slots: Slots, family: Family, a: int, r: int)
    requires SlotsIndex(slots, db.identities, db.identities.Keys)
    ensures ReadsId(SlotOf(slots, family, a, r), db, family, a, r)
  {
    if SlotOf(slots, family, a, r).None? {
      forall i | (family, i) in db.identities ensures db.identities[(family, i)] != Mapped(a, Some(r)) {
        var k := (family, i);
        assert k in db.identities.Keys;
      }
    }
  }

  lemma OwnRead(db: Db, a: int, own: Text, provider: Option<int>, canonical: Text)
    requires a in db.actions && CanonicalBody(canonical, db, a) && OwnOutcome(db, own, provider, canonical).Success?
    ensures ReadsOwn(OwnOutcome(db, own, provider, canonical).value, own, db, a, provider)
  {
    if provider.Some? {
      assert ReadsBody(BodyOf(db, provider), db, provider);
    }
    hide CanonicalBody;
  }

  lemma AttemptRead(db: Db, slots: Slots, a: int, r: int, canonical: Text)
    requires a in db.actions && r in db.receipts && db.receipts[r].owner == a && CanonicalBody(canonical, db, a)
    requires SlotsIndex(slots, db.identities, db.identities.Keys) && AttemptPart(db, slots, a, r, canonical).Success?
    ensures AttemptPart(db, slots, a, r, canonical).value.Some? <==> HasSlot(db, r)
    ensures HasSlot(db, r) ==> ShowsAttempt(AttemptPart(db, slots, a, r, canonical).value.value, db, r)
  {
    SlotRead(db, slots, CandidateAttempt, a, r);
    if HasSlot(db, r) && db.receipts[r].outcome.None? { OwnRead(db, a, None, db.receipts[r].provider, canonical); }
    hide CanonicalBody;
    hide OwnOutcome;
    hide ReadsOwn;
    hide ReadsId;
    hide SlotOf;
    hide SlotsIndex;
  }

  lemma {:induction false} AttemptsRead(db: Db, slots: Slots, a: int, rs: seq<int>, canonical: Text)
    requires a in db.actions && CanonicalBody(canonical, db, a)
    requires forall r | r in rs :: r in db.receipts && db.receipts[r].owner == a
    requires SlotsIndex(slots, db.identities, db.identities.Keys) && AttemptParts(db, slots, a, rs, canonical).Success?
    ensures forall x | x in AttemptParts(db, slots, a, rs, canonical).value :: exists r :: r in rs && ShowsAttempt(x, db, r)
    ensures forall r | r in rs && HasSlot(db, r) ::
      exists x :: x in AttemptParts(db, slots, a, rs, canonical).value && ShowsAttempt(x, db, r)
    decreases |rs|
  {
    if rs != [] {
      var front, last := rs[..|rs| - 1], rs[|rs| - 1];
      assert last in rs && rs == front + [last];
      AttemptsRead(db, slots, a, front, canonical);
      AttemptRead(db, slots, a, last, canonical);
      hide AttemptPart;
      hide ShowsAttempt;
      hide HasSlot;
      hide SlotsIndex;
      hide CanonicalBody;
    }
  }

  lemma SentRead(db: Db, slots: Slots, a: int, canonical: Text)
    requires a in db.actions && CanonicalBody(canonical, db, a)
    requires SlotsIndex(slots, db.identities, db.identities.Keys) && SentPart(db, slots, a, canonical).Success?
    ensures SentPart(db, slots, a, canonical).value.Some? <==> db.actions[a].deliveryReceipt.Some?
    ensures db.actions[a].deliveryReceipt.Some? ==> ShowsSent(SentPart(db, slots, a, canonical).value.value, db, a)
  {
    if db.actions[a].deliveryReceipt.Some? {
      var r := db.actions[a].deliveryReceipt.value;
      assert r in db.receipts;
      SlotRead(db, slots, SentReply, a, r);
      OwnRead(db, a, db.receipts[r].body, db.receipts[r].provider, canonical);
    }
    hide CanonicalBody;
    hide OwnOutcome;
    hide ReadsOwn;
    hide ReadsId;
    hide SlotOf;
    hide SlotsIndex;
  }

  lemma {:induction false} DispatchRead(db: Db, a: int, rs: seq<int>)
    requires Ascending(rs) && forall r | r in rs :: r in db.receipts && db.receipts[r].owner == a
    ensures
      var at := FirstDispatch(db, rs);
      && (at.Some? ==> exists r :: r in rs && DispatchedBy(db, a, r) && db.receipts[r].dispatchedAt == at
                                   && forall q | q in rs && DispatchedBy(db, a, q) :: r <= q)
      && (at.None? ==> forall q | q in rs :: !DispatchedBy(db, a, q))
  {
    if rs != [] {
      var r, rest := rs[0], rs[1..];
      assert r in rs && rs == [r] + rest;
      forall q | q in rest ensures r < q {
        var i :| 0 <= i < |rest| && rest[i] == q;
        assert rs[0] < rs[i + 1];
      }
      if db.receipts[r].dispatchedAt.None? { DispatchRead(db, a, rest); }
    }
  }

  lemma FirstRead(db: Db, a: int, rs: seq<int>)
    requires Own(rs, db, a)
    ensures
      var at := FirstDispatch(db, rs);
      && (at.Some? <==> Dispatched(db, a)) && (at.Some? ==> ReadsDispatch(at.value, db, a))
  {
    DispatchRead(db, a, rs);
    assert forall q | DispatchedBy(db, a, q) :: q in rs;
    hide FirstDispatch;
  }

  /** What an Action contributes to the message families. */
  ghost predicate MessagePartTold(db: Db, a: int, part: Parts)
    requires a in db.actions
  {
    && (part.postfix.Some? <==> HasAddress(db, a) && db.actions[a].preparedBody.Some?)
    && (part.postfix.Some? ==> ShowsMessage(part.postfix.value, db, a))
    && (part.receipt.Some? <==> HasAddress(db, a) && HasBody(db, a))
    && (part.receipt.Some? ==> ShowsReceipt(part.receipt.value, db, a))
    && (part.dispatch.Some? <==> HasAddress(db, a) && Dispatched(db, a))
    && (part.dispatch.Some? ==> ShowsDispatch(part.dispatch.value, db, a))
  }

  lemma MessagePartIs(db: Db, a: int, rs: seq<int>, part: Parts)
    requires Own(rs, db, a)
    requires part.postfix == PostfixPart(db, a, rs) && part.receipt == ReceiptPart(db, a) && part.dispatch == DispatchPart(db, a, rs)
    ensures MessagePartTold(db, a, part)
  {
    FirstRead(db, a, rs);
    hide FirstDispatch;
    hide Own;
    hide ReadsDispatch;
    hide Dispatched;
  }

  /** What an Action contributes to the results, the attempts and the replies. */
  ghost predicate OtherPartTold(db: Db, a: int, part: Parts)
    requires a in db.actions
  {
    && ResultPartTold(db, a, part.external)
    && (forall x | x in part.attempts :: exists r :: ShowsAttempt(x, db, r))
    && (forall r | HasSlot(db, r) && db.receipts[r].owner == a :: exists x :: x in part.attempts && ShowsAttempt(x, db, r))
    && (part.sent.Some? <==> db.actions[a].deliveryReceipt.Some?) && (part.sent.Some? ==> ShowsSent(part.sent.value, db, a))
  }

  lemma PartIs(db: Db, slots: Slots, a: int, rs: seq<int>, part: Parts)
    requires a in db.actions && (forall r | r in rs :: r in db.receipts) && ActionParts(db, slots, a, rs) == Success(part)
    ensures ExternalPart(db, a, rs) == Success(part.external)
    ensures AttemptParts(db, slots, a, rs, CanonicalText(part.external)) == Success(part.attempts)
    ensures SentPart(db, slots, a, CanonicalText(part.external)) == Success(part.sent)
    ensures part.postfix == PostfixPart(db, a, rs) && part.receipt == ReceiptPart(db, a) && part.dispatch == DispatchPart(db, a, rs)
  {
    hide ExternalPart;
    hide AttemptParts;
    hide SentPart;
    hide PostfixPart;
    hide ReceiptPart;
    hide DispatchPart;
  }

  lemma OtherPartIs(db: Db, slots: Slots, a: int, rs: seq<int>, part: Parts)
    requires Own(rs, db, a) && SlotsIndex(slots, db.identities, db.identities.Keys)
    requires ExternalPart(db, a, rs) == Success(part.external)
    requires AttemptParts(db, slots, a, rs, CanonicalText(part.external)) == Success(part.attempts)
    requires SentPart(db, slots, a, CanonicalText(part.external)) == Success(part.sent)
    ensures OtherPartTold(db, a, part)
  {
    ResultPartIs(db, a, rs, part.external);
    AttemptsRead(db, slots, a, rs, CanonicalText(part.external));
    SentRead(db, slots, a, CanonicalText(part.external));
    assert forall r | HasSlot(db, r) && db.receipts[r].owner == a :: r in rs;
    hide ExternalPart;
    hide AttemptParts;
    hide SentPart;
    hide ShowsAttempt;
    hide ShowsSent;
    hide ShowsResult;
    hide HasResult;
    hide SlotsIndex;
    hide CanonicalText;
  }

  /** From any tables: the contribution of each Action is told by its columns and those of its receipts. */
  lemma PartTold(db: Db, slots: Slots, orders: Orders, parts: seq<Parts>, i: nat)
    requires OrdersOf(orders, db) && PartsOf(db, slots, orders.actions, orders.receipts, parts) && i < |parts|
    requires SlotsIndex(slots, db.identities, db.identities.Keys)
    ensures i < |orders.actions| && orders.actions[i] in db.actions
    ensures MessagePartTold(db, orders.actions[i], parts[i]) && OtherPartTold(db, orders.actions[i], parts[i])
  {
    hide *;
    OwnIs(db, slots, orders, parts, i);
    PartIsOne(db, slots, orders, parts, i);
    var a, rs := orders.actions[i], ReceiptsOf(db, orders.actions[i], orders.receipts);
    OwnThere(rs, db, a);
    PartIs(db, slots, a, rs, parts[i]);
    OtherPartIs(db, slots, a, rs, parts[i]);
    MessagePartIs(db, a, rs, parts[i]);
  }

  lemma OwnThere(rs: seq<int>, db: Db, a: int)
    requires Own(rs, db, a)
    ensures a in db.actions && forall r | r in rs :: r in db.receipts
  {
  }

  // ---------- the rows of all Actions ----------

  lemma InGather<T(!new)>(rows: seq<seq<T>>, x: T)
    ensures x in Gather(rows) <==> exists i :: 0 <= i < |rows| && x in rows[i]
  {
    hide Gather;
  }

  lemma InOne<T>(x: T, o: Option<T>)
    ensures x in OneOrNone(o) <==> o == Some(x)
  {
  }

  lemma SentsAre(parts: seq<Parts>, x: CapturedSent)
    ensures x in Collect(parts).sents <==> exists i :: 0 <= i < |parts| && parts[i].sent == Some(x)
  {
    CollectIs(parts);
    hide *;
    SentsAt(parts);
    InGather(Sents(parts), x);
    if i :| 0 <= i < |parts| && x in Sents(parts)[i] { InOne(x, parts[i].sent); }
    if i :| 0 <= i < |parts| && parts[i].sent == Some(x) { InOne(x, parts[i].sent); }
  }

  lemma SentsAt(parts: seq<Parts>)
    ensures |Sents(parts)| == |parts| && forall i | 0 <= i < |parts| :: Sents(parts)[i] == OneOrNone(parts[i].sent)
  {
  }

  lemma ExternalsAre(parts: seq<Parts>, x: CapturedExternal)
    ensures x in Collect(parts).externals <==> exists i :: 0 <= i < |parts| && parts[i].external == Some(x)
  {
    CollectIs(parts);
    hide *;
    ExternalsAt(parts);
    InGather(Externals(parts), x);
    if i :| 0 <= i < |parts| && x in Externals(parts)[i] { InOne(x, parts[i].external); }
    if i :| 0 <= i < |parts| && parts[i].external == Some(x) { InOne(x, parts[i].external); }
  }

  lemma ExternalsAt(parts: seq<Parts>)
    ensures |Externals(parts)| == |parts| && forall i | 0 <= i < |parts| :: Externals(parts)[i] == OneOrNone(parts[i].external)
  {
  }

  lemma PostfixesAt(parts: seq<Parts>)
    ensures |Postfixes(parts)| == |parts| && forall i | 0 <= i < |parts| :: Postfixes(parts)[i] == OneOrNone(parts[i].postfix)
  {
  }

  lemma PostfixesAre(parts: seq<Parts>, x: CapturedPostfix)
    ensures x in Collect(parts).postfixes <==> exists i :: 0 <= i < |parts| && parts[i].postfix == Some(x)
  {
    CollectIs(parts);
    hide *;
    PostfixesAt(parts);
    InGather(Postfixes(parts), x);
    if i :| 0 <= i < |parts| && x in Postfixes(parts)[i] { InOne(x, parts[i].postfix); }
    if i :| 0 <= i < |parts| && parts[i].postfix == Some(x) { InOne(x, parts[i].postfix); }
  }

  lemma ReceiptsAt(parts: seq<Parts>)
    ensures |Receipts(parts)| == |parts| && forall i | 0 <= i < |parts| :: Receipts(parts)[i] == OneOrNone(parts[i].receipt)
  {
  }

  lemma ReceiptsAre(parts: seq<Parts>, x: CapturedReceipt)
    ensures x in Collect(parts).receipts <==> exists i :: 0 <= i < |parts| && parts[i].receipt == Some(x)
  {
    CollectIs(parts);
    hide *;
    ReceiptsAt(parts);
    InGather(Receipts(parts), x);
    if i :| 0 <= i < |parts| && x in Receipts(parts)[i] { InOne(x, parts[i].receipt); }
    if i :| 0 <= i < |parts| && parts[i].receipt == Some(x) { InOne(x, parts[i].receipt); }
  }

  lemma DispatchesAt(parts: seq<Parts>)
    ensures |Dispatches(parts)| == |parts| && forall i | 0 <= i < |parts| :: Dispatches(parts)[i] == OneOrNone(parts[i].dispatch)
  {
  }

  lemma DispatchesAre(parts: seq<Parts>, x: CapturedDispatch)
    ensures x in Collect(parts).dispatches <==> exists i :: 0 <= i < |parts| && parts[i].dispatch == Some(x)
  {
    CollectIs(parts);
    hide *;
    DispatchesAt(parts);
    InGather(Dispatches(parts), x);
    if i :| 0 <= i < |parts| && x in Dispatches(parts)[i] { InOne(x, parts[i].dispatch); }
    if i :| 0 <= i < |parts| && parts[i].dispatch == Some(x) { InOne(x, parts[i].dispatch); }
  }

  lemma AttemptsAre(parts: seq<Parts>, x: CapturedAttempt)
    ensures x in Collect(parts).attempts <==> exists i :: 0 <= i < |parts| && x in parts[i].attempts
  {
    CollectIs(parts);
    hide *;
    AttemptsAt(parts);
    InGather(Attempts(parts), x);
  }

  lemma AttemptsAt(parts: seq<Parts>)
    ensures |Attempts(parts)| == |parts| && forall i | 0 <= i < |parts| :: Attempts(parts)[i] == parts[i].attempts
  {
  }

  lemma OrdersAre(db: Db, slots: Slots, orders: Orders, parts: seq<Parts>)
    requires OrdersOf(orders, db) && PartsOf(db, slots, orders.actions, orders.receipts, parts)
    ensures |parts| == |orders.actions| && forall a :: a in orders.actions <==> a in db.actions
  {
  }

  lemma ResultsAreTold(db: Db, order: seq<int>, parts: seq<Parts>)
    requires |parts| == |order| && forall a :: a in order <==> a in db.actions
    requires forall i | 0 <= i < |parts| :: ResultPartTold(db, order[i], parts[i].external)
    ensures ResultsTold(Collect(parts).externals, db)
  {
    hide Collect;
    hide ShowsResult;
    hide HasResult;
    hide CanonicalBody;
    forall x | x in Collect(parts).externals ensures exists a, b :: ShowsResult(x, db, a, b) {
      ExternalsAre(parts, x);
      var i :| 0 <= i < |parts| && parts[i].external == Some(x);
      assert ResultPartTold(db, order[i], parts[i].external);
    }
    forall a | a in db.actions && HasResult(db, a)
      ensures exists x, b :: x in Collect(parts).externals && ShowsResult(x, db, a, b)
    {
      assert a in order;
      var i :| 0 <= i < |order| && order[i] == a;
      assert ResultPartTold(db, order[i], parts[i].external);
      ExternalsAre(parts, parts[i].external.value);
    }
  }

  lemma AttemptsAreTold(db: Db, order: seq<int>, parts: seq<Parts>)
    requires |parts| == |order| && (forall a :: a in order <==> a in db.actions)
    requires forall i | 0 <= i < |parts| :: OtherPartTold(db, order[i], parts[i])
    requires forall r | r in db.receipts :: db.receipts[r].owner in db.actions
    ensures AttemptsTold(Collect(parts).attempts, db)
  {
    hide Collect;
    hide ShowsAttempt;
    hide ShowsSent;
    hide ResultPartTold;
    hide HasSlot;
    forall x | x in Collect(parts).attempts ensures exists r :: ShowsAttempt(x, db, r) {
      AttemptsAre(parts, x);
      var i :| 0 <= i < |parts| && x in parts[i].attempts;
      assert OtherPartTold(db, order[i], parts[i]);
    }
    forall r | HasSlot(db, r) ensures exists x :: x in Collect(parts).attempts && ShowsAttempt(x, db, r) {
      SlotThere(db, r);
      var a := db.receipts[r].owner;
      assert a in order;
      var i :| 0 <= i < |order| && order[i] == a;
      assert OtherPartTold(db, order[i], parts[i]);
      var x :| x in parts[i].attempts && ShowsAttempt(x, db, r);
      AttemptsAre(parts, x);
    }
  }

  lemma SlotThere(db: Db, r: int)
    requires HasSlot(db, r)
    ensures r in db.receipts
  {
  }

  lemma SentsAreTold(db: Db, order: seq<int>, parts: seq<Parts>)
    requires |parts| == |order| && (forall a :: a in order <==> a in db.actions)
    requires forall i | 0 <= i < |parts| :: OtherPartTold(db, order[i], parts[i])
    ensures SentsTold(Collect(parts).sents, db)
  {
    hide Collect;
    hide ShowsAttempt;
    hide ShowsSent;
    hide ResultPartTold;
    hide HasSlot;
    forall x | x in Collect(parts).sents ensures exists a :: ShowsSent(x, db, a) {
      SentsAre(parts, x);
      var i :| 0 <= i < |parts| && parts[i].sent == Some(x);
      assert OtherPartTold(db, order[i], parts[i]);
    }
    forall a | a in db.actions && db.actions[a].deliveryReceipt.Some?
      ensures exists x :: x in Collect(parts).sents && ShowsSent(x, db, a)
    {
      assert a in order;
      var i :| 0 <= i < |order| && order[i] == a;
      assert OtherPartTold(db, order[i], parts[i]);
      SentsAre(parts, parts[i].sent.value);
    }
  }

  lemma MessagesAreTold(db: Db, order: seq<int>, parts: seq<Parts>)
    requires |parts| == |order| && (forall a :: a in order <==> a in db.actions)
    requires forall i | 0 <= i < |parts| :: MessagePartTold(db, order[i], parts[i])
    ensures MessagesTold(Collect(parts).postfixes, db) && ReceiptsTold(Collect(parts).receipts, db)
    ensures DispatchesTold(Collect(parts).dispatches, db)
  {
    hide Collect;
    hide HasAddress;
    hide HasBody;
    hide Dispatched;
    hide ShowsMessage;
    hide ShowsReceipt;
    hide ShowsDispatch;
    forall x | x in Collect(parts).postfixes ensures exists a :: ShowsMessage(x, db, a) { PostfixesAre(parts, x); }
    forall x | x in Collect(parts).receipts ensures exists a :: ShowsReceipt(x, db, a) { ReceiptsAre(parts, x); }
    forall x | x in Collect(parts).dispatches ensures exists a :: ShowsDispatch(x, db, a) { DispatchesAre(parts, x); }
    forall a | HasAddress(db, a)
      ensures a in db.actions
      ensures db.actions[a].preparedBody.Some? ==> exists x :: x in Collect(parts).postfixes && ShowsMessage(x, db, a)
      ensures HasBody(db, a) ==> exists x :: x in Collect(parts).receipts && ShowsReceipt(x, db, a)
      ensures Dispatched(db, a) ==> exists x :: x in Collect(parts).dispatches && ShowsDispatch(x, db, a)
    {
      AddressThere(db, a);
      assert a in order;
      var i :| 0 <= i < |order| && order[i] == a;
      assert MessagePartTold(db, order[i], parts[i]);
      if db.actions[a].preparedBody.Some? { PostfixesAre(parts, parts[i].postfix.value); }
      if HasBody(db, a) { ReceiptsAre(parts, parts[i].receipt.value); }
      if Dispatched(db, a) { DispatchesAre(parts, parts[i].dispatch.value); }
    }
  }

  lemma AddressThere(db: Db, a: int)
    requires HasAddress(db, a)
    ensures a in db.actions
  {
  }

  lemma ObserverIs(db: Db, firsts: map<(Family, int), Identity>, pair: (int, int), x: CapturedObserver)
    requires pair in db.observers && FirstsIndex(firsts, db.identities, db.identities.Keys)
    requires ObserverPart(db, firsts, pair) == Success(x)
    ensures ShowsObserver(x, db, pair) && (x.action, x.run) == pair
  {
    if (SentReply, pair.0) in firsts {
      var i := firsts[(SentReply, pair.0)];
      assert (SentReply, i) in db.identities && db.identities[(SentReply, i)].action == pair.0;
      assert TruthyId(i) <==> i != IntegerId(0) && i != TextId("");
    } else {
      forall i | (SentReply, i) in db.identities ensures db.identities[(SentReply, i)].action != pair.0 {
        var k := (SentReply, i);
        assert k in db.identities.Keys;
      }
    }
    hide FirstsIndex;
  }

  lemma ObserversAreTold(db: Db, firsts: map<(Family, int), Identity>, order: seq<(int, int)>, xs: seq<CapturedObserver>)
    requires (forall pair :: pair in order <==> pair in db.observers) && |xs| == |order|
    requires FirstsIndex(firsts, db.identities, db.identities.Keys)
    requires forall i | 0 <= i < |order| :: ObserverPart(db, firsts, order[i]) == Success(xs[i])
    ensures ObserversTold(xs, db)
  {
    forall i | 0 <= i < |order|
      ensures order[i] in db.observers && ShowsObserver(xs[i], db, order[i]) && (xs[i].action, xs[i].run) == order[i]
    {
      assert order[i] in order;
      ObserverIs(db, firsts, order[i], xs[i]);
    }
    hide ShowsObserver;
    hide FirstsIndex;
    hide ObserverPart;
    forall pair | pair in db.observers ensures exists x :: x in xs && ShowsObserver(x, db, pair) {
      assert pair in order;
      var i :| 0 <= i < |order| && order[i] == pair;
      assert xs[i] in xs;
    }
  }

  /** What the inverse returns from any tables whose receipts have their Actions. */
  lemma RowsTold(
    db: Db, slots: Slots, firsts: map<(Family, int), Identity>, orders: Orders, parts: seq<Parts>, captured: Captured)
    requires OrdersOf(orders, db) && PartsOf(db, slots, orders.actions, orders.receipts, parts)
    requires SlotsIndex(slots, db.identities, db.identities.Keys) && FirstsIndex(firsts, db.identities, db.identities.Keys)
    requires captured.(observers := []) == Collect(parts) && |captured.observers| == |orders.observers|
    requires forall i | 0 <= i < |orders.observers| :: ObserverPart(db, firsts, orders.observers[i]) == Success(captured.observers[i])
    requires forall r | r in db.receipts :: db.receipts[r].owner in db.actions
    ensures Told(captured, db)
  {
    OrdersAre(db, slots, orders, parts);
    hide *;
    forall i | 0 <= i < |parts|
      ensures MessagePartTold(db, orders.actions[i], parts[i]) && OtherPartTold(db, orders.actions[i], parts[i])
      ensures ResultPartTold(db, orders.actions[i], parts[i].external)
    {
      PartTold(db, slots, orders, parts, i);
      OtherGives(db, orders.actions[i], parts[i]);
    }
    ResultsAreTold(db, orders.actions, parts);
    AttemptsAreTold(db, orders.actions, parts);
    SentsAreTold(db, orders.actions, parts);
    MessagesAreTold(db, orders.actions, parts);
    ObserversAreTold(db, firsts, orders.observers, captured.observers);
    ToldIs(captured, parts, db);
  }

  lemma OtherGives(db: Db, a: int, part: Parts)
    requires a in db.actions && OtherPartTold(db, a, part)
    ensures ResultPartTold(db, a, part.external)
  {
    hide ResultPartTold;
  }

  lemma ToldIs(captured: Captured, parts: seq<Parts>, db: Db)
    requires captured.(observers := []) == Collect(parts)
    requires ResultsTold(Collect(parts).externals, db) && AttemptsTold(Collect(parts).attempts, db)
    requires SentsTold(Collect(parts).sents, db) && MessagesTold(Collect(parts).postfixes, db)
    requires ReceiptsTold(Collect(parts).receipts, db) && DispatchesTold(Collect(parts).dispatches, db)
    requires ObserversTold(captured.observers, db)
    ensures Told(captured, db)
  {
    hide Collect;
    hide ResultsTold;
    hide AttemptsTold;
    hide SentsTold;
    hide MessagesTold;
    hide ReceiptsTold;
    hide DispatchesTold;
    hide ObserversTold;
  }

  /** On tables whose keys are unique: without a mapped receipt a key has a result exactly while metadata of it is there. */
  lemma UnmappedResultIff(xs: seq<CapturedExternal>, db: Db, a: int)
    requires ResultsTold(xs, db) && a in db.actions && Filled(db.actions[a].externalKey) && MappedReceipt(db, a).None?
    requires NoOtherClashes(db.actions, a, db.actions[a])
    ensures (exists x :: x in xs && db.actions[a].externalKey == Some(x.key)) <==> exists r :: Metadata(db, a, r)
  {
    hide Filled;
    hide Metadata;
    hide Clash;
    if x :| x in xs && db.actions[a].externalKey == Some(x.key) {
      var other, b :| ShowsResult(x, db, other, b);
      SameKeyClashes(db, x, a, other, b);
    }
  }

  lemma SameKeyClashes(db: Db, x: CapturedExternal, a: int, other: int, b: int)
    requires ShowsResult(x, db, other, b) && a in db.actions && db.actions[a].externalKey == Some(x.key)
    requires NoOtherClashes(db.actions, a, db.actions[a])
    ensures other in db.actions && HasResult(db, other) && other == a
  {
    assert other in db.actions && db.actions[other].externalKey == Some(x.key);
    assert Clash(db.actions[other], db.actions[a]);
    hide HasResult;
    hide ReadsBody;
  }
}
