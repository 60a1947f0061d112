/** The inverse: reading the predecessor's rows back from the common Action tables. */
module Capture {
  import opened Wrappers
  import opened ActionEntity
  import opened Ids

  datatype CapturedExternal = CapturedExternal(
    key: string, business: Text, identity: Text, operation: Text, target: Text, body: Text,
    digest: Text, run: Option<int>, createdAt: Text)

  datatype CapturedAttempt = CapturedAttempt(
    id: Option<Identity>, execution: int, index: int, key: string, status: Text, outcome: Text,
    createdAt: Text, updatedAt: Text)

  datatype CapturedPostfix = CapturedPostfix(
    channel: string, key: string, body: string, token: string, version: Text, createdAt: Text,
    receiptBody: Text, receiptAt: Text, dispatchedAt: Text)

  datatype CapturedReceipt = CapturedReceipt(channel: string, key: string, body: string, createdAt: Text)

  datatype CapturedDispatch = CapturedDispatch(channel: string, key: string, createdAt: string)

  datatype CapturedSent = CapturedSent(
    id: Option<Identity>, action: int, conversation: Text, trigger: Text, text: Text, sentAt: Text,
    result: Text, recallKey: string, recallStatus: string, recallError: string, recalledAt: Text,
    token: string, channel: string, run: Option<int>, key: string)

  /** `legacy` is the composite identity the observer had, when its reply has one that counts as true. */
  datatype CapturedObserver = CapturedObserver(
    action: int, run: int, task: int, createdAt: string, legacy: Option<(Identity, int)>)

  /** What one Action contributes to each family. */
  datatype Parts = Parts(
    external: Option<CapturedExternal>, postfix: Option<CapturedPostfix>, receipt: Option<CapturedReceipt>,
    dispatch: Option<CapturedDispatch>, attempts: seq<CapturedAttempt>, sent: Option<CapturedSent>)

  datatype Captured = Captured(
    externals: seq<CapturedExternal>, attempts: seq<CapturedAttempt>, postfixes: seq<CapturedPostfix>,
    receipts: seq<CapturedReceipt>, dispatches: seq<CapturedDispatch>, sents: seq<CapturedSent>,
    observers: seq<CapturedObserver>)

  /** Source identities by (family, Action, receipt). */
  type Slots = map<(Family, int, int), Identity>

  predicate Truthy(text: Text) { text.Some? && text.value != "" }

  function OrEmpty(text: Text): string { if text.Some? then text.value else "" }

  function OrElse(text: Text, other: Text): Text { if Truthy(text) then text else other }

  function BodyOf(db: Db, receipt: Option<int>): Text {
    if receipt.Some? && receipt.value in db.receipts then db.receipts[receipt.value].body else None
  }

  // ---------- the canonical result ----------

  predicate LooksLikeBinding(db: Db, a: int, r: int)
    requires a in db.actions && r in db.receipts
  {
    var receipt := db.receipts[r];
    && receipt.provider.Some? && receipt.execution.None? && receipt.attemptNumber.None?
    && db.actions[a].deliveryReceipt != Some(r) && db.actions[a].preparedReceipt != Some(r)
    && receipt.status.None? && receipt.target.Some? && receipt.agentRun.Some? && receipt.createdAt.Some?
  }

  /** The look-alike with the largest ID. */
  function GreatestBinding(db: Db, a: int, rs: seq<int>): Option<int>
    requires a in db.actions && forall r | r in rs :: r in db.receipts
  {
    if rs == [] then None
    else
      var last := rs[|rs| - 1];
      assert last in rs;
      var before := GreatestBinding(db, a, rs[..|rs| - 1]);
      if LooksLikeBinding(db, a, last) && (before.None? || before.value < last) then Some(last) else before
  }

  function BindingOf(db: Db, a: int, rs: seq<int>, key: string): Option<int>
    requires a in db.actions && forall r | r in rs :: r in db.receipts
  {
    var mapped := (ExternalResult, TextId(key));
    if mapped in db.identities && db.identities[mapped].receipt.Some? then
      if db.identities[mapped].receipt.value in db.receipts then db.identities[mapped].receipt else None
    else GreatestBinding(db, a, rs)
  }

  function ExternalPart(db: Db, a: int, rs: seq<int>): Result<Option<CapturedExternal>>
    requires a in db.actions && forall r | r in rs :: r in db.receipts
  {
    var action := db.actions[a];
    if !Truthy(action.externalKey) then Success(None)
    else
      var key := action.externalKey.value;
      match BindingOf(db, a, rs, key)
      case None => if (ExternalResult, TextId(key)) in db.identities then Failure else Success(None)
      case Some(b) =>
        if b !in db.receipts then Failure
        else
          var binding := db.receipts[b];
          if BodyOf(db, binding.provider).None? then Failure
          else
            var at := binding.provider.value;
            assert at in db.receipts;
            Success(Some(CapturedExternal(
              key, action.businessKey, action.identity, binding.operation, binding.target, db.receipts[at].body,
              db.receipts[at].digest, binding.agentRun, binding.createdAt)))
  }

  function CanonicalText(external: Option<CapturedExternal>): Text {
    if external.Some? then external.value.body else None
  }

  // ---------- the prepared message ----------

  function FirstDispatch(db: Db, rs: seq<int>): Text
    requires forall r | r in rs :: r in db.receipts
  {
    if rs == [] then None
    else
      var r := rs[0];
      assert r in rs;
      if db.receipts[r].dispatchedAt.Some? then db.receipts[r].dispatchedAt
      else FirstDispatch(db, rs[1..])
  }

  predicate Addressed(action: Action) { action.deliveryChannel.Some? && action.deliveryKey.Some? }

  function PreparedAt(db: Db, action: Action): Text
    requires BodyOf(db, action.preparedReceipt).Some?
  {
    var prepared := db.receipts[action.preparedReceipt.value];
    OrElse(prepared.observedAt, prepared.createdAt)
  }

  function PostfixPart(db: Db, a: int, rs: seq<int>): Option<CapturedPostfix>
    requires a in db.actions && forall r | r in rs :: r in db.receipts
  {
    var action := db.actions[a];
    if !Addressed(action) || action.preparedBody.None? then None
    else
      var body := BodyOf(db, action.preparedReceipt);
      Some(CapturedPostfix(
        action.deliveryChannel.value, action.deliveryKey.value, action.preparedBody.value,
        OrEmpty(action.feedbackToken), action.postfixVersion, action.preparedAt,
        body, if body.Some? then PreparedAt(db, action) else None, FirstDispatch(db, rs)))
  }

  function ReceiptPart(db: Db, a: int): Option<CapturedReceipt>
    requires a in db.actions
  {
    var action := db.actions[a];
    var body := BodyOf(db, action.preparedReceipt);
    if !Addressed(action) || body.None? then None
    else Some(CapturedReceipt(action.deliveryChannel.value, action.deliveryKey.value, body.value, PreparedAt(db, action)))
  }

  function DispatchPart(db: Db, a: int, rs: seq<int>): Option<CapturedDispatch>
    requires a in db.actions && forall r | r in rs :: r in db.receipts
  {
    var action := db.actions[a];
    var dispatch := FirstDispatch(db, rs);
    if !Addressed(action) || dispatch.None? then None
    else Some(CapturedDispatch(action.deliveryChannel.value, action.deliveryKey.value, dispatch.value))
  }

  // ---------- observations and the sent reply ----------

  /** A referenced body counts as the row's own only when it is not the canonical one. */
  function OwnOutcome(db: Db, own: Text, provider: Option<int>, canonical: Text): Result<Text> {
    if provider.None? then Success(own)
    else if BodyOf(db, provider).None? then Failure
    else Success(if BodyOf(db, provider) == canonical then None else BodyOf(db, provider))
  }

  function SlotOf(slots: Slots, family: Family, a: int, r: int): Option<Identity> {
    if (family, a, r) in slots then Some(slots[(family, a, r)]) else None
  }

  function AttemptPart(db: Db, slots: Slots, a: int, r: int, canonical: Text): Result<Option<CapturedAttempt>>
    requires a in db.actions && r in db.receipts
  {
    var receipt := db.receipts[r];
    if receipt.execution.None? || receipt.actionIndex.None? then Success(None)
    else
      match (if receipt.outcome.Some? then Success(receipt.outcome)
             else OwnOutcome(db, None, receipt.provider, canonical))
      case Failure => Failure
      case Success(outcome) =>
        Success(Some(CapturedAttempt(
          SlotOf(slots, CandidateAttempt, a, r), receipt.execution.value, receipt.actionIndex.value,
          OrEmpty(db.actions[a].externalKey), receipt.status, outcome, receipt.createdAt, receipt.updatedAt)))
  }

  function AttemptParts(db: Db, slots: Slots, a: int, rs: seq<int>, canonical: Text): Result<seq<CapturedAttempt>>
    requires a in db.actions && forall r | r in rs :: r in db.receipts
  {
    if rs == [] then Success([])
    else
      match (AttemptParts(db, slots, a, rs[..|rs| - 1], canonical), AttemptPart(db, slots, a, rs[|rs| - 1], canonical))
      case (Success(before), Success(last)) => Success(before + if last.Some? then [last.value] else [])
      case _ => Failure
  }

  function SentPart(db: Db, slots: Slots, a: int, canonical: Text): Result<Option<CapturedSent>>
    requires a in db.actions
  {
    var action := db.actions[a];
    if action.deliveryReceipt.None? then Success(None)
    else if action.deliveryReceipt.value !in db.receipts then Failure
    else
      var r := action.deliveryReceipt.value;
      var sent := db.receipts[r];
      match OwnOutcome(db, sent.body, sent.provider, canonical)
      case Failure => Failure
      case Success(result) =>
        Success(Some(CapturedSent(
          SlotOf(slots, SentReply, a, r), a, action.conversation, action.trigger, action.preparedBody,
          sent.observedAt, result, OrEmpty(action.recallKey), OrEmpty(action.recallStatus),
          OrEmpty(action.recallError), action.recalledAt, OrEmpty(action.feedbackToken),
          if Truthy(action.deliveryChannel) then action.deliveryChannel.value else "dingtalk",
          sent.agentRun, OrEmpty(action.externalKey))))
  }

  function ActionParts(db: Db, slots: Slots, a: int, rs: seq<int>): Result<Parts>
    requires a in db.actions && forall r | r in rs :: r in db.receipts
  {
    match ExternalPart(db, a, rs)
    case Failure => Failure
    case Success(external) =>
      var canonical := CanonicalText(external);
      match (AttemptParts(db, slots, a, rs, canonical), SentPart(db, slots, a, canonical))
      case (Success(attempts), Success(sent)) =>
        Success(Parts(external, PostfixPart(db, a, rs), ReceiptPart(db, a), DispatchPart(db, a, rs), attempts, sent))
      case _ => Failure
  }

  // ---------- the loops ----------

  /** Every mapped receipt can be looked up, and every entry is a row of the identity map. */
  ghost predicate SlotsIndex(slots: Slots, ids: Identities, keys: set<(Family, Identity)>) {
    && (forall k | k in keys && k in ids && ids[k].receipt.Some? :: (k.0, ids[k].action, ids[k].receipt.value) in slots)
    && (forall f: Family, a: int, r: int | (f, a, r) in slots ::
          (f, slots[(f, a, r)]) in ids && ids[(f, slots[(f, a, r)])] == Mapped(a, Some(r)))
  }

  /** The first identity of a family seen for each Action. */
  ghost predicate FirstsIndex(firsts: map<(Family, int), Identity>, ids: Identities, keys: set<(Family, Identity)>) {
    && (forall k | k in keys && k in ids :: (k.0, ids[k].action) in firsts)
    && (forall f: Family, a: int | (f, a) in firsts ::
          (f, firsts[(f, a)]) in ids && ids[(f, firsts[(f, a)])].action == a)
  }

  function Elements<T>(rows: seq<T>): set<T> { set x | x in rows }

  method IndexIdentities(ids: Identities, order: seq<(Family, Identity)>)
    returns (slots: Slots, firsts: map<(Family, int), Identity>)
    requires forall k :: k in order <==> k in ids
    ensures SlotsIndex(slots, ids, ids.Keys) && FirstsIndex(firsts, ids, ids.Keys)
  {
    slots, firsts := map[], map[];
    for i := 0 to |order|
      invariant SlotsIndex(slots, ids, Elements(order[..i])) && FirstsIndex(firsts, ids, Elements(order[..i]))
    {
      var k := order[i];
      assert k in ids;
      assert order[..i + 1] == order[..i] + [k];
      var at := ids[k];
      if at.receipt.Some? {
        slots := slots[(k.0, at.action, at.receipt.value) := k.1];
      }
      if (k.0, at.action) !in firsts {
        firsts := firsts[(k.0, at.action) := k.1];
      }
    }
    assert order[..|order|] == order && Elements(order) == ids.Keys;
  }

  /** The receipts of one Action, in the order they were read. */
  function ReceiptsOf(db: Db, a: int, order: seq<int>): (rs: seq<int>)
    requires forall r | r in order :: r in db.receipts
    ensures forall r :: r in rs <==> r in order && db.receipts[r].owner == a
  {
    if order == [] then []
    else
      var last := order[|order| - 1];
      assert order == order[..|order| - 1] + [last];
      ReceiptsOf(db, a, order[..|order| - 1]) + if db.receipts[last].owner == a then [last] else []
  }

  const NOTHING := Captured([], [], [], [], [], [], [])

  function OneOrNone<T>(x: Option<T>): seq<T> { if x.Some? then [x.value] else [] }

  function WithParts(captured: Captured, parts: Parts): Captured {
    captured.(
      externals := captured.externals + OneOrNone(parts.external),
      postfixes := captured.postfixes + OneOrNone(parts.postfix),
      receipts := captured.receipts + OneOrNone(parts.receipt),
      dispatches := captured.dispatches + OneOrNone(parts.dispatch),
      attempts := captured.attempts + parts.attempts,
      sents := captured.sents + OneOrNone(parts.sent))
  }

  /** The six lists, one Action after the other. */
  function Collect(parts: seq<Parts>): Captured {
    if parts == [] then NOTHING else WithParts(Collect(parts[..|parts| - 1]), parts[|parts| - 1])
  }

  /** `parts` are the contributions of the Actions in `order`. */
  ghost predicate PartsOf(db: Db, slots: Slots, order: seq<int>, receipts: seq<int>, parts: seq<Parts>)
    requires (forall a | a in order :: a in db.actions) && forall r | r in receipts :: r in db.receipts
  {
    && |parts| == |order|
    && forall i | 0 <= i < |order| :: ActionParts(db, slots, order[i], ReceiptsOf(db, order[i], receipts)) == Success(parts[i])
  }

  method CaptureActions(db: Db, slots: Slots, order: seq<int>, receipts: seq<int>)
    returns (result: Result<Captured>, ghost parts: seq<Parts>)
    requires (forall a | a in order :: a in db.actions) && forall r | r in receipts :: r in db.receipts
    ensures result.Success? <==>
      forall a | a in order :: ActionParts(db, slots, a, ReceiptsOf(db, a, receipts)).Success?
    ensures result.Success? ==> PartsOf(db, slots, order, receipts, parts) && result.value == Collect(parts)
  {
    var captured := NOTHING;
    parts := [];
    hide ActionParts;
    hide WithParts;
    for i := 0 to |order|
      invariant PartsOf(db, slots, order[..i], receipts, parts) && captured == Collect(parts)
    {
      var a := order[i];
      assert a in order && order[..i + 1] == order[..i] + [a];
      match ActionParts(db, slots, a, ReceiptsOf(db, a, receipts))
      case Failure =>
        return Failure, parts;
      case Success(part) =>
        captured := WithParts(captured, part);
        parts := parts + [part];
        assert parts[..|parts| - 1] + [part] == parts;
    }
    assert order[..|order|] == order;
    assert forall a | a in order :: exists i :: 0 <= i < |order| && order[i] == a;
    result := Success(captured);
  }

  // ---------- observers and the closing check ----------

  predicate TruthyId(identity: Identity) {
    match identity
    case IntegerId(n) => n != 0
    case TextId(t) => t != ""
    case TextPair(_, _) => true
    case IntegerPair(_, _) => true
  }

  function ObserverPart(db: Db, firsts: map<(Family, int), Identity>, pair: (int, int)): Result<CapturedObserver>
    requires pair in db.observers
  {
    var known := (SentReply, pair.0) in firsts;
    if !known && !(pair.0 in db.actions && db.actions[pair.0].deliveryReceipt.Some?) then Failure
    else
      var legacy := if known && TruthyId(firsts[(SentReply, pair.0)])
                    then Some((firsts[(SentReply, pair.0)], pair.1)) else None;
      Success(CapturedObserver(pair.0, pair.1, db.observers[pair].task, db.observers[pair].createdAt, legacy))
  }

  method CaptureObservers(db: Db, firsts: map<(Family, int), Identity>, order: seq<(int, int)>)
    returns (result: Result<seq<CapturedObserver>>)
    requires forall pair | pair in order :: pair in db.observers
    ensures result.Success? <==> forall pair | pair in order :: ObserverPart(db, firsts, pair).Success?
    ensures result.Success? ==>
      && |result.value| == |order|
      && forall i | 0 <= i < |order| :: ObserverPart(db, firsts, order[i]) == Success(result.value[i])
  {
    var rows := [];
    for i := 0 to |order|
      invariant |rows| == i
      invariant forall k | 0 <= k < i :: ObserverPart(db, firsts, order[k]) == Success(rows[k])
    {
      assert order[i] in order;
      match ObserverPart(db, firsts, order[i])
      case Failure =>
        return Failure;
      case Success(row) =>
        rows := rows + [row];
    }
    assert forall pair | pair in order :: exists i :: 0 <= i < |order| && order[i] == pair;
    result := Success(rows);
  }

  const MAPPED_FAMILIES := { ExternalResult, CandidateAttempt, OutboundPostfix }

  /** The Actions a predecessor family stands for. */
  function RepresentedActions(db: Db, sents: seq<CapturedSent>): set<int> {
    (set s | s in sents :: s.action)
    + (set k | k in db.identities && k.0 in MAPPED_FAMILIES :: db.identities[k].action)
    + (set a | a in db.actions
               && (Truthy(db.actions[a].externalKey) || db.actions[a].planId.Some? || Addressed(db.actions[a])))
  }

  /** What SQL hands over: the rows of each table once, receipts by ID and the others in some order. */
  datatype Orders = Orders(
    identities: seq<(Family, Identity)>, actions: seq<int>, receipts: seq<int>, observers: seq<(int, int)>)

  ghost predicate OrdersOf(orders: Orders, db: Db) {
    && (forall k :: k in orders.identities <==> k in db.identities)
    && (forall a :: a in orders.actions <==> a in db.actions) && Once(orders.actions)
    && (forall r :: r in orders.receipts <==> r in db.receipts) && Ascending(orders.receipts)
    && (forall pair :: pair in orders.observers <==> pair in db.observers) && Once(orders.observers)
  }

  method CaptureInverseFacts(db: Db, orders: Orders)
    returns (result: Result<Captured>, ghost slots: Slots, ghost firsts: map<(Family, int), Identity>, ghost parts: seq<Parts>)
    requires OrdersOf(orders, db)
    ensures SlotsIndex(slots, db.identities, db.identities.Keys) && FirstsIndex(firsts, db.identities, db.identities.Keys)
    ensures (forall a | a in db.actions :: ActionParts(db, slots, a, ReceiptsOf(db, a, orders.receipts)).Success?) ==>
      PartsOf(db, slots, orders.actions, orders.receipts, parts)
    ensures result.Success? ==> result.value.(observers := []) == Collect(parts)
    ensures result.Success? ==>
      && |result.value.observers| == |orders.observers|
      && forall i | 0 <= i < |orders.observers| ::
           ObserverPart(db, firsts, orders.observers[i]) == Success(result.value.observers[i])
    ensures result.Success? ==>
      && |result.value.observers| == |orders.observers|
      && forall i | 0 <= i < |orders.observers| ::
           (result.value.observers[i].action, result.value.observers[i].run) == orders.observers[i]
    ensures result.Success? <==>
      && (forall a | a in db.actions :: ActionParts(db, slots, a, ReceiptsOf(db, a, orders.receipts)).Success?)
      && (forall pair | pair in db.observers :: ObserverPart(db, firsts, pair).Success?)
      && (forall a | a in db.actions :: a in RepresentedActions(db, Collect(parts).sents))
  {
    var index, first := IndexIdentities(db.identities, orders.identities);
    slots, firsts := index, first;
    var actions;
    actions, parts := CaptureActions(db, index, orders.actions, orders.receipts);
    if actions.Failure? {
      return Failure, slots, firsts, parts;
    }
    var observers := CaptureObservers(db, first, orders.observers);
    if observers.Failure? {
      return Failure, slots, firsts, parts;
    }
    var represented := RepresentedActions(db, actions.value.sents);
    if exists a | a in db.actions :: a !in represented {
      return Failure, slots, firsts, parts;
    }
    CollectNoObservers(parts);
    result := Success(actions.value.(observers := observers.value));
  }

  lemma CollectNoObservers(parts: seq<Parts>)
    ensures Collect(parts).observers == []
  {
  }
}
