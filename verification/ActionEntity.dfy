/** The common Action owner: its rows, its uniqueness rules and the guards its triggers declare. */
module ActionEntity {
  import opened Wrappers

  type Text = Option<string>

  datatype Action = Action(
    operation: Text, status: Text, planId: Text, externalKey: Text, nextAttemptAt: Text,
    startedAt: Text, createdAt: Text, updatedAt: Text, preparedBody: Text, preparedAt: Text,
    deliveryChannel: Text, deliveryKey: Text, feedbackToken: Text, postfixVersion: Text,
    deliveryReceipt: Option<int>, conversation: Text, trigger: Text, recallKey: Text,
    preparedReceipt: Option<int>, recallStatus: Text, recallError: Text, recalledAt: Text,
    agentRun: Option<int>, businessKey: Text, identity: Text)

  /** `execution` is the one column the declaration calls execution_id and the runtime execution_run_id. */
  datatype Receipt = Receipt(
    owner: int, attemptNumber: Option<int>, status: Text, operation: Text, target: Text,
    providerResultId: Text, body: Text, digest: Text, agentRun: Option<int>, observedAt: Text,
    errorText: Text, dispatchedAt: Text, startedAt: Text, finishedAt: Text,
    execution: Option<int>, actionIndex: Option<int>, outcome: Text, createdAt: Text,
    updatedAt: Text, provider: Option<int>)

  datatype Observation = Observation(task: int, createdAt: string)

  /** The source families an identity-map row can name. */
  datatype Family =
    | ExternalResult | CandidateAttempt | OutboundPostfix | PostfixReceipt
    | NativeDispatch | SentReply | SentObserver

  /** A source identity: one integer, one text, or a pair of either. */
  datatype Identity =
    | IntegerId(number: int)
    | TextId(text: string)
    | TextPair(channel: string, key: string)
    | IntegerPair(first: int, second: int)

  datatype Mapped = Mapped(action: int, receipt: Option<int>)

  type Identities = map<(Family, Identity), Mapped>

  /** The tables one transaction sees.  A row id is handed out once: ids below the marks are spent. */
  datatype Db = Db(
    actions: map<int, Action>, receipts: map<int, Receipt>,
    observers: map<(int, int), Observation>, identities: Identities,
    nextAction: int, nextReceipt: int)

  const BLANK_ACTION := Action(
    None, None, None, None, None, None, None, None, None, None, None, None, None,
    None, None, None, None, None, None, None, None, None, None, None, None)

  function BlankReceipt(owner: int): Receipt {
    Receipt(owner, None, None, None, None, None, None, None, None, None, None, None, None,
            None, None, None, None, None, None, None)
  }

  const ACTION_STATUSES := {
    "pending", "processing", "done", "skipped", "failed", "dispatched", "verified",
    "confirmed_no_effect", "uncertain" }
  const RECEIPT_STATUSES := {
    "done", "skipped", "failed", "dispatched", "verified", "confirmed_no_effect", "uncertain" }
  const DIRECT_OPERATIONS := { "archive", "flag_important", "mark_read", "move", "trash", "label" }

  predicate ActionStatusAllowed(action: Action) {
    action.status.Some? ==> action.status.value in ACTION_STATUSES
  }

  predicate ReceiptStatusAllowed(receipt: Receipt) {
    receipt.status.Some? ==> receipt.status.value in RECEIPT_STATUSES
  }

  /** Two rows one of the three unique Action indexes cannot hold together. */
  predicate Clash(x: Action, y: Action) {
    || (x.externalKey.Some? && x.externalKey == y.externalKey)
    || (x.planId.Some? && x.planId == y.planId && x.operation.Some? && x.operation == y.operation
        && x.operation.value in DIRECT_OPERATIONS)
    || (x.deliveryChannel.Some? && x.deliveryChannel == y.deliveryChannel
        && x.deliveryKey.Some? && x.deliveryKey == y.deliveryKey)
  }

  predicate NoOtherClashes(actions: map<int, Action>, id: int, action: Action) {
    forall other | other in actions && other != id :: !Clash(actions[other], action)
  }

  predicate DeliveryResolves(receipts: map<int, Receipt>, id: int, action: Action) {
    action.deliveryReceipt.Some? ==>
      action.deliveryReceipt.value in receipts && receipts[action.deliveryReceipt.value].owner == id
  }

  predicate PreparedResolves(receipts: map<int, Receipt>, id: int, action: Action) {
    action.preparedReceipt.Some? ==>
      && action.preparedReceipt.value in receipts
      && receipts[action.preparedReceipt.value].owner == id
      && receipts[action.preparedReceipt.value].body.Some?
  }

  predicate ProviderResolves(receipts: map<int, Receipt>, receipt: Receipt) {
    receipt.provider.Some? ==>
      && receipt.provider.value in receipts
      && receipts[receipt.provider.value].owner == receipt.owner
      && receipts[receipt.provider.value].body.Some?
  }

  /** The unique index on (execution, action index); NULL indexes are distinct from each other. */
  predicate SameSlot(x: Receipt, y: Receipt) {
    x.execution.Some? && x.execution == y.execution && x.actionIndex.Some? && x.actionIndex == y.actionIndex
  }

  predicate SlotFree(receipts: map<int, Receipt>, id: int, receipt: Receipt) {
    forall other | other in receipts && other != id :: !SameSlot(receipts[other], receipt)
  }

  // ---------- guards on the four kinds of row write ----------

  predicate CanCreateAction(db: Db, action: Action) {
    && ActionStatusAllowed(action)
    && NoOtherClashes(db.actions, db.nextAction, action)
    && DeliveryResolves(db.receipts, db.nextAction, action)
    && PreparedResolves(db.receipts, db.nextAction, action)
  }

  predicate CanUpdateAction(db: Db, id: int, action: Action)
    requires id in db.actions
  {
    && ActionStatusAllowed(action)
    && NoOtherClashes(db.actions, id, action)
    && (db.actions[id].deliveryReceipt != action.deliveryReceipt ==> DeliveryResolves(db.receipts, id, action))
    && (db.actions[id].preparedReceipt != action.preparedReceipt ==> PreparedResolves(db.receipts, id, action))
  }

  predicate CanInsertReceipt(db: Db, receipt: Receipt) {
    && receipt.owner in db.actions
    && ReceiptStatusAllowed(receipt)
    && SlotFree(db.receipts, db.nextReceipt, receipt)
    && ProviderResolves(db.receipts, receipt)
  }

  predicate IsDeliveryReceipt(db: Db, id: int, owner: int) {
    owner in db.actions && db.actions[owner].deliveryReceipt == Some(id)
  }

  predicate IsObservation(receipt: Receipt) {
    receipt.execution.Some? && receipt.actionIndex.Some?
  }

  /** The exception the lineage trigger makes for moving an exact provider reference. */
  predicate MayMoveProvider(db: Db, id: int, was: Receipt, now: Receipt) {
    && (IsDeliveryReceipt(db, id, was.owner)
        || (was.body.None? && was.execution.None? && was.actionIndex.None?)
        || IsObservation(was))
    && now.provider.Some? && now.provider.value in db.receipts
    && db.receipts[now.provider.value].owner == was.owner
    && (IsObservation(was) || now.observedAt == was.observedAt)
  }

  predicate KeepsLineage(db: Db, id: int, was: Receipt, now: Receipt) {
    && was.body == now.body
    && (was.digest != now.digest ==> was.digest.None? && IsDeliveryReceipt(db, id, was.owner))
    && (was.provider != now.provider ==> MayMoveProvider(db, id, was, now))
  }

  predicate CanUpdateReceipt(db: Db, id: int, receipt: Receipt)
    requires id in db.receipts
  {
    var was := db.receipts[id];
    && was.owner == receipt.owner
    && KeepsLineage(db, id, was, receipt)
    && (was.provider != receipt.provider ==> ProviderResolves(db.receipts, receipt))
    && ReceiptStatusAllowed(receipt)
    && SlotFree(db.receipts, id, receipt)
  }

  // ---------- what the guards keep ----------

  ghost predicate Coherent(db: Db) {
    && (forall id | id in db.actions :: id < db.nextAction)
    && (forall id | id in db.receipts :: id < db.nextReceipt)
    && (forall id | id in db.actions ::
          NoOtherClashes(db.actions, id, db.actions[id])
          && DeliveryResolves(db.receipts, id, db.actions[id])
          && PreparedResolves(db.receipts, id, db.actions[id]))
    && (forall id | id in db.receipts ::
          db.receipts[id].owner in db.actions
          && ProviderResolves(db.receipts, db.receipts[id])
          && SlotFree(db.receipts, id, db.receipts[id]))
    && (forall pair | pair in db.observers :: pair.0 in db.actions)
  }

  /** What no write may undo: receipts stay, with their owner, slot and body; a set digest or reference stays set. */
  ghost predicate Extends(before: Db, after: Db) {
    && before.actions.Keys <= after.actions.Keys
    && before.nextAction <= after.nextAction && before.nextReceipt <= after.nextReceipt
    && (forall id | id in before.receipts :: id in after.receipts && SameLineage(before.receipts[id], after.receipts[id]))
    && (forall pair | pair in before.observers :: pair in after.observers && after.observers[pair] == before.observers[pair])
  }

  predicate SameLineage(was: Receipt, now: Receipt) {
    && was.owner == now.owner && was.body == now.body
    && was.execution == now.execution && was.actionIndex == now.actionIndex
    && (was.digest.Some? ==> now.digest == was.digest)
    && (was.provider.Some? ==> now.provider.Some?)
  }

  // ---------- one row write ----------

  function WithAction(db: Db, action: Action): Db {
    db.(actions := db.actions[db.nextAction := action], nextAction := db.nextAction + 1)
  }

  function WithReceipt(db: Db, receipt: Receipt): Db {
    db.(receipts := db.receipts[db.nextReceipt := receipt], nextReceipt := db.nextReceipt + 1)
  }

  /** No receipt can belong to an Action that does not exist yet. */
  lemma NothingOwnedYet(db: Db, reference: Option<int>)
    requires Coherent(db)
    ensures reference.Some? && reference.value in db.receipts ==> db.receipts[reference.value].owner != db.nextAction
  {
    if reference.Some? && reference.value in db.receipts {
      var id := reference.value;
      assert db.receipts[id].owner in db.actions;
    }
  }

  lemma CreateActionCoherent(db: Db, action: Action)
    requires Coherent(db) && CanCreateAction(db, action)
    ensures Coherent(WithAction(db, action)) && Extends(db, WithAction(db, action))
    ensures action.deliveryReceipt.None? && action.preparedReceipt.None?
  {
    var after := WithAction(db, action);
    assert db.nextAction !in db.actions;
    NothingOwnedYet(db, action.deliveryReceipt);
    NothingOwnedYet(db, action.preparedReceipt);
    forall id | id in after.actions
      ensures NoOtherClashes(after.actions, id, after.actions[id])
    {
    }
  }

  lemma UpdateActionCoherent(db: Db, id: int, action: Action)
    requires Coherent(db) && id in db.actions && CanUpdateAction(db, id, action)
    ensures Coherent(db.(actions := db.actions[id := action]))
  {
    var after := db.(actions := db.actions[id := action]);
    forall other | other in after.actions
      ensures NoOtherClashes(after.actions, other, after.actions[other])
    {
    }
  }

  /** A receipt table that keeps owner and body of every row it had. */
  ghost predicate KeepsRows(before: map<int, Receipt>, after: map<int, Receipt>) {
    forall id | id in before :: id in after && after[id].owner == before[id].owner && after[id].body == before[id].body
  }

  lemma ReferencesStay(before: map<int, Receipt>, after: map<int, Receipt>, id: int, action: Action)
    requires KeepsRows(before, after)
    ensures DeliveryResolves(before, id, action) ==> DeliveryResolves(after, id, action)
    ensures PreparedResolves(before, id, action) ==> PreparedResolves(after, id, action)
  {
    if action.deliveryReceipt.Some? {
      var r := action.deliveryReceipt.value;
      assert r in before ==> r in after && after[r].owner == before[r].owner;
    }
    if action.preparedReceipt.Some? {
      var r := action.preparedReceipt.value;
      assert r in before ==> r in after && after[r].owner == before[r].owner && after[r].body == before[r].body;
    }
  }

  lemma ProviderStays(before: map<int, Receipt>, after: map<int, Receipt>, receipt: Receipt)
    requires KeepsRows(before, after) && ProviderResolves(before, receipt)
    ensures ProviderResolves(after, receipt)
  {
    if receipt.provider.Some? {
      var r := receipt.provider.value;
      assert r in before && r in after;
    }
  }

  lemma SlotStays(receipts: map<int, Receipt>, at: int, receipt: Receipt, id: int)
    requires id in receipts && id != at && SlotFree(receipts, id, receipts[id]) && SlotFree(receipts, at, receipt)
    ensures SlotFree(receipts[at := receipt], id, receipts[id]) && SlotFree(receipts[at := receipt], at, receipt)
  {
  }

  lemma SlotTaken(receipts: map<int, Receipt>, at: int, receipt: Receipt)
    requires SlotFree(receipts, at, receipt)
    ensures SlotFree(receipts[at := receipt], at, receipt)
  {
  }

  /** The rows around a written receipt: its own reference and slot are right, the others keep theirs. */
  lemma ReceiptWritten(db: Db, at: int, receipt: Receipt)
    requires Coherent(db) && receipt.owner in db.actions && KeepsRows(db.receipts, db.receipts[at := receipt])
    requires SlotFree(db.receipts, at, receipt) && ProviderResolves(db.receipts, receipt) && at < db.nextReceipt
    ensures Coherent(db.(receipts := db.receipts[at := receipt]))
  {
    var after := db.receipts[at := receipt];
    SlotTaken(db.receipts, at, receipt);
    ProviderStays(db.receipts, after, receipt);
    forall id | id in db.receipts && id != at
      ensures SlotFree(after, id, after[id]) && ProviderResolves(after, after[id]) && after[id].owner in db.actions
    {
      SlotStays(db.receipts, at, receipt, id);
      ProviderStays(db.receipts, after, db.receipts[id]);
    }
    forall id | id in db.actions
      ensures DeliveryResolves(after, id, db.actions[id]) && PreparedResolves(after, id, db.actions[id])
    {
      ReferencesStay(db.receipts, after, id, db.actions[id]);
    }
    hide DeliveryResolves;
    hide PreparedResolves;
    hide NoOtherClashes;
    hide SlotFree;
    hide ProviderResolves;
    hide KeepsRows;
  }

  lemma Advanced(db: Db)
    requires Coherent(db)
    ensures Coherent(db.(nextReceipt := db.nextReceipt + 1)) && db.nextReceipt !in db.receipts
  {
    hide DeliveryResolves;
    hide PreparedResolves;
    hide NoOtherClashes;
    hide SlotFree;
    hide ProviderResolves;
  }

  lemma InsertReceiptCoherent(db: Db, receipt: Receipt)
    requires Coherent(db) && CanInsertReceipt(db, receipt)
    ensures Coherent(WithReceipt(db, receipt)) && Extends(db, WithReceipt(db, receipt))
  {
    Advanced(db);
    hide Coherent;
    ReceiptWritten(db.(nextReceipt := db.nextReceipt + 1), db.nextReceipt, receipt);
    hide SlotFree;
    hide ProviderResolves;
  }

  lemma UpdateReceiptCoherent(db: Db, id: int, receipt: Receipt)
    requires Coherent(db) && id in db.receipts && CanUpdateReceipt(db, id, receipt)
    ensures Coherent(db.(receipts := db.receipts[id := receipt]))
    ensures
      var was := db.receipts[id];
      && receipt.owner == was.owner && receipt.body == was.body
      && (was.digest.Some? ==> receipt.digest == was.digest)
      && (receipt.provider != was.provider ==>
            receipt.provider.Some?
            && (receipt.observedAt == was.observedAt || (was.execution.Some? && was.actionIndex.Some?)))
  {
    OwnerThere(db, id);
    hide Coherent;
    ReceiptWritten(db, id, receipt);
    hide SlotFree;
  }

  lemma OwnerThere(db: Db, id: int)
    requires Coherent(db) && id in db.receipts
    ensures db.receipts[id].owner in db.actions && id < db.nextReceipt && ProviderResolves(db.receipts, db.receipts[id])
  {
    hide DeliveryResolves;
    hide PreparedResolves;
    hide NoOtherClashes;
    hide SlotFree;
    hide ProviderResolves;
  }
}
