/** The runtime calls on Actions and receipts, and what every run of them keeps. */
module Ledger {
  import opened Wrappers
  import opened ActionEntity

  // ---------- field-wise reads and writes ----------

  datatype TextField =
    | OperationF | StatusF | PlanIdF | ExternalKeyF | NextAttemptAtF | StartedAtF | CreatedAtF
    | UpdatedAtF | PreparedBodyF | PreparedAtF | DeliveryChannelF | DeliveryKeyF | FeedbackTokenF
    | PostfixVersionF | ConversationF | TriggerF | RecallKeyF | RecallStatusF | RecallErrorF
    | RecalledAtF | BusinessKeyF | IdentityF

  datatype NumberField = DeliveryReceiptF | PreparedReceiptF | AgentRunF

  datatype Patch = Patch(texts: map<TextField, Text>, numbers: map<NumberField, Option<int>>)

  predicate Blank(patch: Patch) {
    patch.texts == map[] && patch.numbers == map[]
  }

  function TextOf(action: Action, field: TextField): Text {
    match field
    case OperationF => action.operation
    case StatusF => action.status
    case PlanIdF => action.planId
    case ExternalKeyF => action.externalKey
    case NextAttemptAtF => action.nextAttemptAt
    case StartedAtF => action.startedAt
    case CreatedAtF => action.createdAt
    case UpdatedAtF => action.updatedAt
    case PreparedBodyF => action.preparedBody
    case PreparedAtF => action.preparedAt
    case DeliveryChannelF => action.deliveryChannel
    case DeliveryKeyF => action.deliveryKey
    case FeedbackTokenF => action.feedbackToken
    case PostfixVersionF => action.postfixVersion
    case ConversationF => action.conversation
    case TriggerF => action.trigger
    case RecallKeyF => action.recallKey
    case RecallStatusF => action.recallStatus
    case RecallErrorF => action.recallError
    case RecalledAtF => action.recalledAt
    case BusinessKeyF => action.businessKey
    case IdentityF => action.identity
  }

  function NumberOf(action: Action, field: NumberField): Option<int> {
    match field
    case DeliveryReceiptF => action.deliveryReceipt
    case PreparedReceiptF => action.preparedReceipt
    case AgentRunF => action.agentRun
  }

  predicate Matches(action: Action, expected: Patch) {
    && (forall f | f in expected.texts :: TextOf(action, f) == expected.texts[f])
    && (forall f | f in expected.numbers :: NumberOf(action, f) == expected.numbers[f])
  }

  function NewText(action: Action, changes: Patch, field: TextField): Text {
    if field in changes.texts then changes.texts[field] else TextOf(action, field)
  }

  function NewNumber(action: Action, changes: Patch, field: NumberField): Option<int> {
    if field in changes.numbers then changes.numbers[field] else NumberOf(action, field)
  }

  function Changed(action: Action, changes: Patch): Action {
    Action(
      NewText(action, changes, OperationF), NewText(action, changes, StatusF),
      NewText(action, changes, PlanIdF), NewText(action, changes, ExternalKeyF),
      NewText(action, changes, NextAttemptAtF), NewText(action, changes, StartedAtF),
      NewText(action, changes, CreatedAtF), NewText(action, changes, UpdatedAtF),
      NewText(action, changes, PreparedBodyF), NewText(action, changes, PreparedAtF),
      NewText(action, changes, DeliveryChannelF), NewText(action, changes, DeliveryKeyF),
      NewText(action, changes, FeedbackTokenF), NewText(action, changes, PostfixVersionF),
      NewNumber(action, changes, DeliveryReceiptF), NewText(action, changes, ConversationF),
      NewText(action, changes, TriggerF), NewText(action, changes, RecallKeyF),
      NewNumber(action, changes, PreparedReceiptF), NewText(action, changes, RecallStatusF),
      NewText(action, changes, RecallErrorF), NewText(action, changes, RecalledAtF),
      NewNumber(action, changes, AgentRunF), NewText(action, changes, BusinessKeyF),
      NewText(action, changes, IdentityF))
  }

  /** The receipt columns the two compare-and-set calls may name. */
  datatype ReceiptTextField =
    | ROperation | RTarget | RDigest | RCreatedAt | RUpdatedAt | RStatus | ROutcome | RObservedAt

  datatype ReceiptNumberField = RProvider | RAgentRun

  datatype ReceiptPatch = ReceiptPatch(
    texts: map<ReceiptTextField, Text>, numbers: map<ReceiptNumberField, Option<int>>)

  const SENT_TEXTS := { ROperation, RTarget, RDigest, RCreatedAt, RUpdatedAt }
  const OBSERVATION_TEXTS := { RStatus, ROutcome, RObservedAt, RUpdatedAt }

  predicate BlankReceiptPatch(patch: ReceiptPatch) {
    patch.texts == map[] && patch.numbers == map[]
  }

  function ReceiptText(receipt: Receipt, field: ReceiptTextField): Text {
    match field
    case ROperation => receipt.operation
    case RTarget => receipt.target
    case RDigest => receipt.digest
    case RCreatedAt => receipt.createdAt
    case RUpdatedAt => receipt.updatedAt
    case RStatus => receipt.status
    case ROutcome => receipt.outcome
    case RObservedAt => receipt.observedAt
  }

  function ReceiptNumber(receipt: Receipt, field: ReceiptNumberField): Option<int> {
    match field
    case RProvider => receipt.provider
    case RAgentRun => receipt.agentRun
  }

  predicate ReceiptMatches(receipt: Receipt, expected: ReceiptPatch) {
    && (forall f | f in expected.texts :: ReceiptText(receipt, f) == expected.texts[f])
    && (forall f | f in expected.numbers :: ReceiptNumber(receipt, f) == expected.numbers[f])
  }

  function NewReceiptText(receipt: Receipt, changes: ReceiptPatch, field: ReceiptTextField): Text {
    if field in changes.texts then changes.texts[field] else ReceiptText(receipt, field)
  }

  function NewReceiptNumber(receipt: Receipt, changes: ReceiptPatch, field: ReceiptNumberField): Option<int> {
    if field in changes.numbers then changes.numbers[field] else ReceiptNumber(receipt, field)
  }

  function ChangedReceipt(receipt: Receipt, changes: ReceiptPatch): Receipt {
    receipt.(
      operation := NewReceiptText(receipt, changes, ROperation),
      target := NewReceiptText(receipt, changes, RTarget),
      digest := NewReceiptText(receipt, changes, RDigest),
      createdAt := NewReceiptText(receipt, changes, RCreatedAt),
      updatedAt := NewReceiptText(receipt, changes, RUpdatedAt),
      status := NewReceiptText(receipt, changes, RStatus),
      outcome := NewReceiptText(receipt, changes, ROutcome),
      observedAt := NewReceiptText(receipt, changes, RObservedAt),
      provider := NewReceiptNumber(receipt, changes, RProvider),
      agentRun := NewReceiptNumber(receipt, changes, RAgentRun))
  }

  // ---------- the calls ----------

  datatype Call =
    | Create(action: Action)
    | CompareAndSet(id: int, expected: Patch, changes: Patch)
    | Append(receipt: Receipt)
    | UpdateSent(owner: int, receiptId: int, was: ReceiptPatch, now: ReceiptPatch)
    | UpdateObservation(owner: int, execution: int, index: int, was: ReceiptPatch, now: ReceiptPatch)
    | Observe(owner: int, run: int, observation: Observation)

  /** Wrote the row with this id, matched no row, or raised. */
  datatype Reply = Wrote(id: int) | NoRow | Raised

  predicate PatchesAllowed(was: ReceiptPatch, now: ReceiptPatch, texts: set<ReceiptTextField>) {
    && was.texts.Keys <= texts && now.texts.Keys <= texts
    && !BlankReceiptPatch(was) && !BlankReceiptPatch(now)
  }

  function PutReceipt(db: Db, id: int, receipt: Receipt): (Db, Reply)
    requires id in db.receipts
  {
    if CanUpdateReceipt(db, id, receipt)
    then (db.(receipts := db.receipts[id := receipt]), Wrote(id))
    else (db, Raised)
  }

  function PutAction(db: Db, id: int, action: Action): (Db, Reply)
    requires id in db.actions
  {
    if CanUpdateAction(db, id, action)
    then (db.(actions := db.actions[id := action]), Wrote(id))
    else (db, Raised)
  }

  predicate IsObservationRow(db: Db, id: int, owner: int, execution: int, index: int, was: ReceiptPatch) {
    && id in db.receipts && db.receipts[id].owner == owner
    && db.receipts[id].execution == Some(execution) && db.receipts[id].actionIndex == Some(index)
    && ReceiptMatches(db.receipts[id], was)
  }

  function CreateStep(db: Db, action: Action): (Db, Reply) {
    if CanCreateAction(db, action) then (WithAction(db, action), Wrote(db.nextAction)) else (db, Raised)
  }

  function CompareAndSetStep(db: Db, id: int, expected: Patch, changes: Patch): (Db, Reply) {
    if Blank(expected) || Blank(changes) then (db, Raised)
    else if id !in db.actions || !Matches(db.actions[id], expected) then (db, NoRow)
    else PutAction(db, id, Changed(db.actions[id], changes))
  }

  function AppendStep(db: Db, receipt: Receipt): (Db, Reply) {
    if CanInsertReceipt(db, receipt) then (WithReceipt(db, receipt), Wrote(db.nextReceipt)) else (db, Raised)
  }

  predicate IsSentRow(db: Db, id: int, owner: int, was: ReceiptPatch) {
    && id in db.receipts && db.receipts[id].owner == owner
    && db.receipts[id].execution.None? && db.receipts[id].actionIndex.None?
    && ReceiptMatches(db.receipts[id], was)
  }

  function UpdateSentStep(db: Db, owner: int, id: int, was: ReceiptPatch, now: ReceiptPatch): (Db, Reply) {
    if !PatchesAllowed(was, now, SENT_TEXTS) then (db, Raised)
    else if !IsSentRow(db, id, owner, was) then (db, NoRow)
    else PutReceipt(db, id, ChangedReceipt(db.receipts[id], now))
  }

  ghost function UpdateObservationStep(
    db: Db, owner: int, execution: int, index: int, was: ReceiptPatch, now: ReceiptPatch): (Db, Reply)
  {
    if !PatchesAllowed(was, now, OBSERVATION_TEXTS) then (db, Raised)
    else if !exists id :: IsObservationRow(db, id, owner, execution, index, was) then (db, NoRow)
    else
      var id :| IsObservationRow(db, id, owner, execution, index, was);
      PutReceipt(db, id, ChangedReceipt(db.receipts[id], now))
  }

  function ObserveStep(db: Db, owner: int, run: int, observation: Observation): (Db, Reply) {
    if owner !in db.actions || (owner, run) in db.observers then (db, NoRow)
    else (db.(observers := db.observers[(owner, run) := observation]), Wrote(owner))
  }

  ghost function Step(db: Db, call: Call): (Db, Reply) {
    match call
    case Create(action) => CreateStep(db, action)
    case CompareAndSet(id, expected, changes) => CompareAndSetStep(db, id, expected, changes)
    case Append(receipt) => AppendStep(db, receipt)
    case UpdateSent(owner, id, was, now) => UpdateSentStep(db, owner, id, was, now)
    case UpdateObservation(owner, execution, index, was, now) =>
      UpdateObservationStep(db, owner, execution, index, was, now)
    case Observe(owner, run, observation) => ObserveStep(db, owner, run, observation)
  }

  // ---------- every step, every run ----------

  lemma PutActionKeepsLedger(db: Db, id: int, action: Action)
    requires Coherent(db) && id in db.actions
    ensures Coherent(PutAction(db, id, action).0) && Extends(db, PutAction(db, id, action).0)
  {
    if CanUpdateAction(db, id, action) { UpdateActionCoherent(db, id, action); }
  }

  lemma PutReceiptKeepsLedger(db: Db, id: int, receipt: Receipt)
    requires Coherent(db) && id in db.receipts
    requires receipt.execution == db.receipts[id].execution && receipt.actionIndex == db.receipts[id].actionIndex
    ensures Coherent(PutReceipt(db, id, receipt).0) && Extends(db, PutReceipt(db, id, receipt).0)
  {
    if CanUpdateReceipt(db, id, receipt) { UpdateReceiptCoherent(db, id, receipt); }
  }

  lemma CompareAndSetKeepsLedger(db: Db, id: int, expected: Patch, changes: Patch)
    requires Coherent(db)
    ensures Coherent(CompareAndSetStep(db, id, expected, changes).0)
    ensures Extends(db, CompareAndSetStep(db, id, expected, changes).0)
  {
    if id in db.actions { PutActionKeepsLedger(db, id, Changed(db.actions[id], changes)); }
  }

  lemma ChangedKeepsSlot(receipt: Receipt, changes: ReceiptPatch)
    ensures ChangedReceipt(receipt, changes).execution == receipt.execution
    ensures ChangedReceipt(receipt, changes).actionIndex == receipt.actionIndex
  {
  }

  lemma UpdateSentKeepsLedger(db: Db, owner: int, id: int, was: ReceiptPatch, now: ReceiptPatch)
    requires Coherent(db)
    ensures Coherent(UpdateSentStep(db, owner, id, was, now).0)
    ensures Extends(db, UpdateSentStep(db, owner, id, was, now).0)
  {
    hide Coherent;
    hide Extends;
    hide PutReceipt;
    hide ChangedReceipt;
    SameExtends(db);
    if id in db.receipts {
      ChangedKeepsSlot(db.receipts[id], now);
      PutReceiptKeepsLedger(db, id, ChangedReceipt(db.receipts[id], now));
    }
  }

  lemma SameExtends(db: Db)
    ensures Extends(db, db)
  {
  }

  lemma UpdateObservationKeepsLedger(
    db: Db, owner: int, execution: int, index: int, was: ReceiptPatch, now: ReceiptPatch)
    requires Coherent(db)
    ensures Coherent(UpdateObservationStep(db, owner, execution, index, was, now).0)
    ensures Extends(db, UpdateObservationStep(db, owner, execution, index, was, now).0)
  {
    if PatchesAllowed(was, now, OBSERVATION_TEXTS) && exists id :: IsObservationRow(db, id, owner, execution, index, was) {
      var id :| IsObservationRow(db, id, owner, execution, index, was)
        && UpdateObservationStep(db, owner, execution, index, was, now)
           == PutReceipt(db, id, ChangedReceipt(db.receipts[id], now));
      PutReceiptKeepsLedger(db, id, ChangedReceipt(db.receipts[id], now));
    }
  }

  lemma InsertsKeepLedger(db: Db, action: Action, receipt: Receipt)
    requires Coherent(db)
    ensures Coherent(CreateStep(db, action).0) && Extends(db, CreateStep(db, action).0)
    ensures Coherent(AppendStep(db, receipt).0) && Extends(db, AppendStep(db, receipt).0)
  {
    if CanCreateAction(db, action) { CreateActionCoherent(db, action); }
    if CanInsertReceipt(db, receipt) { InsertReceiptCoherent(db, receipt); }
  }

  lemma StepKeepsLedger(db: Db, call: Call)
    requires Coherent(db)
    ensures Coherent(Step(db, call).0) && Extends(db, Step(db, call).0)
  {
    hide Coherent;
    hide Extends;
    hide CreateStep;
    hide CompareAndSetStep;
    hide AppendStep;
    hide UpdateSentStep;
    hide UpdateObservationStep;
    hide ObserveStep;
    match call
    case Create(action) => InsertsKeepLedger(db, action, BlankReceipt(0));
    case CompareAndSet(id, expected, changes) => CompareAndSetKeepsLedger(db, id, expected, changes);
    case Append(receipt) => InsertsKeepLedger(db, BLANK_ACTION, receipt);
    case UpdateSent(owner, id, was, now) => UpdateSentKeepsLedger(db, owner, id, was, now);
    case UpdateObservation(owner, execution, index, was, now) =>
      UpdateObservationKeepsLedger(db, owner, execution, index, was, now);
    case Observe(owner, run, observation) => ObserveKeepsLedger(db, owner, run, observation);
  }

  lemma ObserveKeepsLedger(db: Db, owner: int, run: int, observation: Observation)
    requires Coherent(db)
    ensures Coherent(ObserveStep(db, owner, run, observation).0) && Extends(db, ObserveStep(db, owner, run, observation).0)
  {
  }

  /** The unique slot index: the row an observation update names is the only one. */
  lemma ObservationRowUnique(db: Db, a: int, b: int, owner: int, execution: int, index: int, was: ReceiptPatch)
    requires Coherent(db)
    requires IsObservationRow(db, a, owner, execution, index, was)
    requires IsObservationRow(db, b, owner, execution, index, was)
    ensures a == b
  {
    assert SlotFree(db.receipts, a, db.receipts[a]);
    assert SameSlot(db.receipts[b], db.receipts[a]);
  }

  ghost function Run(db: Db, calls: seq<Call>): Db
    decreases |calls|
  {
    if calls == [] then db else Run(Step(db, calls[0]).0, calls[1..])
  }

  /**
   * After any run from a coherent state every reference still resolves inside its Action, and every
   * receipt the run started with is still there with its owner, slot, body and once-set digest.
   */
  lemma {:induction false} RunKeepsLedger(db: Db, calls: seq<Call>)
    requires Coherent(db)
    ensures Coherent(Run(db, calls)) && Extends(db, Run(db, calls))
    decreases |calls|
  {
    hide Coherent;
    hide Step;
    if calls != [] {
      StepKeepsLedger(db, calls[0]);
      RunKeepsLedger(Step(db, calls[0]).0, calls[1..]);
    }
  }

  lemma LosersChangeNothing(db: Db, call: Call)
    requires !Step(db, call).1.Wrote?
    ensures Step(db, call).0 == db
  {
  }

  // ---------- claims ----------

  /** A call that leaves `id`'s status alone. */
  predicate LeavesStatus(call: Call, id: int) {
    call.CompareAndSet? && call.id == id ==> StatusF !in call.changes.texts
  }

  /** A claim on `id`: it expects `status` and changes it to something else. */
  predicate IsClaim(call: Call, id: int, status: Text) {
    && call.CompareAndSet? && call.id == id
    && StatusF in call.expected.texts && call.expected.texts[StatusF] == status
    && StatusF in call.changes.texts && call.changes.texts[StatusF] != status
  }

  /** The columns of the unique Action indexes. */
  const INDEX_COLUMNS := { OperationF, PlanIdF, ExternalKeyF, DeliveryChannelF, DeliveryKeyF }

  /** A claim with this expectation, to a status the column admits, that stays off indexes and receipt references. */
  predicate IsFreeClaim(call: Call, id: int, expected: Patch)
    requires StatusF in expected.texts
  {
    && IsClaim(call, id, expected.texts[StatusF]) && call.expected == expected
    && (call.changes.texts[StatusF].Some? ==> call.changes.texts[StatusF].value in ACTION_STATUSES)
    && call.changes.texts.Keys !! INDEX_COLUMNS
    && DeliveryReceiptF !in call.changes.numbers && PreparedReceiptF !in call.changes.numbers
  }

  /** A call that leaves the expected fields of `id` alone. */
  predicate LeavesExpected(call: Call, id: int, expected: Patch) {
    call.CompareAndSet? && call.id == id ==>
      call.changes.texts.Keys !! expected.texts.Keys && call.changes.numbers.Keys !! expected.numbers.Keys
  }

  /** How many of the calls on `id` that name the status wrote a row. */
  ghost function Winners(db: Db, calls: seq<Call>, id: int): nat
    decreases |calls|
  {
    if calls == [] then 0
    else
      (if !LeavesStatus(calls[0], id) && Step(db, calls[0]).1.Wrote? then 1 else 0)
      + Winners(Step(db, calls[0]).0, calls[1..], id)
  }

  lemma StepStatus(db: Db, call: Call, id: int)
    requires Coherent(db) && id in db.actions
    ensures id in Step(db, call).0.actions
    ensures LeavesStatus(call, id) ==> Step(db, call).0.actions[id].status == db.actions[id].status
    ensures !LeavesStatus(call, id) && Step(db, call).1.Wrote? ==>
      Matches(db.actions[id], call.expected)
      && Step(db, call).0.actions[id].status == call.changes.texts[StatusF]
  {
  }

  /** Once the status has moved off the expected one, no claim wins any more. */
  lemma {:induction false} NoWinnerOnceMoved(db: Db, calls: seq<Call>, id: int, status: Text)
    requires Coherent(db) && id in db.actions && db.actions[id].status != status
    requires forall i | 0 <= i < |calls| :: LeavesStatus(calls[i], id) || IsClaim(calls[i], id, status)
    ensures Winners(db, calls, id) == 0
    decreases |calls|
  {
    if calls != [] {
      StepStatus(db, calls[0], id);
      StepKeepsLedger(db, calls[0]);
      assert TextOf(db.actions[id], StatusF) == db.actions[id].status;
      NoWinnerOnceMoved(Step(db, calls[0]).0, calls[1..], id, status);
    }
  }

  /** However claims interleave with each other and with any other calls, at most one of them wins. */
  lemma {:induction false} AtMostOneWinner(db: Db, calls: seq<Call>, id: int, status: Text)
    requires Coherent(db) && id in db.actions
    requires forall i | 0 <= i < |calls| :: LeavesStatus(calls[i], id) || IsClaim(calls[i], id, status)
    ensures Winners(db, calls, id) <= 1
    decreases |calls|
  {
    if calls != [] {
      StepStatus(db, calls[0], id);
      StepKeepsLedger(db, calls[0]);
      var next := Step(db, calls[0]).0;
      if next.actions[id].status != status {
        NoWinnerOnceMoved(next, calls[1..], id, status);
      } else {
        AtMostOneWinner(next, calls[1..], id, status);
      }
    }
  }

  /** What a write that stays off the index columns leaves as it was. */
  lemma ChangedElsewhere(action: Action, changes: Patch)
    requires changes.texts.Keys !! INDEX_COLUMNS
    requires DeliveryReceiptF !in changes.numbers && PreparedReceiptF !in changes.numbers
    ensures
      var now := Changed(action, changes);
      && now.operation == action.operation && now.planId == action.planId && now.externalKey == action.externalKey
      && now.deliveryChannel == action.deliveryChannel && now.deliveryKey == action.deliveryKey
      && now.deliveryReceipt == action.deliveryReceipt && now.preparedReceipt == action.preparedReceipt
      && now.status == if StatusF in changes.texts then changes.texts[StatusF] else action.status
  {
  }

  lemma ElsewhereAllowed(db: Db, id: int, now: Action)
    requires Coherent(db) && id in db.actions && ActionStatusAllowed(now)
    requires
      var was := db.actions[id];
      && now.operation == was.operation && now.planId == was.planId && now.externalKey == was.externalKey
      && now.deliveryChannel == was.deliveryChannel && now.deliveryKey == was.deliveryKey
      && now.deliveryReceipt == was.deliveryReceipt && now.preparedReceipt == was.preparedReceipt
    ensures CanUpdateAction(db, id, now)
  {
    forall other | other in db.actions && other != id ensures !Clash(db.actions[other], now) {
      assert !Clash(db.actions[other], db.actions[id]);
    }
  }

  /** A free claim on an Action that matches its expectation goes through. */
  lemma FreeClaimWins(db: Db, call: Call, id: int, expected: Patch)
    requires Coherent(db) && id in db.actions && StatusF in expected.texts && Matches(db.actions[id], expected)
    requires IsFreeClaim(call, id, expected)
    ensures Step(db, call) == (db.(actions := db.actions[id := Changed(db.actions[id], call.changes)]), Wrote(id))
    ensures Step(db, call).0.actions[id].status == call.changes.texts[StatusF]
  {
    ChangedElsewhere(db.actions[id], call.changes);
    ElsewhereAllowed(db, id, Changed(db.actions[id], call.changes));
    hide Changed;
    hide Coherent;
    hide CanUpdateAction;
  }

  /** Reading a changed Action field by field. */
  lemma ChangedText(action: Action, changes: Patch, f: TextField)
    ensures TextOf(Changed(action, changes), f) == NewText(action, changes, f)
  {
    hide NewText;
    hide NewNumber;
  }

  lemma ChangedNumber(action: Action, changes: Patch, f: NumberField)
    ensures NumberOf(Changed(action, changes), f) == NewNumber(action, changes, f)
  {
    hide NewText;
    hide NewNumber;
  }

  lemma ChangedMatches(action: Action, changes: Patch, expected: Patch)
    requires Matches(action, expected)
    requires changes.texts.Keys !! expected.texts.Keys && changes.numbers.Keys !! expected.numbers.Keys
    ensures Matches(Changed(action, changes), expected)
  {
    hide Changed;
    hide TextOf;
    hide NumberOf;
    forall f | f in expected.texts ensures TextOf(Changed(action, changes), f) == TextOf(action, f) {
      assert f !in changes.texts;
      ChangedText(action, changes, f);
    }
    forall f | f in expected.numbers ensures NumberOf(Changed(action, changes), f) == NumberOf(action, f) {
      assert f !in changes.numbers;
      ChangedNumber(action, changes, f);
    }
  }

  lemma StepMatches(db: Db, call: Call, id: int, expected: Patch)
    requires Coherent(db) && id in db.actions && Matches(db.actions[id], expected) && LeavesExpected(call, id, expected)
    ensures id in Step(db, call).0.actions && Matches(Step(db, call).0.actions[id], expected)
  {
    if call.CompareAndSet? && call.id == id { ChangedMatches(db.actions[id], call.changes, expected); }
    hide Matches;
    hide Changed;
  }

  /**
   * Claims that share an expectation the Action meets, whatever else they write off the indexes, interleaved
   * with any calls that leave the expected fields alone: the first claim wins and no other does.
   */
  lemma {:induction false} ExactlyOneWinner(db: Db, calls: seq<Call>, id: int, expected: Patch)
    requires Coherent(db) && id in db.actions && StatusF in expected.texts && Matches(db.actions[id], expected)
    requires forall i | 0 <= i < |calls| :: LeavesExpected(calls[i], id, expected) || IsFreeClaim(calls[i], id, expected)
    ensures Winners(db, calls, id) == if exists i :: 0 <= i < |calls| && IsFreeClaim(calls[i], id, expected) then 1 else 0
    decreases |calls|
  {
    if calls != [] {
      StepKeepsLedger(db, calls[0]);
      StepStatus(db, calls[0], id);
      hide Step;
      hide Coherent;
      hide Extends;
      var next := Step(db, calls[0]).0;
      if IsFreeClaim(calls[0], id, expected) {
        FreeClaimWins(db, calls[0], id, expected);
        forall i | 0 <= i < |calls[1..]|
          ensures LeavesStatus(calls[1..][i], id) || IsClaim(calls[1..][i], id, expected.texts[StatusF])
        {
          assert calls[1..][i] == calls[i + 1];
        }
        NoWinnerOnceMoved(next, calls[1..], id, expected.texts[StatusF]);
      } else {
        StepMatches(db, calls[0], id, expected);
        ExactlyOneWinner(next, calls[1..], id, expected);
        assert forall i | 1 <= i < |calls| :: calls[i] == calls[1..][i - 1];
      }
    }
  }

  // ---------- what the calls promise, column by column ----------

  predicate StatusMeets(action: Action, expected: Patch) {
    && (OperationF in expected.texts ==> action.operation == expected.texts[OperationF])
    && (StatusF in expected.texts ==> action.status == expected.texts[StatusF])
    && (PlanIdF in expected.texts ==> action.planId == expected.texts[PlanIdF])
    && (AgentRunF in expected.numbers ==> action.agentRun == expected.numbers[AgentRunF])
  }

  predicate ClockMeets(action: Action, expected: Patch) {
    && (NextAttemptAtF in expected.texts ==> action.nextAttemptAt == expected.texts[NextAttemptAtF])
    && (StartedAtF in expected.texts ==> action.startedAt == expected.texts[StartedAtF])
    && (CreatedAtF in expected.texts ==> action.createdAt == expected.texts[CreatedAtF])
    && (UpdatedAtF in expected.texts ==> action.updatedAt == expected.texts[UpdatedAtF])
  }

  predicate PreparedMeets(action: Action, expected: Patch) {
    && (PreparedBodyF in expected.texts ==> action.preparedBody == expected.texts[PreparedBodyF])
    && (PreparedAtF in expected.texts ==> action.preparedAt == expected.texts[PreparedAtF])
    && (PreparedReceiptF in expected.numbers ==> action.preparedReceipt == expected.numbers[PreparedReceiptF])
  }

  predicate AddressMeets(action: Action, expected: Patch) {
    && (DeliveryChannelF in expected.texts ==> action.deliveryChannel == expected.texts[DeliveryChannelF])
    && (DeliveryKeyF in expected.texts ==> action.deliveryKey == expected.texts[DeliveryKeyF])
    && (DeliveryReceiptF in expected.numbers ==> action.deliveryReceipt == expected.numbers[DeliveryReceiptF])
  }

  predicate TokenMeets(action: Action, expected: Patch) {
    && (FeedbackTokenF in expected.texts ==> action.feedbackToken == expected.texts[FeedbackTokenF])
    && (PostfixVersionF in expected.texts ==> action.postfixVersion == expected.texts[PostfixVersionF])
  }

  predicate SourceMeets(action: Action, expected: Patch) {
    && (ConversationF in expected.texts ==> action.conversation == expected.texts[ConversationF])
    && (TriggerF in expected.texts ==> action.trigger == expected.texts[TriggerF])
  }

  predicate RecallMeets(action: Action, expected: Patch) {
    && (RecallKeyF in expected.texts ==> action.recallKey == expected.texts[RecallKeyF])
    && (RecallStatusF in expected.texts ==> action.recallStatus == expected.texts[RecallStatusF])
  }

  predicate RecalledMeets(action: Action, expected: Patch) {
    && (RecallErrorF in expected.texts ==> action.recallError == expected.texts[RecallErrorF])
    && (RecalledAtF in expected.texts ==> action.recalledAt == expected.texts[RecalledAtF])
  }

  predicate KeyMeets(action: Action, expected: Patch) {
    && (ExternalKeyF in expected.texts ==> action.externalKey == expected.texts[ExternalKeyF])
    && (BusinessKeyF in expected.texts ==> action.businessKey == expected.texts[BusinessKeyF])
    && (IdentityF in expected.texts ==> action.identity == expected.texts[IdentityF])
  }

  /** Every expected column has its value; columns that are not expected may have any. */
  predicate ColumnsMeet(action: Action, expected: Patch) {
    && StatusMeets(action, expected) && ClockMeets(action, expected) && PreparedMeets(action, expected) && AddressMeets(action, expected)
    && TokenMeets(action, expected) && SourceMeets(action, expected) && RecallMeets(action, expected) && RecalledMeets(action, expected) && KeyMeets(action, expected)
  }

  predicate StatusWritten(was: Action, now: Action, changes: Patch) {
    && now.operation == (if OperationF in changes.texts then changes.texts[OperationF] else was.operation)
    && now.status == (if StatusF in changes.texts then changes.texts[StatusF] else was.status)
    && now.planId == (if PlanIdF in changes.texts then changes.texts[PlanIdF] else was.planId)
    && now.agentRun == (if AgentRunF in changes.numbers then changes.numbers[AgentRunF] else was.agentRun)
  }

  predicate ClockWritten(was: Action, now: Action, changes: Patch) {
    && now.nextAttemptAt == (if NextAttemptAtF in changes.texts then changes.texts[NextAttemptAtF] else was.nextAttemptAt)
    && now.startedAt == (if StartedAtF in changes.texts then changes.texts[StartedAtF] else was.startedAt)
    && now.createdAt == (if CreatedAtF in changes.texts then changes.texts[CreatedAtF] else was.createdAt)
    && now.updatedAt == (if UpdatedAtF in changes.texts then changes.texts[UpdatedAtF] else was.updatedAt)
  }

  predicate PreparedWritten(was: Action, now: Action, changes: Patch) {
    && now.preparedBody == (if PreparedBodyF in changes.texts then changes.texts[PreparedBodyF] else was.preparedBody)
    && now.preparedAt == (if PreparedAtF in changes.texts then changes.texts[PreparedAtF] else was.preparedAt)
    && now.preparedReceipt == (if PreparedReceiptF in changes.numbers then changes.numbers[PreparedReceiptF] else was.preparedReceipt)
  }

  predicate AddressWritten(was: Action, now: Action, changes: Patch) {
    && now.deliveryChannel == (if DeliveryChannelF in changes.texts then changes.texts[DeliveryChannelF] else was.deliveryChannel)
    && now.deliveryKey == (if DeliveryKeyF in changes.texts then changes.texts[DeliveryKeyF] else was.deliveryKey)
    && now.deliveryReceipt == (if DeliveryReceiptF in changes.numbers then changes.numbers[DeliveryReceiptF] else was.deliveryReceipt)
  }

  predicate TokenWritten(was: Action, now: Action, changes: Patch) {
    && now.feedbackToken == (if FeedbackTokenF in changes.texts then changes.texts[FeedbackTokenF] else was.feedbackToken)
    && now.postfixVersion == (if PostfixVersionF in changes.texts then changes.texts[PostfixVersionF] else was.postfixVersion)
  }

  predicate SourceWritten(was: Action, now: Action, changes: Patch) {
    && now.conversation == (if ConversationF in changes.texts then changes.texts[ConversationF] else was.conversation)
    && now.trigger == (if TriggerF in changes.texts then changes.texts[TriggerF] else was.trigger)
  }

  predicate RecallWritten(was: Action, now: Action, changes: Patch) {
    && now.recallKey == (if RecallKeyF in changes.texts then changes.texts[RecallKeyF] else was.recallKey)
    && now.recallStatus == (if RecallStatusF in changes.texts then changes.texts[RecallStatusF] else was.recallStatus)
  }

  predicate RecalledWritten(was: Action, now: Action, changes: Patch) {
    && now.recallError == (if RecallErrorF in changes.texts then changes.texts[RecallErrorF] else was.recallError)
    && now.recalledAt == (if RecalledAtF in changes.texts then changes.texts[RecalledAtF] else was.recalledAt)
  }

  predicate KeyWritten(was: Action, now: Action, changes: Patch) {
    && now.externalKey == (if ExternalKeyF in changes.texts then changes.texts[ExternalKeyF] else was.externalKey)
    && now.businessKey == (if BusinessKeyF in changes.texts then changes.texts[BusinessKeyF] else was.businessKey)
    && now.identity == (if IdentityF in changes.texts then changes.texts[IdentityF] else was.identity)
  }

  /** Every named column has its new value and every other one its old. */
  predicate ColumnsWritten(was: Action, now: Action, changes: Patch) {
    && StatusWritten(was, now, changes) && ClockWritten(was, now, changes) && PreparedWritten(was, now, changes) && AddressWritten(was, now, changes)
    && TokenWritten(was, now, changes) && SourceWritten(was, now, changes) && RecallWritten(was, now, changes) && RecalledWritten(was, now, changes) && KeyWritten(was, now, changes)
  }

  predicate ReceiptColumnsMeet(receipt: Receipt, expected: ReceiptPatch) {
    && (ROperation in expected.texts ==> receipt.operation == expected.texts[ROperation])
    && (RTarget in expected.texts ==> receipt.target == expected.texts[RTarget])
    && (RDigest in expected.texts ==> receipt.digest == expected.texts[RDigest])
    && (RCreatedAt in expected.texts ==> receipt.createdAt == expected.texts[RCreatedAt])
    && (RUpdatedAt in expected.texts ==> receipt.updatedAt == expected.texts[RUpdatedAt])
    && (RStatus in expected.texts ==> receipt.status == expected.texts[RStatus])
    && (ROutcome in expected.texts ==> receipt.outcome == expected.texts[ROutcome])
    && (RObservedAt in expected.texts ==> receipt.observedAt == expected.texts[RObservedAt])
    && (RProvider in expected.numbers ==> receipt.provider == expected.numbers[RProvider])
    && (RAgentRun in expected.numbers ==> receipt.agentRun == expected.numbers[RAgentRun])
  }

  /** The columns no patch can name stay as they are. */
  predicate ReceiptColumnsWritten(was: Receipt, now: Receipt, changes: ReceiptPatch) {
    && now.operation == (if ROperation in changes.texts then changes.texts[ROperation] else was.operation)
    && now.target == (if RTarget in changes.texts then changes.texts[RTarget] else was.target)
    && now.digest == (if RDigest in changes.texts then changes.texts[RDigest] else was.digest)
    && now.createdAt == (if RCreatedAt in changes.texts then changes.texts[RCreatedAt] else was.createdAt)
    && now.updatedAt == (if RUpdatedAt in changes.texts then changes.texts[RUpdatedAt] else was.updatedAt)
    && now.status == (if RStatus in changes.texts then changes.texts[RStatus] else was.status)
    && now.outcome == (if ROutcome in changes.texts then changes.texts[ROutcome] else was.outcome)
    && now.observedAt == (if RObservedAt in changes.texts then changes.texts[RObservedAt] else was.observedAt)
    && now.provider == (if RProvider in changes.numbers then changes.numbers[RProvider] else was.provider)
    && now.agentRun == (if RAgentRun in changes.numbers then changes.numbers[RAgentRun] else was.agentRun)
    && now.owner == was.owner && now.attemptNumber == was.attemptNumber && now.providerResultId == was.providerResultId
    && now.body == was.body && now.errorText == was.errorText && now.dispatchedAt == was.dispatchedAt
    && now.startedAt == was.startedAt && now.finishedAt == was.finishedAt
    && now.execution == was.execution && now.actionIndex == was.actionIndex
  }

  lemma TextsMet(action: Action, expected: Patch, f: TextField)
    requires Matches(action, expected) && f in expected.texts
    ensures TextOf(action, f) == expected.texts[f]
  {
    hide TextOf;
  }

  lemma NumbersMet(action: Action, expected: Patch, f: NumberField)
    requires Matches(action, expected) && f in expected.numbers
    ensures NumberOf(action, f) == expected.numbers[f]
  {
    hide NumberOf;
    hide TextOf;
  }

  lemma StatusMet(action: Action, expected: Patch)
    requires Matches(action, expected)
    ensures StatusMeets(action, expected)
  {
    hide Matches;
    if OperationF in expected.texts { TextsMet(action, expected, OperationF); }
    if StatusF in expected.texts { TextsMet(action, expected, StatusF); }
    if PlanIdF in expected.texts { TextsMet(action, expected, PlanIdF); }
    if AgentRunF in expected.numbers { NumbersMet(action, expected, AgentRunF); }
  }

  lemma ClockMet(action: Action, expected: Patch)
    requires Matches(action, expected)
    ensures ClockMeets(action, expected)
  {
    hide Matches;
    if NextAttemptAtF in expected.texts { TextsMet(action, expected, NextAttemptAtF); }
    if StartedAtF in expected.texts { TextsMet(action, expected, StartedAtF); }
    if CreatedAtF in expected.texts { TextsMet(action, expected, CreatedAtF); }
    if UpdatedAtF in expected.texts { TextsMet(action, expected, UpdatedAtF); }
  }

  lemma PreparedMet(action: Action, expected: Patch)
    requires Matches(action, expected)
    ensures PreparedMeets(action, expected)
  {
    hide Matches;
    if PreparedBodyF in expected.texts { TextsMet(action, expected, PreparedBodyF); }
    if PreparedAtF in expected.texts { TextsMet(action, expected, PreparedAtF); }
    if PreparedReceiptF in expected.numbers { NumbersMet(action, expected, PreparedReceiptF); }
  }

  lemma AddressMet(action: Action, expected: Patch)
    requires Matches(action, expected)
    ensures AddressMeets(action, expected)
  {
    hide Matches;
    if DeliveryChannelF in expected.texts { TextsMet(action, expected, DeliveryChannelF); }
    if DeliveryKeyF in expected.texts { TextsMet(action, expected, DeliveryKeyF); }
    if DeliveryReceiptF in expected.numbers { NumbersMet(action, expected, DeliveryReceiptF); }
  }

  lemma TokenMet(action: Action, expected: Patch)
    requires Matches(action, expected)
    ensures TokenMeets(action, expected)
  {
    hide Matches;
    if FeedbackTokenF in expected.texts { TextsMet(action, expected, FeedbackTokenF); }
    if PostfixVersionF in expected.texts { TextsMet(action, expected, PostfixVersionF); }
  }

  lemma SourceMet(action: Action, expected: Patch)
    requires Matches(action, expected)
    ensures SourceMeets(action, expected)
  {
    hide Matches;
    if ConversationF in expected.texts { TextsMet(action, expected, ConversationF); }
    if TriggerF in expected.texts { TextsMet(action, expected, TriggerF); }
  }

  lemma RecallMet(action: Action, expected: Patch)
    requires Matches(action, expected)
    ensures RecallMeets(action, expected)
  {
    hide Matches;
    if RecallKeyF in expected.texts { TextsMet(action, expected, RecallKeyF); }
    if RecallStatusF in expected.texts { TextsMet(action, expected, RecallStatusF); }
  }

  lemma RecalledMet(action: Action, expected: Patch)
    requires Matches(action, expected)
    ensures RecalledMeets(action, expected)
  {
    hide Matches;
    if RecallErrorF in expected.texts { TextsMet(action, expected, RecallErrorF); }
    if RecalledAtF in expected.texts { TextsMet(action, expected, RecalledAtF); }
  }

  lemma KeyMet(action: Action, expected: Patch)
    requires Matches(action, expected)
    ensures KeyMeets(action, expected)
  {
    hide Matches;
    if ExternalKeyF in expected.texts { TextsMet(action, expected, ExternalKeyF); }
    if BusinessKeyF in expected.texts { TextsMet(action, expected, BusinessKeyF); }
    if IdentityF in expected.texts { TextsMet(action, expected, IdentityF); }
  }

  lemma MeetIs(action: Action, expected: Patch)
    ensures Matches(action, expected) <==> ColumnsMeet(action, expected)
  {
    if ColumnsMeet(action, expected) {
      forall f | f in expected.texts ensures TextOf(action, f) == expected.texts[f] { TextColumn(action, expected, f); }
      forall f | f in expected.numbers ensures NumberOf(action, f) == expected.numbers[f] { NumberColumn(action, expected, f); }
    }
    if Matches(action, expected) {
      StatusMet(action, expected);
      ClockMet(action, expected);
      PreparedMet(action, expected);
      AddressMet(action, expected);
      TokenMet(action, expected);
      SourceMet(action, expected);
      RecallMet(action, expected);
      RecalledMet(action, expected);
      KeyMet(action, expected);
    }
    hide TextOf;
    hide NumberOf;
    hide StatusMeets;
    hide ClockMeets;
    hide PreparedMeets;
    hide AddressMeets;
    hide TokenMeets;
    hide SourceMeets;
    hide RecallMeets;
    hide RecalledMeets;
    hide KeyMeets;
  }

  lemma TextColumn(action: Action, expected: Patch, f: TextField)
    requires ColumnsMeet(action, expected) && f in expected.texts
    ensures TextOf(action, f) == expected.texts[f]
  {
  }

  lemma NumberColumn(action: Action, expected: Patch, f: NumberField)
    requires ColumnsMeet(action, expected) && f in expected.numbers
    ensures NumberOf(action, f) == expected.numbers[f]
  {
  }

  lemma StatusKept(was: Action, changes: Patch)
    ensures StatusWritten(was, Changed(was, changes), changes)
  {
  }

  lemma ClockKept(was: Action, changes: Patch)
    ensures ClockWritten(was, Changed(was, changes), changes)
  {
  }

  lemma PreparedKept(was: Action, changes: Patch)
    ensures PreparedWritten(was, Changed(was, changes), changes)
  {
  }

  lemma AddressKept(was: Action, changes: Patch)
    ensures AddressWritten(was, Changed(was, changes), changes)
  {
  }

  lemma TokenKept(was: Action, changes: Patch)
    ensures TokenWritten(was, Changed(was, changes), changes)
  {
  }

  lemma SourceKept(was: Action, changes: Patch)
    ensures SourceWritten(was, Changed(was, changes), changes)
  {
  }

  lemma RecallKept(was: Action, changes: Patch)
    ensures RecallWritten(was, Changed(was, changes), changes)
  {
  }

  lemma RecalledKept(was: Action, changes: Patch)
    ensures RecalledWritten(was, Changed(was, changes), changes)
  {
  }

  lemma KeyKept(was: Action, changes: Patch)
    ensures KeyWritten(was, Changed(was, changes), changes)
  {
  }

  lemma WrittenIs(was: Action, changes: Patch)
    ensures ColumnsWritten(was, Changed(was, changes), changes)
  {
    StatusKept(was, changes);
    ClockKept(was, changes);
    PreparedKept(was, changes);
    AddressKept(was, changes);
    TokenKept(was, changes);
    SourceKept(was, changes);
    RecallKept(was, changes);
    RecalledKept(was, changes);
    KeyKept(was, changes);
    hide Changed;
    hide StatusWritten;
    hide ClockWritten;
    hide PreparedWritten;
    hide AddressWritten;
    hide TokenWritten;
    hide SourceWritten;
    hide RecallWritten;
    hide RecalledWritten;
    hide KeyWritten;
  }

  lemma ReceiptMeetIs(receipt: Receipt, expected: ReceiptPatch)
    ensures ReceiptMatches(receipt, expected) <==> ReceiptColumnsMeet(receipt, expected)
  {
    if ReceiptColumnsMeet(receipt, expected) {
      forall f | f in expected.texts ensures ReceiptText(receipt, f) == expected.texts[f] {}
      forall f | f in expected.numbers ensures ReceiptNumber(receipt, f) == expected.numbers[f] {}
    }
  }

  lemma ReceiptWrittenIs(was: Receipt, changes: ReceiptPatch)
    ensures ReceiptColumnsWritten(was, ChangedReceipt(was, changes), changes)
  {
  }

  // ---------- when a row is admitted ----------

  predicate StatusListed(status: Text) {
    status.None? || status.value in ["pending", "processing", "done", "skipped", "failed", "dispatched", "verified",
                                     "confirmed_no_effect", "uncertain"]
  }

  /** A receipt has no status before its outcome. */
  predicate OutcomeListed(status: Text) {
    StatusListed(status) && status != Some("pending") && status != Some("processing")
  }

  predicate Direct(operation: Text) {
    operation.Some? && operation.value in ["archive", "flag_important", "mark_read", "move", "trash", "label"]
  }

  /** The three unique indexes: keys, direct operations of a plan, delivery identities. */
  predicate Apart(x: Action, y: Action) {
    && (x.externalKey == y.externalKey ==> x.externalKey.None?)
    && (x.planId == y.planId && x.operation == y.operation && Direct(x.operation) ==> x.planId.None?)
    && (x.deliveryChannel == y.deliveryChannel && x.deliveryKey == y.deliveryKey ==> x.deliveryChannel.None? || x.deliveryKey.None?)
  }

  predicate OwnReceipt(db: Db, receipt: Option<int>, owner: int) {
    receipt.Some? && receipt.value in db.receipts && db.receipts[receipt.value].owner == owner
  }

  predicate OwnBody(db: Db, receipt: Option<int>, owner: int) {
    OwnReceipt(db, receipt, owner) && db.receipts[receipt.value].body.Some?
  }

  /** `delivery` and `prepared` are the references the row had. */
  predicate Admitted(db: Db, id: int, delivery: Option<int>, prepared: Option<int>, now: Action) {
    && StatusListed(now.status)
    && (forall other | other in db.actions && other != id :: Apart(db.actions[other], now))
    && (now.deliveryReceipt == delivery || now.deliveryReceipt.None? || OwnReceipt(db, now.deliveryReceipt, id))
    && (now.preparedReceipt == prepared || now.preparedReceipt.None? || OwnBody(db, now.preparedReceipt, id))
  }

  predicate SlotApart(x: Receipt, y: Receipt) {
    x.execution == y.execution && x.actionIndex == y.actionIndex ==> x.execution.None? || x.actionIndex.None?
  }

  predicate ReceiptAdmitted(db: Db, id: int, now: Receipt) {
    && OutcomeListed(now.status)
    && (forall other | other in db.receipts && other != id :: SlotApart(db.receipts[other], now))
  }

  /** What the lineage trigger lets through for a reply: a first digest, and a reference to a body of its own Action. */
  predicate SentLineage(db: Db, id: int, was: Receipt, now: Receipt) {
    var delivery := was.owner in db.actions && db.actions[was.owner].deliveryReceipt == Some(id);
    && (now.digest == was.digest || (was.digest.None? && delivery))
    && (now.provider == was.provider || ((delivery || was.body.None?) && OwnBody(db, now.provider, was.owner)))
  }

  lemma ApartIs(x: Action, y: Action)
    ensures Clash(x, y) <==> !Apart(x, y)
  {
  }

  lemma StatusListedIs(action: Action, receipt: Receipt)
    ensures ActionStatusAllowed(action) <==> StatusListed(action.status)
    ensures ReceiptStatusAllowed(receipt) <==> OutcomeListed(receipt.status)
  {
  }

  lemma AdmittedIs(db: Db, id: int, now: Action)
    requires id in db.actions
    ensures CanUpdateAction(db, id, now) <==>
      Admitted(db, id, db.actions[id].deliveryReceipt, db.actions[id].preparedReceipt, now)
  {
    StatusListedIs(now, BlankReceipt(0));
    forall other ensures other in db.actions ==> (Clash(db.actions[other], now) <==> !Apart(db.actions[other], now)) {
      if other in db.actions { ApartIs(db.actions[other], now); }
    }
    hide Clash;
    hide Apart;
    hide StatusListed;
    hide ActionStatusAllowed;
  }

  lemma CreatedIs(db: Db, now: Action)
    requires Coherent(db)
    ensures CanCreateAction(db, now) <==> Admitted(db, db.nextAction, None, None, now)
  {
    StatusListedIs(now, BlankReceipt(0));
    forall other ensures other in db.actions ==> (Clash(db.actions[other], now) <==> !Apart(db.actions[other], now)) {
      if other in db.actions { ApartIs(db.actions[other], now); }
    }
    hide Coherent;
    hide Clash;
    hide Apart;
    hide StatusListed;
    hide ActionStatusAllowed;
  }

  lemma ReceiptAdmittedIs(db: Db, id: int, now: Receipt)
    ensures ReceiptAdmitted(db, id, now) <==> ReceiptStatusAllowed(now) && SlotFree(db.receipts, id, now)
  {
    StatusListedIs(BLANK_ACTION, now);
    hide OutcomeListed;
    hide ReceiptStatusAllowed;
  }

  lemma ResolvesIs(db: Db, now: Receipt)
    ensures ProviderResolves(db.receipts, now) <==> now.provider.None? || OwnBody(db, now.provider, now.owner)
  {
  }

  lemma SentAdmittedIs(db: Db, id: int, was: Receipt, now: Receipt, changes: ReceiptPatch)
    requires id in db.receipts && db.receipts[id] == was && was.execution.None? && was.actionIndex.None?
    requires ReceiptColumnsWritten(was, now, changes) && changes.texts.Keys <= SENT_TEXTS
    ensures CanUpdateReceipt(db, id, now) <==> SentLineage(db, id, was, now) && ReceiptAdmitted(db, id, now)
  {
    ReceiptAdmittedIs(db, id, now);
    ResolvesIs(db, now);
    assert now.observedAt == was.observedAt;
    hide ReceiptAdmitted;
    hide SlotFree;
    hide ReceiptStatusAllowed;
    hide ProviderResolves;
  }

  lemma ObservationAdmittedIs(db: Db, id: int, was: Receipt, now: Receipt, changes: ReceiptPatch)
    requires id in db.receipts && db.receipts[id] == was && was.execution.Some? && was.actionIndex.Some?
    requires ReceiptColumnsWritten(was, now, changes) && changes.texts.Keys <= OBSERVATION_TEXTS
    ensures CanUpdateReceipt(db, id, now) <==>
      (now.provider == was.provider || OwnBody(db, now.provider, was.owner)) && ReceiptAdmitted(db, id, now)
  {
    ReceiptAdmittedIs(db, id, now);
    ResolvesIs(db, now);
    assert now.digest == was.digest;
    hide ReceiptAdmitted;
    hide SlotFree;
    hide ReceiptStatusAllowed;
    hide ProviderResolves;
  }

  // ---------- what each call promises ----------

  /** A row exactly like the given one under the next ID, when it is admitted; its receipts cannot exist yet. */
  ghost predicate Created(was: Db, action: Action, now: Db, reply: Reply) {
    && (reply == Wrote(was.nextAction) || reply == Raised)
    && (reply.Wrote? <==> Admitted(was, was.nextAction, None, None, action))
    && now == if reply.Wrote? then was.(actions := was.actions[was.nextAction := action], nextAction := was.nextAction + 1) else was
  }

  /** Empty mappings raise; no row without the Action or with an expected column that differs; else the named columns. */
  ghost predicate Swapped(was: Db, id: int, expected: Patch, changes: Patch, now: Db, reply: Reply) {
    var named := (expected.texts != map[] || expected.numbers != map[]) && (changes.texts != map[] || changes.numbers != map[]);
    var found := id in was.actions && ColumnsMeet(was.actions[id], expected);
    && (reply == Wrote(id) || reply == NoRow || reply == Raised)
    && (!named ==> reply == Raised)
    && (named ==> (reply == NoRow <==> !found))
    && (named && found ==>
          forall action | ColumnsWritten(was.actions[id], action, changes) ::
            (reply.Wrote? <==> Admitted(was, id, was.actions[id].deliveryReceipt, was.actions[id].preparedReceipt, action))
            && (reply.Wrote? ==> now == was.(actions := was.actions[id := action])))
    && (!reply.Wrote? ==> now == was)
  }

  ghost predicate Appended(was: Db, receipt: Receipt, now: Db, reply: Reply) {
    && (reply == Wrote(was.nextReceipt) || reply == Raised)
    && (reply.Wrote? <==>
          receipt.owner in was.actions && ReceiptAdmitted(was, was.nextReceipt, receipt)
          && (receipt.provider.None? || OwnBody(was, receipt.provider, receipt.owner)))
    && now == if reply.Wrote? then was.(receipts := was.receipts[was.nextReceipt := receipt], nextReceipt := was.nextReceipt + 1) else was
  }

  /** Only these fields may be named, and some must be, on either side. */
  predicate SentNamed(expected: ReceiptPatch, changes: ReceiptPatch) {
    && (expected.texts != map[] || expected.numbers != map[]) && (changes.texts != map[] || changes.numbers != map[])
    && forall f | f in expected.texts.Keys + changes.texts.Keys :: !f.RStatus? && !f.ROutcome? && !f.RObservedAt?
  }

  predicate ObservationNamed(expected: ReceiptPatch, changes: ReceiptPatch) {
    && (expected.texts != map[] || expected.numbers != map[]) && (changes.texts != map[] || changes.numbers != map[])
    && forall f | f in expected.texts.Keys + changes.texts.Keys :: f.RStatus? || f.ROutcome? || f.RObservedAt? || f.RUpdatedAt?
  }

  predicate SentFound(was: Db, owner: int, id: int, expected: ReceiptPatch) {
    && id in was.receipts && was.receipts[id].owner == owner && was.receipts[id].execution.None?
    && was.receipts[id].actionIndex.None? && ReceiptColumnsMeet(was.receipts[id], expected)
  }

  predicate ObservationFound(was: Db, id: int, owner: int, execution: int, index: int, expected: ReceiptPatch) {
    && id in was.receipts && was.receipts[id].owner == owner && was.receipts[id].execution == Some(execution)
    && was.receipts[id].actionIndex == Some(index) && ReceiptColumnsMeet(was.receipts[id], expected)
  }

  ghost predicate SentSwapped(
    was: Db, owner: int, id: int, expected: ReceiptPatch, changes: ReceiptPatch, now: Db, reply: Reply)
  {
    && (reply == Wrote(id) || reply == NoRow || reply == Raised)
    && (!SentNamed(expected, changes) ==> reply == Raised)
    && (SentNamed(expected, changes) ==> (reply == NoRow <==> !SentFound(was, owner, id, expected)))
    && (SentNamed(expected, changes) && SentFound(was, owner, id, expected) ==>
          forall receipt | ReceiptColumnsWritten(was.receipts[id], receipt, changes) ::
            (reply.Wrote? <==> SentLineage(was, id, was.receipts[id], receipt) && ReceiptAdmitted(was, id, receipt))
            && (reply.Wrote? ==> now == was.(receipts := was.receipts[id := receipt])))
    && (!reply.Wrote? ==> now == was)
  }

  ghost predicate ObservationSwapped(
    was: Db, owner: int, execution: int, index: int, expected: ReceiptPatch, changes: ReceiptPatch, now: Db, reply: Reply)
  {
    && (!ObservationNamed(expected, changes) ==> reply == Raised)
    && (ObservationNamed(expected, changes) ==>
          (reply == NoRow <==> forall id :: !ObservationFound(was, id, owner, execution, index, expected)))
    && (ObservationNamed(expected, changes) ==>
          forall id, receipt | ObservationFound(was, id, owner, execution, index, expected)
                               && ReceiptColumnsWritten(was.receipts[id], receipt, changes) ::
            (reply.Wrote? <==>
               (receipt.provider == was.receipts[id].provider || OwnBody(was, receipt.provider, owner)) && ReceiptAdmitted(was, id, receipt))
            && (reply.Wrote? ==> reply.id == id && now == was.(receipts := was.receipts[id := receipt])))
    && (!reply.Wrote? ==> now == was)
  }

  ghost predicate Observed(was: Db, owner: int, run: int, observation: Observation, now: Db, reply: Reply) {
    && (reply == Wrote(owner) || reply == NoRow)
    && (reply.Wrote? <==> owner in was.actions && (owner, run) !in was.observers)
    && now == if reply.Wrote? then was.(observers := was.observers[(owner, run) := observation]) else was
  }

  lemma CreatePromise(db: Db, action: Action)
    requires Coherent(db)
    ensures Created(db, action, CreateStep(db, action).0, CreateStep(db, action).1)
  {
    CreatedIs(db, action);
    hide Coherent;
    hide CanCreateAction;
    hide Admitted;
  }

  lemma OneWritten(was: Action, x: Action, y: Action, changes: Patch)
    requires ColumnsWritten(was, x, changes) && ColumnsWritten(was, y, changes)
    ensures x == y
  {
  }

  lemma SwapPromise(db: Db, id: int, expected: Patch, changes: Patch)
    ensures
      var step := CompareAndSetStep(db, id, expected, changes);
      Swapped(db, id, expected, changes, step.0, step.1)
  {
    if id in db.actions {
      var was := db.actions[id];
      MeetIs(was, expected);
      WrittenIs(was, changes);
      var changed := Changed(was, changes);
      AdmittedIs(db, id, changed);
      forall action | ColumnsWritten(was, action, changes) ensures action == changed {
        OneWritten(was, action, changed, changes);
      }
    }
    hide Changed;
    hide Matches;
    hide ColumnsMeet;
    hide ColumnsWritten;
    hide CanUpdateAction;
    hide Admitted;
  }

  lemma AppendPromise(db: Db, receipt: Receipt)
    ensures Appended(db, receipt, AppendStep(db, receipt).0, AppendStep(db, receipt).1)
  {
    ReceiptAdmittedIs(db, db.nextReceipt, receipt);
    ResolvesIs(db, receipt);
    hide ReceiptAdmitted;
    hide ReceiptStatusAllowed;
    hide SlotFree;
    hide ProviderResolves;
    hide OwnBody;
  }

  lemma OneReceiptWritten(was: Receipt, x: Receipt, y: Receipt, changes: ReceiptPatch)
    requires ReceiptColumnsWritten(was, x, changes) && ReceiptColumnsWritten(was, y, changes)
    ensures x == y
  {
  }

  lemma NamedIs(expected: ReceiptPatch, changes: ReceiptPatch)
    ensures PatchesAllowed(expected, changes, SENT_TEXTS) <==> SentNamed(expected, changes)
    ensures PatchesAllowed(expected, changes, OBSERVATION_TEXTS) <==> ObservationNamed(expected, changes)
  {
    forall f: ReceiptTextField
      ensures f in SENT_TEXTS <==> !f.RStatus? && !f.ROutcome? && !f.RObservedAt?
      ensures f in OBSERVATION_TEXTS <==> f.RStatus? || f.ROutcome? || f.RObservedAt? || f.RUpdatedAt?
    {
    }
  }

  lemma SentPromise(db: Db, owner: int, id: int, expected: ReceiptPatch, changes: ReceiptPatch)
    ensures
      var step := UpdateSentStep(db, owner, id, expected, changes);
      SentSwapped(db, owner, id, expected, changes, step.0, step.1)
  {
    NamedIs(expected, changes);
    if id in db.receipts {
      var was := db.receipts[id];
      ReceiptMeetIs(was, expected);
      ReceiptWrittenIs(was, changes);
      var changed := ChangedReceipt(was, changes);
      forall receipt | ReceiptColumnsWritten(was, receipt, changes) ensures receipt == changed {
        OneReceiptWritten(was, receipt, changed, changes);
      }
      if SentNamed(expected, changes) && SentFound(db, owner, id, expected) { SentAdmittedIs(db, id, was, changed, changes); }
    }
    hide ChangedReceipt;
    hide ReceiptMatches;
    hide ReceiptColumnsMeet;
    hide ReceiptColumnsWritten;
    hide CanUpdateReceipt;
    hide SentLineage;
    hide ReceiptAdmitted;
    hide SentNamed;
  }

  lemma ObservationPromise(
    db: Db, owner: int, execution: int, index: int, expected: ReceiptPatch, changes: ReceiptPatch)
    requires Coherent(db)
    ensures
      var step := UpdateObservationStep(db, owner, execution, index, expected, changes);
      ObservationSwapped(db, owner, execution, index, expected, changes, step.0, step.1)
  {
    NamedIs(expected, changes);
    forall id ensures IsObservationRow(db, id, owner, execution, index, expected)
      <==> ObservationFound(db, id, owner, execution, index, expected)
    {
      if id in db.receipts { ReceiptMeetIs(db.receipts[id], expected); }
    }
    forall id, other | IsObservationRow(db, id, owner, execution, index, expected)
                       && IsObservationRow(db, other, owner, execution, index, expected)
      ensures id == other
    {
      ObservationRowUnique(db, id, other, owner, execution, index, expected);
    }
    if ObservationNamed(expected, changes) {
      forall id, receipt | ObservationFound(db, id, owner, execution, index, expected)
                           && ReceiptColumnsWritten(db.receipts[id], receipt, changes)
        ensures receipt == ChangedReceipt(db.receipts[id], changes)
        ensures CanUpdateReceipt(db, id, receipt) <==>
          (receipt.provider == db.receipts[id].provider || OwnBody(db, receipt.provider, owner)) && ReceiptAdmitted(db, id, receipt)
      {
        ReceiptWrittenIs(db.receipts[id], changes);
        OneReceiptWritten(db.receipts[id], receipt, ChangedReceipt(db.receipts[id], changes), changes);
        ObservationAdmittedIs(db, id, db.receipts[id], receipt, changes);
      }
    }
    hide Coherent;
    hide ChangedReceipt;
    hide ReceiptColumnsMeet;
    hide ReceiptMatches;
    hide ReceiptColumnsWritten;
    hide CanUpdateReceipt;
    hide OwnBody;
    hide ReceiptAdmitted;
    hide ObservationNamed;
    hide IsObservationRow;
    hide ObservationFound;
  }

  // ---------- the calls as the store makes them ----------

  /** One open connection inside the caller's transaction. */
  class Connection {
    var db: Db

    constructor (start: Db)
      ensures db == start
    {
      db := start;
    }

    method CreateAction(action: Action) returns (reply: Reply)
      requires Coherent(db)
      modifies this
      ensures (db, reply) == CreateStep(old(db), action)
      ensures Created(old(db), action, db, reply)
      ensures Coherent(db) && Extends(old(db), db)
    {
      CreatePromise(db, action);
      hide Created;
      if CanCreateAction(db, action) {
        CreateActionCoherent(db, action);
        reply := Wrote(db.nextAction);
        db := db.(actions := db.actions[db.nextAction := action], nextAction := db.nextAction + 1);
      } else {
        reply := Raised;
      }
    }

    method CasAction(id: int, expected: Patch, changes: Patch) returns (reply: Reply)
      requires Coherent(db)
      modifies this
      ensures (db, reply) == CompareAndSetStep(old(db), id, expected, changes)
      ensures Swapped(old(db), id, expected, changes, db, reply)
      ensures Coherent(db) && Extends(old(db), db)
    {
      CompareAndSetKeepsLedger(db, id, expected, changes);
      SwapPromise(db, id, expected, changes);
      hide Swapped;
      if Blank(expected) || Blank(changes) {
        return Raised;
      }
      if id !in db.actions || !Matches(db.actions[id], expected) {
        return NoRow;
      }
      var action := Changed(db.actions[id], changes);
      if !CanUpdateAction(db, id, action) {
        return Raised;
      }
      db := db.(actions := db.actions[id := action]);
      reply := Wrote(id);
    }

    method AppendReceipt(receipt: Receipt) returns (reply: Reply)
      requires Coherent(db)
      modifies this
      ensures (db, reply) == AppendStep(old(db), receipt)
      ensures Appended(old(db), receipt, db, reply)
      ensures Coherent(db) && Extends(old(db), db)
    {
      AppendPromise(db, receipt);
      hide Appended;
      if CanInsertReceipt(db, receipt) {
        InsertReceiptCoherent(db, receipt);
        reply := Wrote(db.nextReceipt);
        db := db.(receipts := db.receipts[db.nextReceipt := receipt], nextReceipt := db.nextReceipt + 1);
      } else {
        reply := Raised;
      }
    }

    method UpdateSentReceipt(owner: int, id: int, was: ReceiptPatch, now: ReceiptPatch) returns (reply: Reply)
      requires Coherent(db)
      modifies this
      ensures (db, reply) == UpdateSentStep(old(db), owner, id, was, now)
      ensures SentSwapped(old(db), owner, id, was, now, db, reply)
      ensures Coherent(db) && Extends(old(db), db)
    {
      UpdateSentKeepsLedger(db, owner, id, was, now);
      SentPromise(db, owner, id, was, now);
      hide SentSwapped;
      if !PatchesAllowed(was, now, SENT_TEXTS) {
        return Raised;
      }
      if !IsSentRow(db, id, owner, was) {
        return NoRow;
      }
      var receipt := ChangedReceipt(db.receipts[id], now);
      if !CanUpdateReceipt(db, id, receipt) {
        return Raised;
      }
      db := db.(receipts := db.receipts[id := receipt]);
      reply := Wrote(id);
    }

    method UpdateActionObservation(owner: int, execution: int, index: int, was: ReceiptPatch, now: ReceiptPatch)
      returns (reply: Reply)
      requires Coherent(db)
      modifies this
      ensures (db, reply) == UpdateObservationStep(old(db), owner, execution, index, was, now)
      ensures ObservationSwapped(old(db), owner, execution, index, was, now, db, reply)
      ensures Coherent(db) && Extends(old(db), db)
    {
      UpdateObservationKeepsLedger(db, owner, execution, index, was, now);
      ObservationPromise(db, owner, execution, index, was, now);
      hide ObservationSwapped;
      if !PatchesAllowed(was, now, OBSERVATION_TEXTS) {
        return Raised;
      }
      if !exists id :: id in db.receipts && IsObservationRow(db, id, owner, execution, index, was) {
        return NoRow;
      }
      var id :| id in db.receipts && IsObservationRow(db, id, owner, execution, index, was);
      forall other | IsObservationRow(db, other, owner, execution, index, was) ensures other == id {
        ObservationRowUnique(db, other, id, owner, execution, index, was);
      }
      var receipt := ChangedReceipt(db.receipts[id], now);
      if !CanUpdateReceipt(db, id, receipt) {
        return Raised;
      }
      db := db.(receipts := db.receipts[id := receipt]);
      reply := Wrote(id);
    }

    method AddActionObserver(owner: int, run: int, observation: Observation) returns (reply: Reply)
      requires Coherent(db)
      modifies this
      ensures (db, reply) == ObserveStep(old(db), owner, run, observation)
      ensures Observed(old(db), owner, run, observation, db, reply)
      ensures Coherent(db) && Extends(old(db), db)
    {
      if owner !in db.actions || (owner, run) in db.observers {
        return NoRow;
      }
      db := db.(observers := db.observers[(owner, run) := observation]);
      reply := Wrote(owner);
    }
  }
}
