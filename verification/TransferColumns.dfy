/** A transfer told on the tables alone: the columns of the rows the identity map names for each fact, and no other rows. */
module TransferColumns {
  import opened Wrappers
  import opened ActionEntity
  import opened TransferModel
  import opened ResultPhase
  import opened CandidatePhase
  import opened PostfixPhase
  import opened SentPhase

  ghost predicate HasResult(facts: Facts, key: string) { exists e :: e in facts.externals && e.key == key }

  /** The approved step of the attempt resolves to the delivery identity of the message. */
  predicate Resolves(plan: Plan, t: Attempt, p: Postfix) {
    (t.execution, t.index) in plan && StepResolves(plan[(t.execution, t.index)], p)
  }

  predicate StepResolves(step: PlanStep, p: Postfix) { step.channel == p.channel && step.deliveryKey == p.key }

  /** The row of the identity map names an Action, and a receipt of it where it names one. */
  predicate Names(db: Db, family: Family, identity: Identity) {
    (family, identity) in db.identities
    && var at := db.identities[(family, identity)];
       && at.action in db.actions
       && (at.receipt.Some? ==> at.receipt.value in db.receipts && db.receipts[at.receipt.value].owner == at.action)
  }

  /** The receipt with the body of a canonical result: the one its mapped metadata refers to. */
  function BodyReceipt(db: Db, key: string): Option<int> {
    var k := (ExternalResult, TextId(key));
    if k in db.identities && db.identities[k].receipt.Some? && db.identities[k].receipt.value in db.receipts
    then db.receipts[db.identities[k].receipt.value].provider else None
  }

  // ---------- the rows of each fact ----------

  ghost predicate ResultWritten(db: Db, e: External) {
    Names(db, ExternalResult, TextId(e.key)) && db.identities[(ExternalResult, TextId(e.key))].receipt.Some?
    && var at := db.identities[(ExternalResult, TextId(e.key))];
       var (action, body) := (db.actions[at.action], BodyReceipt(db, e.key));
       && action.operation == Some(e.operation) && action.externalKey == Some(e.key)
       && action.businessKey == Some(e.business) && action.identity == Some(e.identity) && action.agentRun.None?
       && body.Some? && body.value in db.receipts
       && db.receipts[body.value] == Receipt(
            owner := at.action, attemptNumber := None, status := None, operation := Some(e.operation),
            target := Some(e.target), providerResultId := None, body := Some(e.body), digest := Some(e.digest),
            agentRun := Some(e.run), observedAt := Some(e.createdAt), errorText := None, dispatchedAt := None,
            startedAt := None, finishedAt := None, execution := None, actionIndex := None, outcome := None,
            createdAt := None, updatedAt := None, provider := None)
       && db.receipts[at.receipt.value] == Receipt(
            owner := at.action, attemptNumber := None, status := None, operation := Some(e.operation),
            target := Some(e.target), providerResultId := None, body := None, digest := Some(e.digest),
            agentRun := Some(e.run), observedAt := Some(e.createdAt), errorText := None, dispatchedAt := None,
            startedAt := None, finishedAt := None, execution := None, actionIndex := None, outcome := None,
            createdAt := Some(e.createdAt), updatedAt := None, provider := body)
  }

  ghost predicate AttemptWritten(db: Db, facts: Facts, plan: Plan, t: Attempt) {
    (t.execution, t.index) in plan && Names(db, CandidateAttempt, IntegerId(t.id))
    && db.identities[(CandidateAttempt, IntegerId(t.id))].receipt.Some?
    && var (at, step) := (db.identities[(CandidateAttempt, IntegerId(t.id))], plan[(t.execution, t.index)]);
       var action := db.actions[at.action];
       var own := t.key != "" && !HasResult(facts, t.key);
       && action.businessKey == Some(step.business) && action.identity == Some(step.identity) && action.agentRun.None?
       && action.externalKey == (if t.key == "" then None else Some(t.key))
       && action.operation == (if t.key == "" then None else Some(step.operation))
       && db.receipts[at.receipt.value] == Receipt(
            owner := at.action, attemptNumber := None, status := Some(t.status),
            operation := if own then Some(step.operation) else None, target := if own then Some(step.target) else None,
            providerResultId := None, body := None, digest := None, agentRun := None, observedAt := None,
            errorText := None, dispatchedAt := None, startedAt := None, finishedAt := None,
            execution := Some(t.execution), actionIndex := Some(t.index), outcome := t.outcome,
            createdAt := Some(t.createdAt), updatedAt := Some(t.updatedAt),
            provider := if t.outcome.None? && HasResult(facts, t.key) then BodyReceipt(db, t.key) else None)
  }

  /** The Action of a message no attempt resolves to: from the approved step behind the message, if there is one. */
  ghost predicate LoneWritten(action: Action, plan: Plan, p: Postfix) {
    && action.externalKey.None? && action.operation.None? && action.agentRun.None? && action.deliveryReceipt.None?
    && (forall k | k in plan && StepResolves(plan[k], p) ::
          action.businessKey == Some(plan[k].business)
          && action.identity == Some(if plan[k].option == "" then plan[k].identity else plan[k].identity + ":" + plan[k].option))
    && ((forall k | k in plan :: !StepResolves(plan[k], p)) ==> action.businessKey.None? && action.identity.None?)
  }

  ghost predicate MessageWritten(db: Db, facts: Facts, plan: Plan, p: Postfix) {
    Names(db, OutboundPostfix, TextPair(p.channel, p.key))
    && var at := db.identities[(OutboundPostfix, TextPair(p.channel, p.key))];
       var (action, pair) := (db.actions[at.action], (p.channel, p.key));
       && action.deliveryKey == Some(p.key) && action.postfixVersion == Some(p.version) && action.preparedAt == Some(p.createdAt)
       && (action.deliveryReceipt.None? ==>
             action.deliveryChannel == Some(p.channel) && action.preparedBody == Some(p.body) && action.feedbackToken == Some(p.token))
       && (at.receipt.Some? <==> pair in facts.receipts || pair in facts.dispatches)
       && action.preparedReceipt == (if pair in facts.receipts then at.receipt else None)
       && (at.receipt.Some? ==> db.receipts[at.receipt.value] == Receipt(
             owner := at.action, attemptNumber := None, status := None, operation := None, target := None,
             providerResultId := None, body := if pair in facts.receipts then Some(facts.receipts[pair].body) else None,
             digest := None, agentRun := None,
             observedAt := if pair in facts.receipts then Some(facts.receipts[pair].createdAt) else None,
             errorText := None, dispatchedAt := if pair in facts.dispatches then Some(facts.dispatches[pair]) else None,
             startedAt := None, finishedAt := None, execution := None, actionIndex := None, outcome := None,
             createdAt := None, updatedAt := None, provider := None))
       && ChildMapped(db, PostfixReceipt, p, pair in facts.receipts, at)
       && ChildMapped(db, NativeDispatch, p, pair in facts.dispatches, at)
       && (forall t | t in facts.attempts && Resolves(plan, t, p) ::
             (CandidateAttempt, IntegerId(t.id)) in db.identities
             && db.identities[(CandidateAttempt, IntegerId(t.id))].action == at.action)
       && ((forall t | t in facts.attempts :: !Resolves(plan, t, p)) ==> LoneWritten(action, plan, p))
  }

  /** The child of a message is mapped to the row of its parent exactly when there is one. */
  predicate ChildMapped(db: Db, family: Family, p: Postfix, there: bool, at: Mapped) {
    && ((family, TextPair(p.channel, p.key)) in db.identities <==> there)
    && (there ==> db.identities[(family, TextPair(p.channel, p.key))] == at)
  }

  ghost predicate ReplyWritten(db: Db, facts: Facts, s: Sent) {
    Names(db, SentReply, IntegerId(s.id)) && db.identities[(SentReply, IntegerId(s.id))].receipt.Some?
    && var at := db.identities[(SentReply, IntegerId(s.id))];
       var action := db.actions[at.action];
       && action.preparedBody == Some(s.text) && action.deliveryChannel == Some(s.channel)
       && action.feedbackToken == Some(s.token) && action.conversation == Some(s.conversation)
       && action.trigger == Some(s.trigger) && action.recallKey == Some(s.recallKey)
       && action.recallStatus == Some(s.recallStatus) && action.recallError == Some(s.recallError)
       && action.recalledAt == s.recalledAt && action.deliveryReceipt == at.receipt
       && (if HasResult(facts, s.key) then ResultHome(db, s.key, at.action) else OwnHome(action, s.run))
       && db.receipts[at.receipt.value] == Receipt(
            owner := at.action, attemptNumber := None, status := None, operation := None, target := None,
            providerResultId := None, body := s.result, digest := None, agentRun := Some(s.run),
            observedAt := Some(s.sentAt), errorText := None, dispatchedAt := None, startedAt := None, finishedAt := None,
            execution := None, actionIndex := None, outcome := None, createdAt := None, updatedAt := None,
            provider := if s.result.None? && HasResult(facts, s.key) then BodyReceipt(db, s.key) else None)
  }

  /** The Action is that of the canonical result with this key. */
  predicate ResultHome(db: Db, key: string, a: int) {
    (ExternalResult, TextId(key)) in db.identities && db.identities[(ExternalResult, TextId(key))].action == a
  }

  /** An Action made for a reply holds no key, no approved identity and no message. */
  predicate OwnHome(action: Action, run: int) {
    && action.externalKey.None? && action.operation.None? && action.businessKey.None? && action.identity.None?
    && action.agentRun == Some(run) && action.deliveryKey.None? && action.postfixVersion.None?
    && action.preparedAt.None? && action.preparedReceipt.None?
  }

  ghost predicate ObserverWritten(db: Db, o: Observer) {
    (SentReply, IntegerId(o.sent)) in db.identities
    && var a := db.identities[(SentReply, IntegerId(o.sent))].action;
       && (a, o.run) in db.observers && db.observers[(a, o.run)] == Observation(o.task, o.createdAt)
       && (SentObserver, IntegerPair(o.sent, o.run)) in db.identities
       && db.identities[(SentObserver, IntegerPair(o.sent, o.run))] == Mapped(a, None)
  }

  // ---------- nothing else ----------

  /** Every row of the identity map is that of a fact. */
  ghost predicate MapRowsKnown(ids: Identities, facts: Facts) {
    forall k | k in ids ::
      match k.0
      case ExternalResult => exists e :: e in facts.externals && k.1 == TextId(e.key)
      case CandidateAttempt => exists t :: t in facts.attempts && k.1 == IntegerId(t.id)
      case OutboundPostfix => exists p :: p in facts.postfixes && k.1 == TextPair(p.channel, p.key)
      case PostfixReceipt => exists pair :: pair in facts.receipts && k.1 == TextPair(pair.0, pair.1)
      case NativeDispatch => exists pair :: pair in facts.dispatches && k.1 == TextPair(pair.0, pair.1)
      case SentReply => exists s :: s in facts.sents && k.1 == IntegerId(s.id)
      case SentObserver => exists o :: o in facts.observers && k.1 == IntegerPair(o.sent, o.run)
  }

  ghost predicate NamesAction(ids: Identities, families: set<Family>, a: int) {
    exists k :: k in ids && k.0 in families && ids[k].action == a
  }

  /** Every Action is that of a fact, and holds message columns only with a message and reply columns only with a reply. */
  ghost predicate ActionsKnown(db: Db) { forall a | a in db.actions :: ActionKnown(db, a) }

  ghost predicate ActionKnown(db: Db, a: int)
    requires a in db.actions
  {
    var action := db.actions[a];
    && action.status.None? && action.planId.None? && action.nextAttemptAt.None? && action.startedAt.None?
    && action.createdAt.None? && action.updatedAt.None?
    && NamesAction(db.identities, {ExternalResult, CandidateAttempt, OutboundPostfix, SentReply}, a)
    && (NamesAction(db.identities, {OutboundPostfix}, a) || (
        action.deliveryKey.None? && action.postfixVersion.None? && action.preparedAt.None? && action.preparedReceipt.None?))
    && (NamesAction(db.identities, {SentReply}, a) || (
        action.conversation.None? && action.trigger.None? && action.recallKey.None? && action.recallStatus.None?
        && action.recallError.None? && action.recalledAt.None? && action.deliveryReceipt.None?))
  }

  /** Every receipt is named by the map, or holds the body of a canonical result. */
  ghost predicate ReceiptsKnown(db: Db, facts: Facts) { forall r | r in db.receipts :: ReceiptKnown(db, facts, r) }

  ghost predicate ReceiptKnown(db: Db, facts: Facts, r: int)
    requires r in db.receipts
  {
    || (exists k :: k in db.identities && db.identities[k] == Mapped(db.receipts[r].owner, Some(r)))
    || (exists e :: e in facts.externals && BodyReceipt(db, e.key) == Some(r))
  }

  ghost predicate ObserversKnown(db: Db, facts: Facts) {
    forall pair | pair in db.observers ::
      exists o :: o in facts.observers && (SentReply, IntegerId(o.sent)) in db.identities
                    && pair == (db.identities[(SentReply, IntegerId(o.sent))].action, o.run)
  }

  /** The tables hold the facts, column by column, and nothing else. */
  ghost predicate Written(db: Db, facts: Facts, plan: Plan) {
    && (forall e | e in facts.externals :: ResultWritten(db, e))
    && (forall t | t in facts.attempts :: AttemptWritten(db, facts, plan, t))
    && (forall p | p in facts.postfixes :: MessageWritten(db, facts, plan, p))
    && (forall s | s in facts.sents :: ReplyWritten(db, facts, s))
    && (forall o | o in facts.observers :: ObserverWritten(db, o))
    && MapRowsKnown(db.identities, facts) && ActionsKnown(db) && ReceiptsKnown(db, facts) && ObserversKnown(db, facts)
  }

  // ---------- the account says so ----------

  lemma HasResultIs(book: Book, key: string)
    requires ByKey(book.canon.rows, book.facts.externals)
    ensures HasResult(book.facts, key) <==> key in book.canon.rows
    ensures key in book.canon.rows ==> book.canon.rows[key] in book.facts.externals && book.canon.rows[key].key == key
    ensures forall e | e in book.facts.externals :: e.key in book.canon.rows && book.canon.rows[e.key] == e
  {
  }

  lemma PieceIs(db: Db, layout: Layout, r: int)
    requires Rendered(db, layout) && r in layout.pieces
    ensures r in db.receipts && db.receipts[r] == ReceiptOf(layout.pieces[r])
  {
  }

  lemma OwnerIs(piece: Piece)
    ensures ReceiptOf(piece).owner == piece.owner
  {
  }

  /** The columns of an Action, from what lives on it. */
  lemma ActionIs(home: Home)
    ensures
      var action := ActionOf(home);
      && action.operation == home.core.operation && action.externalKey == home.core.key
      && action.businessKey == home.core.business && action.identity == home.core.identity && action.agentRun == home.core.run
      && action.deliveryReceipt == home.delivery && action.preparedReceipt == home.prepared
      && action.status.None? && action.planId.None? && action.nextAttemptAt.None? && action.startedAt.None?
      && action.createdAt.None? && action.updatedAt.None?
  {
  }

  lemma MessageColumnsAre(home: Home)
    ensures
      var action := ActionOf(home);
      match home.postfix
      case Some(p) =>
        action.deliveryKey == Some(p.key) && action.postfixVersion == Some(p.version) && action.preparedAt == Some(p.createdAt)
        && (home.sent.None? ==>
              action.deliveryChannel == Some(p.channel) && action.preparedBody == Some(p.body)
              && action.feedbackToken == Some(p.token))
      case None => action.deliveryKey.None? && action.postfixVersion.None? && action.preparedAt.None?
  {
  }

  lemma ReplyColumnsAre(home: Home)
    ensures
      var action := ActionOf(home);
      match home.sent
      case Some(s) =>
        action.preparedBody == Some(s.text) && action.deliveryChannel == Some(s.channel)
        && action.feedbackToken == Some(s.token) && action.conversation == Some(s.conversation)
        && action.trigger == Some(s.trigger) && action.recallKey == Some(s.recallKey)
        && action.recallStatus == Some(s.recallStatus) && action.recallError == Some(s.recallError)
        && action.recalledAt == s.recalledAt
      case None =>
        action.conversation.None? && action.trigger.None? && action.recallKey.None? && action.recallStatus.None?
        && action.recallError.None? && action.recalledAt.None?
  {
  }

  lemma HomeIs(db: Db, layout: Layout, a: int)
    requires Rendered(db, layout) && a in layout.homes
    ensures a in db.actions && db.actions[a] == ActionOf(layout.homes[a])
  {
  }

  /** Where the rows of a canonical result are. */
  lemma ResultAt(db: Db, layout: Layout, canon: Canon, key: string)
    requires Rendered(db, layout) && ExternalsPlaced(layout, db.identities, canon) && key in canon.rows
    ensures key in canon.owners && key in canon.bodies && BodyReceipt(db, key) == Some(canon.bodies[key])
    ensures canon.owners[key] in layout.homes && layout.homes[canon.owners[key]].core == ExternalCore(canon.rows[key])
    ensures canon.bodies[key] in db.receipts && (ExternalResult, TextId(key)) in db.identities
    ensures db.receipts[canon.bodies[key]] == ReceiptOf(Piece(canon.owners[key], Canonical(canon.rows[key])))
    ensures
      var at := db.identities[(ExternalResult, TextId(key))];
      && at.action == canon.owners[key] && at.receipt.Some? && at.receipt.value in db.receipts
      && db.receipts[at.receipt.value] == ReceiptOf(Piece(at.action, Binding(canon.rows[key], canon.bodies[key])))
  {
    assert ExternalPlaced(layout, db.identities, canon, key);
    var b, c := db.identities[(ExternalResult, TextId(key))].receipt.value, canon.bodies[key];
    PieceIs(db, layout, b);
    PieceIs(db, layout, c);
    hide Rendered;
  }

  lemma ResultReceiptsAre(a: int, e: External, body: int)
    ensures ReceiptOf(Piece(a, Canonical(e))) == Receipt(
      owner := a, attemptNumber := None, status := None, operation := Some(e.operation),
      target := Some(e.target), providerResultId := None, body := Some(e.body), digest := Some(e.digest),
      agentRun := Some(e.run), observedAt := Some(e.createdAt), errorText := None, dispatchedAt := None,
      startedAt := None, finishedAt := None, execution := None, actionIndex := None, outcome := None,
      createdAt := None, updatedAt := None, provider := None)
    ensures ReceiptOf(Piece(a, Binding(e, body))) == Receipt(
      owner := a, attemptNumber := None, status := None, operation := Some(e.operation),
      target := Some(e.target), providerResultId := None, body := None, digest := Some(e.digest),
      agentRun := Some(e.run), observedAt := Some(e.createdAt), errorText := None, dispatchedAt := None,
      startedAt := None, finishedAt := None, execution := None, actionIndex := None, outcome := None,
      createdAt := Some(e.createdAt), updatedAt := None, provider := Some(body))
  {
  }

  lemma ResultHolds(db: Db, layout: Layout, book: Book, e: External)
    requires Rendered(db, layout) && ExternalsPlaced(layout, db.identities, book.canon)
    requires ByKey(book.canon.rows, book.facts.externals) && e in book.facts.externals
    ensures ResultWritten(db, e)
  {
    hide *;
    HasResultIs(book, e.key);
    ResultAt(db, layout, book.canon, e.key);
    var a := book.canon.owners[e.key];
    HomeIs(db, layout, a);
    ActionIs(layout.homes[a]);
    ResultReceiptsAre(a, e, book.canon.bodies[e.key]);
    ResultWrittenIs(db, layout, e, a, book.canon.bodies[e.key]);
  }

  lemma ResultWrittenIs(db: Db, layout: Layout, e: External, a: int, body: int)
    requires a in db.actions && (ExternalResult, TextId(e.key)) in db.identities
    requires
      var at := db.identities[(ExternalResult, TextId(e.key))];
      && at.action == a && at.receipt.Some? && at.receipt.value in db.receipts
      && db.receipts[at.receipt.value] == ReceiptOf(Piece(a, Binding(e, body)))
    requires
      var action := db.actions[a];
      && action.operation == ExternalCore(e).operation && action.externalKey == ExternalCore(e).key
      && action.businessKey == ExternalCore(e).business && action.identity == ExternalCore(e).identity
      && action.agentRun == ExternalCore(e).run
    requires body in db.receipts && db.receipts[body] == ReceiptOf(Piece(a, Canonical(e))) && BodyReceipt(db, e.key) == Some(body)
    ensures ResultWritten(db, e)
  {
    ResultReceiptsAre(a, e, body);
    hide ReceiptOf;
    hide BodyReceipt;
  }

  lemma AttemptReceiptIs(a: int, t: Attempt, step: PlanStep, canon: Canon)
    ensures
      var own := t.key != "" && t.key !in canon.rows;
      ReceiptOf(Piece(a, AttemptOrigin(t, step, canon))) == Receipt(
        owner := a, attemptNumber := None, status := Some(t.status),
        operation := if own then Some(step.operation) else None, target := if own then Some(step.target) else None,
        providerResultId := None, body := None, digest := None, agentRun := None, observedAt := None,
        errorText := None, dispatchedAt := None, startedAt := None, finishedAt := None,
        execution := Some(t.execution), actionIndex := Some(t.index), outcome := t.outcome,
        createdAt := Some(t.createdAt), updatedAt := Some(t.updatedAt),
        provider := if t.outcome.None? && t.key in canon.bodies then Some(canon.bodies[t.key]) else None)
  {
  }

  lemma AttemptAt(db: Db, layout: Layout, book: Book, t: Attempt)
    requires Rendered(db, layout) && AttemptPlaced(layout, db.identities, book.plan, book.canon, t)
    ensures (t.execution, t.index) in book.plan && Names(db, CandidateAttempt, IntegerId(t.id))
    ensures
      var (at, step) := (db.identities[(CandidateAttempt, IntegerId(t.id))], book.plan[(t.execution, t.index)]);
      && at.receipt.Some? && db.receipts[at.receipt.value] == ReceiptOf(Piece(at.action, AttemptOrigin(t, step, book.canon)))
      && at.action in layout.homes && db.actions[at.action] == ActionOf(layout.homes[at.action])
      && ReviewedCore(layout.homes[at.action].core, t, step)
  {
    var at := db.identities[(CandidateAttempt, IntegerId(t.id))];
    var r := at.receipt.value;
    PieceIs(db, layout, r);
    HomeIs(db, layout, at.action);
    OwnerIs(layout.pieces[r]);
    hide ActionOf;
    hide ReceiptOf;
    hide Rendered;
    hide ReviewedCore;
    hide AttemptOrigin;
  }

  lemma AttemptHolds(db: Db, layout: Layout, book: Book, t: Attempt)
    requires Rendered(db, layout) && ExternalsPlaced(layout, db.identities, book.canon)
    requires AttemptPlaced(layout, db.identities, book.plan, book.canon, t) && ByKey(book.canon.rows, book.facts.externals)
    ensures AttemptWritten(db, book.facts, book.plan, t)
  {
    HasResultIs(book, t.key);
    if t.key in book.canon.rows { ResultAt(db, layout, book.canon, t.key); }
    BodiesKnown(layout, db.identities, book.canon, t.key);
    AttemptAt(db, layout, book, t);
    var at := db.identities[(CandidateAttempt, IntegerId(t.id))];
    ActionIs(layout.homes[at.action]);
    AttemptReceiptIs(at.action, t, book.plan[(t.execution, t.index)], book.canon);
    hide ActionOf;
    hide ReceiptOf;
    hide Rendered;
    hide ExternalsPlaced;
    hide AttemptPlaced;
    hide ByKey;
    hide HasResult;
    hide BodyReceipt;
    hide AttemptOrigin;
    hide Names;
  }

  lemma BodiesKnown(layout: Layout, ids: Identities, canon: Canon, key: string)
    requires ExternalsPlaced(layout, ids, canon)
    ensures key in canon.bodies <==> key in canon.rows
  {
  }

  /** The attempts that resolve to a message are those the delivery owners were taken from. */
  lemma ResolvesIs(layout: Layout, ids: Identities, book: Book, p: Postfix)
    requires FirstPhases(layout, ids, book)
    ensures forall t | t in book.facts.attempts && Resolves(book.plan, t, p) ::
      p.Pair() in book.deliveries && (CandidateAttempt, IntegerId(t.id)) in ids
      && ids[(CandidateAttempt, IntegerId(t.id))].action == book.deliveries[p.Pair()]
    ensures p.Pair() in book.deliveries ==> exists t :: t in book.facts.attempts && Resolves(book.plan, t, p)
  {
    FirstPhasesIs(layout, ids, book);
    hide *;
    KnownIs(ids, book, p);
  }

  lemma KnownIs(ids: Identities, book: Book, p: Postfix)
    requires DeliveriesKnown(ids, book.plan, book.Attempts(), book.deliveries)
    ensures forall t | t in book.facts.attempts && Resolves(book.plan, t, p) ::
      p.Pair() in book.deliveries && (CandidateAttempt, IntegerId(t.id)) in ids
      && ids[(CandidateAttempt, IntegerId(t.id))].action == book.deliveries[p.Pair()]
    ensures p.Pair() in book.deliveries ==> exists t :: t in book.facts.attempts && Resolves(book.plan, t, p)
  {
    forall t | t in book.facts.attempts && Resolves(book.plan, t, p)
      ensures p.Pair() in book.deliveries && (CandidateAttempt, IntegerId(t.id)) in ids
      ensures ids[(CandidateAttempt, IntegerId(t.id))].action == book.deliveries[p.Pair()]
    {
      assert t in book.Attempts() && book.plan[(t.execution, t.index)].Delivery() == p.Pair();
    }
    if p.Pair() in book.deliveries {
      assert DeliverySeen(book.plan, book.Attempts(), p.Pair());
      var t :| t in book.Attempts() && (t.execution, t.index) in book.plan
               && book.plan[(t.execution, t.index)].Delivery() == p.Pair();
      assert Resolves(book.plan, t, p);
    }
  }

  lemma LoneHolds(home: Home, plan: Plan, p: Postfix)
    requires LoneCore(home.core, plan, p) && home.delivery.None?
    ensures LoneWritten(ActionOf(home), plan, p)
  {
    ActionIs(home);
    hide ActionOf;
    forall k | k in plan ensures StepResolves(plan[k], p) <==> plan[k].Delivery() == p.Pair() {
    }
  }

  /** A message on an Action of its own has no reply beside it. */
  lemma LoneUnsent(layout: Layout, ids: Identities, book: Book, p: Postfix, a: int)
    requires SentsPlaced(layout, ids, book.canon, Rows(book.facts.sents))
    requires a in layout.homes && layout.homes[a].postfix == Some(p) && layout.homes[a].core.key.None?
    ensures layout.homes[a].delivery.None?
  {
    assert layout.homes[a].sent.Some? ==> SentPlaced(layout, ids, book.canon, layout.homes[a].sent.value);
  }

  lemma SentNone(layout: Layout, ids: Identities, book: Book, a: int)
    requires SentsPlaced(layout, ids, book.canon, Rows(book.facts.sents)) && a in layout.homes
    ensures layout.homes[a].delivery.None? <==> layout.homes[a].sent.None?
    ensures layout.homes[a].sent.Some? ==>
      layout.homes[a].sent.value in book.facts.sents
      && (SentReply, IntegerId(layout.homes[a].sent.value.id)) in ids
      && ids[(SentReply, IntegerId(layout.homes[a].sent.value.id))].action == a
  {
    if layout.homes[a].sent.Some? {
      var s := layout.homes[a].sent.value;
      assert SentPlaced(layout, ids, book.canon, s);
    }
  }

  /** The columns and map rows of a message, apart from whose Action it is on. */
  ghost predicate MessageRow(db: Db, facts: Facts, p: Postfix) {
    Names(db, OutboundPostfix, TextPair(p.channel, p.key))
    && var at := db.identities[(OutboundPostfix, TextPair(p.channel, p.key))];
       var (action, pair) := (db.actions[at.action], (p.channel, p.key));
       && action.deliveryKey == Some(p.key) && action.postfixVersion == Some(p.version) && action.preparedAt == Some(p.createdAt)
       && (action.deliveryReceipt.None? ==>
             action.deliveryChannel == Some(p.channel) && action.preparedBody == Some(p.body) && action.feedbackToken == Some(p.token))
       && (at.receipt.Some? <==> pair in facts.receipts || pair in facts.dispatches)
       && action.preparedReceipt == (if pair in facts.receipts then at.receipt else None)
       && (at.receipt.Some? ==>
             db.receipts[at.receipt.value] == ReceiptOf(Piece(at.action, PostfixOrigin(facts, p))))
  }

  lemma MessageRowHolds(db: Db, layout: Layout, book: Book, p: Postfix)
    requires Rendered(db, layout) && PostfixPlaced(layout, db.identities, book.facts, p)
    requires SentsPlaced(layout, db.identities, book.canon, Rows(book.facts.sents))
    ensures MessageRow(db, book.facts, p)
  {
    var at := db.identities[(OutboundPostfix, PairId(p.Pair()))];
    HomeIs(db, layout, at.action);
    ActionIs(layout.homes[at.action]);
    MessageColumnsAre(layout.homes[at.action]);
    SentNone(layout, db.identities, book, at.action);
    if at.receipt.Some? {
      var r := at.receipt.value;
      PieceIs(db, layout, r);
      OwnerIs(layout.pieces[r]);
    }
    hide ActionOf;
    hide ReceiptOf;
    hide Rendered;
    hide SentsPlaced;
  }

  lemma MessageReceiptIs(facts: Facts, p: Postfix, a: int)
    ensures
      var pair := (p.channel, p.key);
      ReceiptOf(Piece(a, PostfixOrigin(facts, p))) == Receipt(
        owner := a, attemptNumber := None, status := None, operation := None, target := None,
        providerResultId := None, body := if pair in facts.receipts then Some(facts.receipts[pair].body) else None,
        digest := None, agentRun := None,
        observedAt := if pair in facts.receipts then Some(facts.receipts[pair].createdAt) else None,
        errorText := None, dispatchedAt := if pair in facts.dispatches then Some(facts.dispatches[pair]) else None,
        startedAt := None, finishedAt := None, execution := None, actionIndex := None, outcome := None,
        createdAt := None, updatedAt := None, provider := None)
  {
  }

  lemma ChildrenHold(layout: Layout, db: Db, facts: Facts, p: Postfix)
    requires PostfixesPlaced(layout, db.identities, facts, Rows(facts.postfixes)) && p in facts.postfixes
    ensures (OutboundPostfix, TextPair(p.channel, p.key)) in db.identities
    ensures
      var at := db.identities[(OutboundPostfix, TextPair(p.channel, p.key))];
      && ChildMapped(db, PostfixReceipt, p, (p.channel, p.key) in facts.receipts, at)
      && ChildMapped(db, NativeDispatch, p, (p.channel, p.key) in facts.dispatches, at)
  {
    assert p in Rows(facts.postfixes);
    assert PostfixPlaced(layout, db.identities, facts, p);
  }

  lemma MessageOwner(layout: Layout, ids: Identities, book: Book, p: Postfix)
    requires FirstPhases(layout, ids, book) && PostfixVia(layout, ids, book, p)
    requires PostfixPlaced(layout, ids, book.facts, p) && SentsPlaced(layout, ids, book.canon, Rows(book.facts.sents))
    ensures
      var a := ids[(OutboundPostfix, TextPair(p.channel, p.key))].action;
      && a in layout.homes
      && (forall t | t in book.facts.attempts && Resolves(book.plan, t, p) ::
            (CandidateAttempt, IntegerId(t.id)) in ids && ids[(CandidateAttempt, IntegerId(t.id))].action == a)
      && ((forall t | t in book.facts.attempts :: !Resolves(book.plan, t, p)) ==>
            LoneWritten(ActionOf(layout.homes[a]), book.plan, p))
  {
    var a := ids[(OutboundPostfix, PairId(p.Pair()))].action;
    ResolvesIs(layout, ids, book, p);
    if p.Pair() !in book.deliveries {
      LoneKeyless(layout.homes[a].core, book.plan, p);
      LoneUnsent(layout, ids, book, p, a);
      LoneHolds(layout.homes[a], book.plan, p);
    }
    hide FirstPhases;
    hide SentsPlaced;
    hide ActionOf;
    hide Resolves;
    hide LoneCore;
    hide LoneWritten;
  }

  lemma LoneKeyless(core: Core, plan: Plan, p: Postfix)
    requires LoneCore(core, plan, p)
    ensures core.key.None?
  {
  }

  lemma MessageHolds(db: Db, layout: Layout, book: Book, p: Postfix)
    requires Rendered(db, layout) && AllPlaced(layout, db.identities, book, Rows(book.facts.sents)) && p in book.facts.postfixes
    ensures MessageWritten(db, book.facts, book.plan, p)
  {
    AllPlacedIs(layout, db.identities, book, Rows(book.facts.sents));
    MessageThere(layout, db.identities, book, p);
    MessageRowHolds(db, layout, book, p);
    ChildrenHold(layout, db, book.facts, p);
    MessageOwner(layout, db.identities, book, p);
    var at := db.identities[(OutboundPostfix, TextPair(p.channel, p.key))];
    HomeIs(db, layout, at.action);
    MessageReceiptIs(book.facts, p, at.action);
    hide *;
    MessageWrittenIs(db, book.facts, book.plan, p);
  }

  lemma MessageThere(layout: Layout, ids: Identities, book: Book, p: Postfix)
    requires PostfixesPlaced(layout, ids, book.facts, Rows(book.facts.postfixes))
    requires PostfixesVia(layout, ids, book, Rows(book.facts.postfixes)) && p in book.facts.postfixes
    ensures PostfixPlaced(layout, ids, book.facts, p) && PostfixVia(layout, ids, book, p)
    ensures (OutboundPostfix, TextPair(p.channel, p.key)) in ids
  {
    assert p in Rows(book.facts.postfixes);
  }

  lemma MessageWrittenIs(db: Db, facts: Facts, plan: Plan, p: Postfix)
    requires MessageRow(db, facts, p)
    requires
      var at := db.identities[(OutboundPostfix, TextPair(p.channel, p.key))];
      var action := db.actions[at.action];
      && ChildMapped(db, PostfixReceipt, p, (p.channel, p.key) in facts.receipts, at)
      && ChildMapped(db, NativeDispatch, p, (p.channel, p.key) in facts.dispatches, at)
      && (forall t | t in facts.attempts && Resolves(plan, t, p) ::
            (CandidateAttempt, IntegerId(t.id)) in db.identities
            && db.identities[(CandidateAttempt, IntegerId(t.id))].action == at.action)
      && ((forall t | t in facts.attempts :: !Resolves(plan, t, p)) ==> LoneWritten(action, plan, p))
    ensures MessageWritten(db, facts, plan, p)
  {
    MessageReceiptIs(facts, p, db.identities[(OutboundPostfix, TextPair(p.channel, p.key))].action);
    hide ReceiptOf;
    hide Resolves;
    hide LoneWritten;
    hide ChildMapped;
  }

  lemma ReplyReceiptIs(a: int, s: Sent, canon: Canon)
    ensures ReceiptOf(Piece(a, SentOrigin(s, canon))) == Receipt(
      owner := a, attemptNumber := None, status := None, operation := None, target := None,
      providerResultId := None, body := s.result, digest := None, agentRun := Some(s.run),
      observedAt := Some(s.sentAt), errorText := None, dispatchedAt := None, startedAt := None, finishedAt := None,
      execution := None, actionIndex := None, outcome := None, createdAt := None, updatedAt := None,
      provider := if s.result.None? && s.key in canon.bodies then Some(canon.bodies[s.key]) else None)
  {
  }

  lemma ReplyAtRow(db: Db, layout: Layout, canon: Canon, s: Sent)
    requires Rendered(db, layout) && SentPlaced(layout, db.identities, canon, s)
    ensures Names(db, SentReply, IntegerId(s.id)) && db.identities[(SentReply, IntegerId(s.id))].receipt.Some?
    ensures
      var at := db.identities[(SentReply, IntegerId(s.id))];
      && db.receipts[at.receipt.value] == ReceiptOf(Piece(at.action, SentOrigin(s, canon)))
      && at.action in layout.homes && db.actions[at.action] == ActionOf(layout.homes[at.action])
      && layout.homes[at.action].sent == Some(s) && layout.homes[at.action].delivery == at.receipt
  {
    var at := db.identities[(SentReply, IntegerId(s.id))];
    var r := at.receipt.value;
    PieceIs(db, layout, r);
    HomeIs(db, layout, at.action);
    OwnerIs(layout.pieces[r]);
    hide ActionOf;
    hide ReceiptOf;
    hide Rendered;
    hide SentOrigin;
  }

  /** A reply without a canonical result is on an Action without a message. */
  lemma OwnHomeHolds(db: Db, layout: Layout, book: Book, s: Sent)
    requires Rendered(db, layout) && SentPlaced(layout, db.identities, book.canon, s) && s.key !in book.canon.rows
    requires PostfixesPlaced(layout, db.identities, book.facts, Rows(book.facts.postfixes))
    ensures (SentReply, IntegerId(s.id)) in db.identities
    ensures
      var a := db.identities[(SentReply, IntegerId(s.id))].action;
      a in db.actions && OwnHome(db.actions[a], s.run)
  {
    var a := db.identities[(SentReply, IntegerId(s.id))].action;
    HomeIs(db, layout, a);
    ActionIs(layout.homes[a]);
    MessageColumnsAre(layout.homes[a]);
    hide ActionOf;
    hide Rendered;
    hide PostfixPlaced;
  }

  lemma ResultHomeHolds(db: Db, layout: Layout, book: Book, s: Sent)
    requires Kept(db, layout) && SentPlaced(layout, db.identities, book.canon, s) && s.key in book.canon.rows
    requires ExternalsPlaced(layout, db.identities, book.canon)
    ensures (SentReply, IntegerId(s.id)) in db.identities
    ensures ResultHome(db, s.key, db.identities[(SentReply, IntegerId(s.id))].action)
  {
    KeptIs(db, layout);
    ResultAt(db, layout, book.canon, s.key);
    var a := db.identities[(SentReply, IntegerId(s.id))].action;
    ExternalKeyIs(book.canon.rows[s.key], layout, db.identities, book.canon, s.key);
    OneHome(db, layout, book.canon.owners[s.key], a);
    hide Kept;
    hide ExternalsPlaced;
  }

  lemma ExternalKeyIs(e: External, layout: Layout, ids: Identities, canon: Canon, key: string)
    requires ExternalsPlaced(layout, ids, canon) && key in canon.rows && canon.rows[key] == e
    ensures ExternalCore(e).key == Some(key)
  {
    assert ExternalPlaced(layout, ids, canon, key);
  }

  lemma ReplyHolds(db: Db, layout: Layout, book: Book, s: Sent)
    requires Kept(db, layout) && AllPlaced(layout, db.identities, book, Rows(book.facts.sents))
    requires ByKey(book.canon.rows, book.facts.externals) && s in book.facts.sents
    ensures ReplyWritten(db, book.facts, s)
  {
    hide *;
    AllPlacedIs(layout, db.identities, book, Rows(book.facts.sents));
    FirstPhasesIs(layout, db.identities, book);
    KeptIs(db, layout);
    ReplyPlaced(layout, db.identities, book, s);
    HasResultIs(book, s.key);
    BodiesKnown(layout, db.identities, book.canon, s.key);
    ReplyAtRow(db, layout, book.canon, s);
    NamesThere(db, SentReply, IntegerId(s.id));
    var at := db.identities[(SentReply, IntegerId(s.id))];
    ActionIs(layout.homes[at.action]);
    ReplyColumnsAre(layout.homes[at.action]);
    ReplyReceiptIs(at.action, s, book.canon);
    if s.key in book.canon.rows {
      ResultAt(db, layout, book.canon, s.key);
      ResultHomeHolds(db, layout, book, s);
    } else {
      OwnHomeHolds(db, layout, book, s);
    }
    ReplyWrittenIs(db, book.facts, s);
  }

  lemma NamesThere(db: Db, family: Family, identity: Identity)
    requires Names(db, family, identity)
    ensures (family, identity) in db.identities && db.identities[(family, identity)].action in db.actions
    ensures
      var at := db.identities[(family, identity)];
      at.receipt.Some? ==> at.receipt.value in db.receipts && db.receipts[at.receipt.value].owner == at.action
  {
  }

  lemma ReplyPlaced(layout: Layout, ids: Identities, book: Book, s: Sent)
    requires SentsPlaced(layout, ids, book.canon, Rows(book.facts.sents)) && s in book.facts.sents
    ensures SentPlaced(layout, ids, book.canon, s)
  {
  }

  lemma ReplyWrittenIs(db: Db, facts: Facts, s: Sent)
    requires Names(db, SentReply, IntegerId(s.id)) && db.identities[(SentReply, IntegerId(s.id))].receipt.Some?
    requires
      var at := db.identities[(SentReply, IntegerId(s.id))];
      var action := db.actions[at.action];
      && action.preparedBody == Some(s.text) && action.deliveryChannel == Some(s.channel)
      && action.feedbackToken == Some(s.token) && action.conversation == Some(s.conversation)
      && action.trigger == Some(s.trigger) && action.recallKey == Some(s.recallKey)
      && action.recallStatus == Some(s.recallStatus) && action.recallError == Some(s.recallError)
      && action.recalledAt == s.recalledAt && action.deliveryReceipt == at.receipt
      && (if HasResult(facts, s.key) then ResultHome(db, s.key, at.action) else OwnHome(action, s.run))
      && db.receipts[at.receipt.value] == Receipt(
           owner := at.action, attemptNumber := None, status := None, operation := None, target := None,
           providerResultId := None, body := s.result, digest := None, agentRun := Some(s.run),
           observedAt := Some(s.sentAt), errorText := None, dispatchedAt := None, startedAt := None, finishedAt := None,
           execution := None, actionIndex := None, outcome := None, createdAt := None, updatedAt := None,
           provider := if s.result.None? && HasResult(facts, s.key) then BodyReceipt(db, s.key) else None)
    ensures ReplyWritten(db, facts, s)
  {
    hide HasResult;
    hide BodyReceipt;
    hide OwnHome;
    hide ResultHome;
  }

  lemma ObserverHolds(db: Db, rows: seq<Observer>, o: Observer)
    requires ObserversPlaced(db.observers, db.identities, Rows(rows)) && o in rows
    ensures ObserverWritten(db, o)
  {
    assert ObserverPlaced(db.observers, db.identities, o);
  }

  // ---------- nothing else ----------

  lemma MapRowsHold(layout: Layout, db: Db, book: Book)
    requires ExternalsPlaced(layout, db.identities, book.canon) && ByKey(book.canon.rows, book.facts.externals)
    requires AttemptsPlaced(layout, db.identities, book.plan, book.canon, Rows(book.facts.attempts))
    requires PostfixesPlaced(layout, db.identities, book.facts, Rows(book.facts.postfixes))
    requires SentsPlaced(layout, db.identities, book.canon, Rows(book.facts.sents))
    requires ObserversPlaced(db.observers, db.identities, Rows(book.facts.observers))
    ensures MapRowsKnown(db.identities, book.facts)
  {
    hide ExternalPlaced;
    hide AttemptPlaced;
    hide PostfixPlaced;
    hide SentPlaced;
    hide ObserverPlaced;
    forall k | k in db.identities
      ensures k.0.ExternalResult? ==> exists e :: e in book.facts.externals && k.1 == TextId(e.key)
    {
      if k.0.ExternalResult? {
        assert (ExternalResult, k.1) in db.identities;
        var e := book.canon.rows[k.1.text];
        assert e in book.facts.externals;
      }
    }
    forall k | k in db.identities
      ensures k.0.CandidateAttempt? ==> exists t :: t in book.facts.attempts && k.1 == IntegerId(t.id)
    {
      if k.0.CandidateAttempt? { assert (CandidateAttempt, k.1) in db.identities; }
    }
    forall k | k in db.identities
      ensures k.0.SentReply? ==> exists s :: s in book.facts.sents && k.1 == IntegerId(s.id)
    {
      if k.0.SentReply? { assert (SentReply, k.1) in db.identities; }
    }
    forall k | k in db.identities
      ensures k.0.SentObserver? ==> exists o :: o in book.facts.observers && k.1 == IntegerPair(o.sent, o.run)
    {
      if k.0.SentObserver? { assert (SentObserver, k.1) in db.identities; }
    }
    MessageRowsKnown(layout, db, book);
  }

  lemma MessageRowsKnown(layout: Layout, db: Db, book: Book)
    requires PostfixesPlaced(layout, db.identities, book.facts, Rows(book.facts.postfixes))
    ensures forall k | k in db.identities && k.0.OutboundPostfix? ::
      exists p :: p in book.facts.postfixes && k.1 == TextPair(p.channel, p.key)
    ensures forall k | k in db.identities && k.0.PostfixReceipt? ::
      exists pair :: pair in book.facts.receipts && k.1 == TextPair(pair.0, pair.1)
    ensures forall k | k in db.identities && k.0.NativeDispatch? ::
      exists pair :: pair in book.facts.dispatches && k.1 == TextPair(pair.0, pair.1)
  {
    hide PostfixPlaced;
    forall k | k in db.identities && k.0.OutboundPostfix?
      ensures exists p :: p in book.facts.postfixes && k.1 == TextPair(p.channel, p.key)
    {
      assert (OutboundPostfix, k.1) in db.identities;
    }
    forall k | k in db.identities && k.0.PostfixReceipt?
      ensures exists pair :: pair in book.facts.receipts && k.1 == TextPair(pair.0, pair.1)
    {
      assert (PostfixReceipt, k.1) in db.identities;
      var p :| p in Rows(book.facts.postfixes) && k.1 == PairId(p.Pair()) && p.Pair() in book.facts.receipts;
      assert k.1 == TextPair(p.Pair().0, p.Pair().1);
    }
    forall k | k in db.identities && k.0.NativeDispatch?
      ensures exists pair :: pair in book.facts.dispatches && k.1 == TextPair(pair.0, pair.1)
    {
      assert (NativeDispatch, k.1) in db.identities;
      var p :| p in Rows(book.facts.postfixes) && k.1 == PairId(p.Pair()) && p.Pair() in book.facts.dispatches;
      assert k.1 == TextPair(p.Pair().0, p.Pair().1);
    }
  }

  /** Whose Action it is, of those the account knows. */
  lemma ActionNamed(layout: Layout, ids: Identities, book: Book, db: Db, a: int)
    requires Kept(db, layout) && AllPlaced(layout, ids, book, Rows(book.facts.sents)) && a in layout.homes && ids == db.identities
    ensures NamesAction(ids, {ExternalResult, CandidateAttempt, OutboundPostfix, SentReply}, a)
    ensures layout.homes[a].postfix.Some? ==> NamesAction(ids, {OutboundPostfix}, a)
    ensures layout.homes[a].postfix.None? ==> layout.homes[a].prepared.None?
    ensures layout.homes[a].sent.Some? ==> NamesAction(ids, {SentReply}, a)
    ensures layout.homes[a].sent.None? ==> layout.homes[a].delivery.None?
  {
    hide *;
    AllPlacedIs(layout, ids, book, Rows(book.facts.sents));
    FirstPhasesIs(layout, ids, book);
    PostfixNamed(layout, ids, book, a);
    SentNamed(layout, ids, book, a);
    KeptIs(db, layout);
    FactNamed(layout, ids, a);
    AnyNamed(ids, a);
  }

  lemma AnyNamed(ids: Identities, a: int)
    ensures
      NamesAction(ids, {ExternalResult}, a) || NamesAction(ids, {CandidateAttempt}, a)
      || NamesAction(ids, {OutboundPostfix}, a) || NamesAction(ids, {SentReply}, a)
      ==> NamesAction(ids, {ExternalResult, CandidateAttempt, OutboundPostfix, SentReply}, a)
  {
  }

  lemma PostfixNamed(layout: Layout, ids: Identities, book: Book, a: int)
    requires PostfixesPlaced(layout, ids, book.facts, Rows(book.facts.postfixes)) && a in layout.homes
    ensures layout.homes[a].postfix.Some? ==> NamesAction(ids, {OutboundPostfix}, a)
    ensures layout.homes[a].postfix.None? ==> layout.homes[a].prepared.None?
  {
    if layout.homes[a].postfix.Some? {
      var p := layout.homes[a].postfix.value;
      assert PostfixPlaced(layout, ids, book.facts, p);
      assert (OutboundPostfix, PairId(p.Pair())) in ids;
    }
  }

  lemma SentNamed(layout: Layout, ids: Identities, book: Book, a: int)
    requires SentsPlaced(layout, ids, book.canon, Rows(book.facts.sents)) && a in layout.homes
    ensures layout.homes[a].sent.Some? ==> NamesAction(ids, {SentReply}, a)
    ensures layout.homes[a].sent.None? ==> layout.homes[a].delivery.None?
  {
    if layout.homes[a].sent.Some? {
      var s := layout.homes[a].sent.value;
      assert SentPlaced(layout, ids, book.canon, s);
      assert (SentReply, IntegerId(s.id)) in ids;
    }
  }

  lemma FactNamed(layout: Layout, ids: Identities, a: int)
    requires Represented(layout, ids) && a in layout.homes
    ensures
      layout.homes[a].postfix.Some? || layout.homes[a].sent.Some?
      || NamesAction(ids, {ExternalResult}, a) || NamesAction(ids, {CandidateAttempt}, a)
  {
    if FactMapped(ids, a) {
      var k :| k in ids && (k.0 == ExternalResult || k.0 == CandidateAttempt) && ids[k].action == a;
      assert k.0 in {ExternalResult} || k.0 in {CandidateAttempt};
    }
  }

  lemma ActionsHold(db: Db, layout: Layout, book: Book)
    requires Kept(db, layout) && AllPlaced(layout, db.identities, book, Rows(book.facts.sents))
    ensures ActionsKnown(db)
  {
    KeptIs(db, layout);
    assert db.actions.Keys == layout.homes.Keys;
    forall a | a in db.actions
      ensures a in layout.homes && ActionKnown(db, a)
    {
      assert a in layout.homes;
      HomeIs(db, layout, a);
      ActionNamed(layout, db.identities, book, db, a);
      ActionIs(layout.homes[a]);
      MessageColumnsAre(layout.homes[a]);
      ReplyColumnsAre(layout.homes[a]);
    }
    hide ActionOf;
    hide NamesAction;
    hide Kept;
    hide Rendered;
    hide AllPlaced;
  }

  lemma ReceiptsHold(db: Db, layout: Layout, book: Book)
    requires Rendered(db, layout) && AllPlaced(layout, db.identities, book, Rows(book.facts.sents))
    requires ByKey(book.canon.rows, book.facts.externals)
    ensures ReceiptsKnown(db, book.facts)
  {
    forall r | r in db.receipts ensures ReceiptKnown(db, book.facts, r) {
      assert r in layout.pieces;
      PieceIs(db, layout, r);
      OwnerIs(layout.pieces[r]);
      PieceNamed(db, layout, book, r);
    }
    hide Rendered;
    hide AllPlaced;
    hide ReceiptOf;
    hide ReceiptKnown;
  }

  lemma PieceNamed(db: Db, layout: Layout, book: Book, r: int)
    requires Rendered(db, layout) && AllPlaced(layout, db.identities, book, Rows(book.facts.sents))
    requires ByKey(book.canon.rows, book.facts.externals) && r in layout.pieces
    requires r in db.receipts && db.receipts[r].owner == layout.pieces[r].owner
    ensures ReceiptKnown(db, book.facts, r)
  {
    hide *;
    AllPlacedIs(layout, db.identities, book, Rows(book.facts.sents));
    FirstPhasesIs(layout, db.identities, book);
    if ForResult(layout.pieces[r].origin) {
      CanonicalNamed(db, layout, book, r);
    } else {
      OthersNamed(db, layout, book, r);
    }
  }

  lemma OthersNamed(db: Db, layout: Layout, book: Book, r: int)
    requires AttemptsPlaced(layout, db.identities, book.plan, book.canon, book.Attempts())
    requires PostfixesPlaced(layout, db.identities, book.facts, Rows(book.facts.postfixes))
    requires SentsPlaced(layout, db.identities, book.canon, Rows(book.facts.sents))
    requires r in layout.pieces && r in db.receipts && db.receipts[r].owner == layout.pieces[r].owner
    requires !ForResult(layout.pieces[r].origin)
    ensures ReceiptKnown(db, book.facts, r)
  {
    var origin := layout.pieces[r].origin;
    hide AttemptPlaced;
    hide SentPlaced;
    if origin.Observed? {
      var k := (CandidateAttempt, IntegerId(origin.attempt.id));
      AttemptKeyed(layout, db.identities, book, origin.attempt, r);
      assert k in db.identities && db.identities[k] == Mapped(db.receipts[r].owner, Some(r));
    } else if origin.Prepared? {
      var k := (OutboundPostfix, PairId(origin.postfix.Pair()));
      assert PostfixPlaced(layout, db.identities, book.facts, origin.postfix);
      assert k in db.identities && db.identities[k] == Mapped(db.receipts[r].owner, Some(r));
    } else {
      var k := (SentReply, IntegerId(origin.sent.id));
      ReplyKeyed(layout, db.identities, book, origin.sent, r);
      assert k in db.identities && db.identities[k] == Mapped(db.receipts[r].owner, Some(r));
    }
  }

  lemma AttemptKeyed(layout: Layout, ids: Identities, book: Book, t: Attempt, r: int)
    requires AttemptsPlaced(layout, ids, book.plan, book.canon, book.Attempts())
    requires r in layout.pieces && layout.pieces[r].origin.Observed? && layout.pieces[r].origin.attempt == t
    ensures (CandidateAttempt, IntegerId(t.id)) in ids
    ensures ids[(CandidateAttempt, IntegerId(t.id))] == Mapped(layout.pieces[r].owner, Some(r))
  {
  }

  lemma ReplyKeyed(layout: Layout, ids: Identities, book: Book, s: Sent, r: int)
    requires SentsPlaced(layout, ids, book.canon, Rows(book.facts.sents))
    requires r in layout.pieces && layout.pieces[r].origin.Delivered? && layout.pieces[r].origin.sent == s
    ensures (SentReply, IntegerId(s.id)) in ids
    ensures ids[(SentReply, IntegerId(s.id))] == Mapped(layout.pieces[r].owner, Some(r))
  {
  }

  lemma CanonicalNamed(db: Db, layout: Layout, book: Book, r: int)
    requires Rendered(db, layout) && ExternalsPlaced(layout, db.identities, book.canon)
    requires ByKey(book.canon.rows, book.facts.externals) && r in layout.pieces && ForResult(layout.pieces[r].origin)
    requires r in db.receipts && db.receipts[r].owner == layout.pieces[r].owner
    ensures ReceiptKnown(db, book.facts, r)
  {
    var key := layout.pieces[r].origin.external.key;
    var k := (ExternalResult, TextId(key));
    PieceKey(layout, db.identities, book.canon, r);
    if layout.pieces[r].origin.Canonical? {
      HasResultIs(book, key);
      ResultAt(db, layout, book.canon, key);
      assert BodyReceipt(db, key) == Some(r);
    } else {
      assert k in db.identities && db.identities[k] == Mapped(db.receipts[r].owner, Some(r));
    }
    hide Rendered;
    hide ExternalsPlaced;
    hide ByKey;
    hide BodyReceipt;
    hide ReceiptOf;
  }

  lemma PieceKey(layout: Layout, ids: Identities, canon: Canon, r: int)
    requires ExternalsPlaced(layout, ids, canon) && r in layout.pieces && ForResult(layout.pieces[r].origin)
    ensures ResultPiece(layout.pieces[r], ids, canon, r) && layout.pieces[r].origin.external.key in canon.rows
  {
    hide ExternalPlaced;
    hide ResultPiece;
    assert ResultPiece(layout.pieces[r], ids, canon, r);
    ResultPieceKey(layout.pieces[r], ids, canon, r);
  }

  lemma ResultPieceKey(piece: Piece, ids: Identities, canon: Canon, r: int)
    requires ForResult(piece.origin) && ResultPiece(piece, ids, canon, r)
    ensures piece.origin.external.key in canon.owners
  {
  }

  // ---------- the whole transfer ----------

  /** What a transfer that goes through leaves on the tables, whatever the facts and the plan. */
  lemma TransferWritten(db: Db, layout: Layout, book: Book)
    requires Kept(db, layout) && AllPlaced(layout, db.identities, book, Rows(book.facts.sents))
    requires ByKey(book.canon.rows, book.facts.externals)
    requires ObserversPlaced(db.observers, db.identities, Rows(book.facts.observers))
    ensures Written(db, book.facts, book.plan)
  {
    hide *;
    KeptIs(db, layout);
    AllPlacedIs(layout, db.identities, book, Rows(book.facts.sents));
    FirstPhasesIs(layout, db.identities, book);
    AttemptRowsIs(book);
    forall e | e in book.facts.externals ensures ResultWritten(db, e) { ResultHolds(db, layout, book, e); }
    forall t | t in book.facts.attempts ensures AttemptWritten(db, book.facts, book.plan, t) {
      AttemptThere(layout, db.identities, book, t);
      AttemptHolds(db, layout, book, t);
    }
    forall p | p in book.facts.postfixes ensures MessageWritten(db, book.facts, book.plan, p) { MessageHolds(db, layout, book, p); }
    forall s | s in book.facts.sents ensures ReplyWritten(db, book.facts, s) { ReplyHolds(db, layout, book, s); }
    forall o | o in book.facts.observers ensures ObserverWritten(db, o) { ObserverHolds(db, book.facts.observers, o); }
    MapRowsHold(layout, db, book);
    ActionsHold(db, layout, book);
    ReceiptsHold(db, layout, book);
    ObserversHold(db, book.facts);
    WrittenIs(db, book.facts, book.plan);
  }

  lemma AttemptRowsIs(book: Book)
    ensures book.Attempts() == Rows(book.facts.attempts)
  {
  }

  lemma AttemptThere(layout: Layout, ids: Identities, book: Book, t: Attempt)
    requires AttemptsPlaced(layout, ids, book.plan, book.canon, Rows(book.facts.attempts)) && t in book.facts.attempts
    ensures AttemptPlaced(layout, ids, book.plan, book.canon, t)
  {
    assert t in Rows(book.facts.attempts);
  }

  lemma ObserversHold(db: Db, facts: Facts)
    requires ObserversPlaced(db.observers, db.identities, Rows(facts.observers))
    ensures ObserversKnown(db, facts)
  {
    hide ObserverPlaced;
  }

  lemma WrittenIs(db: Db, facts: Facts, plan: Plan)
    requires (forall e | e in facts.externals :: ResultWritten(db, e))
    requires (forall t | t in facts.attempts :: AttemptWritten(db, facts, plan, t))
    requires (forall p | p in facts.postfixes :: MessageWritten(db, facts, plan, p))
    requires (forall s | s in facts.sents :: ReplyWritten(db, facts, s))
    requires (forall o | o in facts.observers :: ObserverWritten(db, o))
    requires MapRowsKnown(db.identities, facts) && ActionsKnown(db) && ReceiptsKnown(db, facts) && ObserversKnown(db, facts)
    ensures Written(db, facts, plan)
  {
    hide ResultWritten;
    hide AttemptWritten;
    hide MessageWritten;
    hide ReplyWritten;
    hide ObserverWritten;
    hide MapRowsKnown;
    hide ActionsKnown;
    hide ReceiptsKnown;
    hide ObserversKnown;
  }
}
