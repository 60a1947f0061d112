/**
 * The predecessor's facts, and what the common Action tables look like when they hold them.
 *
 * `Layout` is a ghost account of the target tables: for every Action which facts live on it, and for
 * every receipt which fact it was written for.  `Rendered` says the tables are exactly that account.
 */
module TransferModel {
  import opened Wrappers
  import opened ActionEntity

  type Pair = (string, string)

  datatype External = External(
    key: string, business: string, identity: string, operation: string, target: string,
    body: string, digest: string, run: int, createdAt: string)

  datatype Attempt = Attempt(
    id: int, execution: int, index: int, key: string, status: string, outcome: Text,
    createdAt: string, updatedAt: string)

  datatype Postfix = Postfix(
    channel: string, key: string, body: string, token: string, version: string, createdAt: string)
  {
    function Pair(): Pair { (channel, key) }
  }

  datatype PreparedReceipt = PreparedReceipt(body: string, createdAt: string)

  datatype Sent = Sent(
    id: int, conversation: string, trigger: string, text: string, sentAt: string, result: Text,
    recallKey: string, recallStatus: string, recallError: string, recalledAt: Text,
    token: string, channel: string, run: int, key: string)

  datatype Observer = Observer(sent: int, run: int, task: int, createdAt: string)

  /** The seven families.  Receipts and dispatches are columns of their prepared row, hence keyed by it. */
  datatype Facts = Facts(
    externals: seq<External>, attempts: seq<Attempt>, postfixes: seq<Postfix>,
    receipts: map<Pair, PreparedReceipt>, dispatches: map<Pair, string>,
    sents: seq<Sent>, observers: seq<Observer>)

  /** One step of an exact approved plan, with the delivery key computed from it. */
  datatype PlanStep = PlanStep(
    business: string, identity: string, option: string, operation: string, target: string,
    channel: string, deliveryKey: string)
  {
    function Delivery(): Pair { (channel, deliveryKey) }

    /** The identity delivery keys are made from: a selected option is appended to it. */
    function FullIdentity(): string { identity + (if option == "" then "" else ":" + option) }
  }

  /** Approved steps by (execution, action index). */
  type Plan = map<(int, int), PlanStep>

  datatype PreparedCandidate = PreparedCandidate(business: string, identity: string)

  /** What a key without a canonical result stands for. */
  datatype Effect = Effect(business: string, identity: string, operation: string, target: string)

  function EffectOf(step: PlanStep): Effect {
    Effect(step.business, step.identity, step.operation, step.target)
  }

  function CandidateOf(step: PlanStep): PreparedCandidate {
    PreparedCandidate(step.business, step.FullIdentity())
  }

  const ATTEMPT_STATUSES := { "dispatched", "verified", "confirmed_no_effect", "uncertain", "failed" }

  // ---------- what the predecessor's own declarations guarantee ----------

  ghost predicate ExternalsUnique(rows: seq<External>) {
    forall i, j | 0 <= i < j < |rows| :: rows[i].key != rows[j].key
  }

  ghost predicate AttemptsUnique(rows: seq<Attempt>) {
    && (forall i, j | 0 <= i < j < |rows| :: rows[i].id != rows[j].id)
    && (forall i, j | 0 <= i < j < |rows| :: (rows[i].execution, rows[i].index) != (rows[j].execution, rows[j].index))
    && (forall t | t in rows :: t.status in ATTEMPT_STATUSES)
  }

  ghost predicate PostfixesUnique(rows: seq<Postfix>) {
    forall i, j | 0 <= i < j < |rows| :: rows[i].Pair() != rows[j].Pair()
  }

  ghost predicate ChildrenHaveParents(facts: Facts) {
    && (forall pair | pair in facts.receipts :: exists p :: p in facts.postfixes && p.Pair() == pair)
    && (forall pair | pair in facts.dispatches :: exists p :: p in facts.postfixes && p.Pair() == pair)
  }

  ghost predicate SentsUnique(rows: seq<Sent>) {
    && (forall i, j | 0 <= i < j < |rows| :: rows[i].id != rows[j].id)
    && (forall i, j | 0 <= i < j < |rows| :: rows[i].key != "" ==> rows[i].key != rows[j].key)
  }

  ghost predicate ObserversUnique(rows: seq<Observer>) {
    forall i, j | 0 <= i < j < |rows| :: (rows[i].sent, rows[i].run) != (rows[j].sent, rows[j].run)
  }

  ghost predicate WellFormed(facts: Facts) {
    && ExternalsUnique(facts.externals)
    && AttemptsUnique(facts.attempts)
    && PostfixesUnique(facts.postfixes)
    && ChildrenHaveParents(facts)
    && SentsUnique(facts.sents)
    && ObserversUnique(facts.observers)
  }

  // ---------- the account of the target tables ----------

  datatype Core = Core(operation: Text, key: Text, business: Text, identity: Text, run: Option<int>)

  datatype Home = Home(
    core: Core, postfix: Option<Postfix>, sent: Option<Sent>,
    delivery: Option<int>, prepared: Option<int>)

  datatype Origin =
    | Canonical(external: External)
    | Binding(external: External, canonical: int)
    | Observed(attempt: Attempt, step: PlanStep, named: bool, provider: Option<int>)
    | Prepared(postfix: Postfix, receipt: Option<PreparedReceipt>, dispatch: Text)
    | Delivered(sent: Sent, provider: Option<int>)

  datatype Piece = Piece(owner: int, origin: Origin)

  datatype Layout = Layout(homes: map<int, Home>, pieces: map<int, Piece>)

  function ActionOf(home: Home): Action {
    var action := BLANK_ACTION.(
      operation := home.core.operation, externalKey := home.core.key,
      businessKey := home.core.business, identity := home.core.identity, agentRun := home.core.run,
      deliveryReceipt := home.delivery, preparedReceipt := home.prepared);
    WithSent(WithPostfix(action, home.postfix), home.sent)
  }

  function WithPostfix(action: Action, postfix: Option<Postfix>): Action {
    match postfix
    case None => action
    case Some(p) => action.(
      preparedBody := Some(p.body), deliveryChannel := Some(p.channel), deliveryKey := Some(p.key),
      feedbackToken := Some(p.token), postfixVersion := Some(p.version), preparedAt := Some(p.createdAt))
  }

  function WithSent(action: Action, sent: Option<Sent>): Action {
    match sent
    case None => action
    case Some(s) => action.(
      preparedBody := Some(s.text), deliveryChannel := Some(s.channel), feedbackToken := Some(s.token),
      conversation := Some(s.conversation), trigger := Some(s.trigger), recallKey := Some(s.recallKey),
      recallStatus := Some(s.recallStatus), recallError := Some(s.recallError), recalledAt := s.recalledAt)
  }

  function ReceiptOf(piece: Piece): Receipt {
    var blank := BlankReceipt(piece.owner);
    match piece.origin
    case Canonical(e) => blank.(
      operation := Some(e.operation), target := Some(e.target), body := Some(e.body),
      digest := Some(e.digest), agentRun := Some(e.run), observedAt := Some(e.createdAt))
    case Binding(e, canonical) => blank.(
      provider := Some(canonical), operation := Some(e.operation), target := Some(e.target),
      digest := Some(e.digest), agentRun := Some(e.run), createdAt := Some(e.createdAt),
      observedAt := Some(e.createdAt))
    case Observed(t, step, named, provider) => blank.(
      execution := Some(t.execution), actionIndex := Some(t.index), status := Some(t.status),
      outcome := t.outcome, createdAt := Some(t.createdAt), updatedAt := Some(t.updatedAt),
      operation := if named then Some(step.operation) else None,
      target := if named then Some(step.target) else None, provider := provider)
    case Prepared(p, receipt, dispatch) => blank.(
      body := if receipt.Some? then Some(receipt.value.body) else None,
      observedAt := if receipt.Some? then Some(receipt.value.createdAt) else None,
      dispatchedAt := dispatch)
    case Delivered(s, provider) => blank.(
      observedAt := Some(s.sentAt), agentRun := Some(s.run), body := s.result, provider := provider)
  }

  ghost predicate Rendered(db: Db, layout: Layout) {
    && db.actions.Keys == layout.homes.Keys
    && (forall a | a in layout.homes :: db.actions[a] == ActionOf(layout.homes[a]))
    && db.receipts.Keys == layout.pieces.Keys
    && (forall r | r in layout.pieces :: db.receipts[r] == ReceiptOf(layout.pieces[r]))
  }

  ghost predicate Kept(db: Db, layout: Layout) {
    Coherent(db) && Rendered(db, layout)
  }

  /** What no phase takes back: receipts and map rows stay, Actions keep their core. */
  ghost predicate Grown(layout: Layout, ids: Identities, layout': Layout, ids': Identities) {
    && (forall r | r in layout.pieces :: r in layout'.pieces && layout'.pieces[r] == layout.pieces[r])
    && (forall k | k in ids :: k in ids' && ids'[k] == ids[k])
    && (forall a | a in layout.homes :: a in layout'.homes && layout'.homes[a].core == layout.homes[a].core)
  }

  // ---------- where each family is ----------

  /** The two dictionaries of the first phase, with the row each entry came from. */
  datatype Canon = Canon(rows: map<string, External>, owners: map<string, int>, bodies: map<string, int>)

  function ExternalCore(e: External): Core {
    Core(Some(e.operation), Some(e.key), Some(e.business), Some(e.identity), None)
  }

  function KeyText(key: string): Text {
    if key == "" then None else Some(key)
  }

  ghost predicate ExternalPlaced(layout: Layout, ids: Identities, canon: Canon, key: string)
    requires key in canon.rows
  {
    var e := canon.rows[key];
    && key in canon.owners && key in canon.bodies && e.key == key && key != ""
    && canon.owners[key] in layout.homes && layout.homes[canon.owners[key]].core == ExternalCore(e)
    && canon.bodies[key] in layout.pieces
    && layout.pieces[canon.bodies[key]] == Piece(canon.owners[key], Canonical(e))
    && (ExternalResult, TextId(key)) in ids
    && ids[(ExternalResult, TextId(key))].action == canon.owners[key]
    && ids[(ExternalResult, TextId(key))].receipt.Some?
    && var b := ids[(ExternalResult, TextId(key))].receipt.value;
       b in layout.pieces && layout.pieces[b] == Piece(canon.owners[key], Binding(e, canon.bodies[key]))
  }

  ghost predicate ExternalsPlaced(layout: Layout, ids: Identities, canon: Canon) {
    && canon.owners.Keys == canon.rows.Keys && canon.bodies.Keys == canon.rows.Keys
    && (forall key | key in canon.rows :: ExternalPlaced(layout, ids, canon, key))
    && (forall identity | (ExternalResult, identity) in ids :: identity.TextId? && identity.text in canon.rows)
    && (forall r | r in layout.pieces && ForResult(layout.pieces[r].origin) :: ResultPiece(layout.pieces[r], ids, canon, r))
  }

  /** A receipt of a canonical result is its body or the metadata the map names. */
  ghost predicate ResultPiece(piece: Piece, ids: Identities, canon: Canon, r: int)
    requires ForResult(piece.origin)
  {
    var key := piece.origin.external.key;
    && key in canon.owners && canon.owners[key] == piece.owner
    && if piece.origin.Canonical? then key in canon.bodies && canon.bodies[key] == r
       else (ExternalResult, TextId(key)) in ids && ids[(ExternalResult, TextId(key))] == Mapped(piece.owner, Some(r))
  }

  predicate ForResult(origin: Origin) { origin.Canonical? || origin.Binding? }

  function AttemptOrigin(t: Attempt, step: PlanStep, canon: Canon): Origin {
    Observed(t, step, t.key != "" && t.key !in canon.rows,
             if t.outcome.None? && t.key in canon.bodies then Some(canon.bodies[t.key]) else None)
  }

  /** An attempted step gives its Action business object and identity, and with a key also key and operation. */
  predicate ReviewedCore(core: Core, t: Attempt, step: PlanStep) {
    && core.business == Some(step.business) && core.identity == Some(step.identity) && core.run.None?
    && core.key == KeyText(t.key) && core.operation == (if t.key == "" then None else Some(step.operation))
  }

  ghost predicate AttemptPlaced(layout: Layout, ids: Identities, plan: Plan, canon: Canon, t: Attempt) {
    && (t.execution, t.index) in plan
    && (CandidateAttempt, IntegerId(t.id)) in ids
    && var step := plan[(t.execution, t.index)];
       var at := ids[(CandidateAttempt, IntegerId(t.id))];
       && at.receipt.Some? && at.receipt.value in layout.pieces
       && layout.pieces[at.receipt.value] == Piece(at.action, AttemptOrigin(t, step, canon))
       && at.action in layout.homes
       && ReviewedCore(layout.homes[at.action].core, t, step)
  }

  ghost predicate AttemptsPlaced(layout: Layout, ids: Identities, plan: Plan, canon: Canon, rows: set<Attempt>) {
    && (forall t | t in rows :: AttemptPlaced(layout, ids, plan, canon, t))
    && (forall r | r in layout.pieces && layout.pieces[r].origin.Observed? ::
          var t := layout.pieces[r].origin.attempt;
          t in rows && AttemptPlaced(layout, ids, plan, canon, t)
          && ids[(CandidateAttempt, IntegerId(t.id))] == Mapped(layout.pieces[r].owner, Some(r)))
    && (forall identity | (CandidateAttempt, identity) in ids ::
          exists t :: t in rows && identity == IntegerId(t.id))
  }

  function PairId(pair: Pair): Identity { TextPair(pair.0, pair.1) }

  function PostfixOrigin(facts: Facts, p: Postfix): Origin {
    Prepared(p, if p.Pair() in facts.receipts then Some(facts.receipts[p.Pair()]) else None,
             if p.Pair() in facts.dispatches then Some(facts.dispatches[p.Pair()]) else None)
  }

  ghost predicate PostfixPlaced(layout: Layout, ids: Identities, facts: Facts, p: Postfix) {
    && (OutboundPostfix, PairId(p.Pair())) in ids
    && var at := ids[(OutboundPostfix, PairId(p.Pair()))];
       var origin := PostfixOrigin(facts, p);
       && at.action in layout.homes && layout.homes[at.action].postfix == Some(p)
       && (at.receipt.Some? <==> origin.receipt.Some? || origin.dispatch.Some?)
       && (at.receipt.Some? ==>
             at.receipt.value in layout.pieces && layout.pieces[at.receipt.value] == Piece(at.action, origin))
       && layout.homes[at.action].prepared == (if origin.receipt.Some? then at.receipt else None)
       && (origin.receipt.Some? ==> (PostfixReceipt, PairId(p.Pair())) in ids && ids[(PostfixReceipt, PairId(p.Pair()))] == at)
       && (origin.dispatch.Some? ==> (NativeDispatch, PairId(p.Pair())) in ids && ids[(NativeDispatch, PairId(p.Pair()))] == at)
  }

  ghost predicate PostfixesPlaced(layout: Layout, ids: Identities, facts: Facts, rows: set<Postfix>) {
    && (forall p | p in rows :: PostfixPlaced(layout, ids, facts, p))
    && (forall a | a in layout.homes ::
          if layout.homes[a].postfix.None? then layout.homes[a].prepared.None?
          else
            var p := layout.homes[a].postfix.value;
            p in rows && PostfixPlaced(layout, ids, facts, p) && ids[(OutboundPostfix, PairId(p.Pair()))].action == a)
    && (forall r | r in layout.pieces && layout.pieces[r].origin.Prepared? ::
          var p := layout.pieces[r].origin.postfix;
          p in rows && PostfixPlaced(layout, ids, facts, p)
          && ids[(OutboundPostfix, PairId(p.Pair()))] == Mapped(layout.pieces[r].owner, Some(r)))
    && (forall identity | (OutboundPostfix, identity) in ids :: exists p :: p in rows && identity == PairId(p.Pair()))
    && (forall identity | (PostfixReceipt, identity) in ids ::
          exists p :: p in rows && identity == PairId(p.Pair()) && p.Pair() in facts.receipts)
    && (forall identity | (NativeDispatch, identity) in ids ::
          exists p :: p in rows && identity == PairId(p.Pair()) && p.Pair() in facts.dispatches)
  }

  function SentOrigin(s: Sent, canon: Canon): (origin: Origin)
    ensures origin.Delivered? && origin.sent == s
  {
    Delivered(s, if s.result.None? && s.key in canon.bodies then Some(canon.bodies[s.key]) else None)
  }

  ghost predicate SentPlaced(layout: Layout, ids: Identities, canon: Canon, s: Sent) {
    && (SentReply, IntegerId(s.id)) in ids
    && var at := ids[(SentReply, IntegerId(s.id))];
       && at.receipt.Some? && at.receipt.value in layout.pieces
       && layout.pieces[at.receipt.value] == Piece(at.action, SentOrigin(s, canon))
       && at.action in layout.homes
       && layout.homes[at.action].sent == Some(s) && layout.homes[at.action].delivery == at.receipt
       && layout.homes[at.action].core.key == (if s.key in canon.rows then Some(s.key) else None)
       && (s.key !in canon.rows ==>
             layout.homes[at.action].postfix.None? && layout.homes[at.action].core == Core(None, None, None, None, Some(s.run)))
  }

  ghost predicate SentsPlaced(layout: Layout, ids: Identities, canon: Canon, rows: set<Sent>) {
    && (forall s | s in rows :: SentPlaced(layout, ids, canon, s))
    && (forall a | a in layout.homes ::
          if layout.homes[a].sent.None? then layout.homes[a].delivery.None?
          else
            var s := layout.homes[a].sent.value;
            s in rows && SentPlaced(layout, ids, canon, s) && ids[(SentReply, IntegerId(s.id))].action == a)
    && (forall r | r in layout.pieces && layout.pieces[r].origin.Delivered? ::
          var s := layout.pieces[r].origin.sent;
          s in rows && SentPlaced(layout, ids, canon, s)
          && ids[(SentReply, IntegerId(s.id))] == Mapped(layout.pieces[r].owner, Some(r)))
    && (forall identity | (SentReply, identity) in ids :: exists s :: s in rows && identity == IntegerId(s.id))
  }

  // ---------- when a transfer goes through ----------

  predicate MatchesCanonical(step: PlanStep, e: External) {
    step.business == e.business && step.identity == e.identity && step.operation == e.operation && step.target == e.target
  }

  predicate SameEffect(x: PlanStep, y: PlanStep) {
    x.business == y.business && x.identity == y.identity && x.operation == y.operation && x.target == y.target
  }

  ghost predicate AttemptConsistent(plan: Plan, canon: map<string, External>, t: Attempt) {
    && (t.execution, t.index) in plan
    && (t.key in canon ==> MatchesCanonical(plan[(t.execution, t.index)], canon[t.key]))
  }

  /**
   * Two attempts under one key without a canonical result must be the same effect, and two attempts
   * that resolve to one delivery identity must share a key.
   */
  ghost predicate AttemptPairConsistent(plan: Plan, canon: map<string, External>, t: Attempt, u: Attempt)
    requires (t.execution, t.index) in plan && (u.execution, u.index) in plan
  {
    var x, y := plan[(t.execution, t.index)], plan[(u.execution, u.index)];
    && (t.key == u.key && t.key != "" && t.key !in canon ==> SameEffect(x, y))
    && (t != u && x.Delivery() == y.Delivery() ==> t.key == u.key && t.key != "")
  }

  ghost predicate AttemptsConsistent(plan: Plan, canon: map<string, External>, rows: set<Attempt>) {
    && (forall t | t in rows :: AttemptConsistent(plan, canon, t))
    && (forall t, u | t in rows && u in rows :: AttemptPairConsistent(plan, canon, t, u))
  }
}
