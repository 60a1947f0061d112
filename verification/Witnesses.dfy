/** Concrete facts: what a transfer refuses or changes although each row looks harmless. */
module Witnesses {
  import opened Wrappers
  import opened ActionEntity
  import opened TransferModel
  import opened ResultPhase
  import opened PostfixPhase
  import opened CandidatePhase
  import opened SentPhase
  import opened Transfer
  import opened Capture
  import opened RoundTrip
  import opened Recovery
  import opened Lossless

  const RESULT := External("k", "b", "i", "o", "g", "{}", "d", 1, "t")
  const STEP := PlanStep("b", "i", "", "o", "g", "dingtalk", "dk")
  const ATTEMPT := Attempt(1, 1, 0, "k", "verified", None, "t", "t")
  const MESSAGE := Postfix("dingtalk", "dk", "hello", "token-1", "v", "t")
  const REPLY := Sent(1, "c", "m", "hello", "t", None, "", "", "", None, "token-2", "dingtalk", 1, "k")

  // ---------- accepted, and changed ----------

  function OnlyReplies(s: Sent, observers: seq<Observer>): Facts {
    Facts([], [], [], map[], map[], [s], observers)
  }

  lemma RepliesAccepted(s: Sent, observers: seq<Observer>)
    requires ObserversUnique(observers) && ObserversConsistent(observers, [s])
    ensures WellFormed(OnlyReplies(s, observers)) && Consistent(OnlyReplies(s, observers), map[])
    ensures Account(OnlyReplies(s, observers), map[]).canon.rows == map[]
  {
    var facts := OnlyReplies(s, observers);
    assert WellFormed(facts);
    var book := Account(facts, map[]);
    assert forall t, p :: !AttemptOf(book, t, p);
    assert forall key, p :: !SharesAction(book, key, p);
    hide SharesAction;
    hide ObserversConsistent;
  }

  /** A reply whose key has no canonical result is accepted, and its key is lost. */
  lemma KeyLost()
    ensures
      var facts := OnlyReplies(REPLY, []);
      WellFormed(facts) && Consistent(facts, map[]) && !KeepsAll(Account(facts, map[]))
    ensures forall a :: BackSent(map[], REPLY, a).key == ""
  {
    RepliesAccepted(REPLY, []);
    hide Consistent;
    hide WellFormed;
    assert REPLY in OnlyReplies(REPLY, []).sents;
  }

  /** A reply with an empty channel is accepted, and comes back as one through the default channel. */
  lemma ChannelInvented()
    ensures
      var facts := OnlyReplies(REPLY.(key := "", channel := ""), []);
      WellFormed(facts) && Consistent(facts, map[]) && !KeepsAll(Account(facts, map[]))
    ensures forall a :: BackSent(map[], REPLY.(key := "", channel := ""), a).channel == "dingtalk"
  {
    var s := REPLY.(key := "", channel := "");
    RepliesAccepted(s, []);
    hide Consistent;
    hide WellFormed;
    assert s in OnlyReplies(s, []).sents;
  }

  /** An observer row carries the identity it had exactly when the ID of its reply is not zero. */
  lemma ObserverIdentityIff(captured: Captured, ids: Identities, book: Book, o: Observer)
    requires Recovered(captured, ids, book) && o in book.facts.observers
    ensures (SentReply, IntegerId(o.sent)) in ids
    ensures BackObserver(ids, o) in captured.observers && (BackObserver(ids, o).legacy.Some? <==> o.sent != 0)
  {
    assert ReturnsObservers(captured.observers, ids, book.facts.observers);
    hide Recovered;
  }

  const WATCHER := Observer(0, 1, 1, "t")

  /** Reply 0 and its observer are accepted; whatever tables hold them, the observer returns without an identity. */
  lemma ZeroObserver(captured: Captured, ids: Identities, book: Book)
    requires book.facts == OnlyReplies(REPLY.(id := 0, key := ""), [WATCHER]) && Recovered(captured, ids, book)
    ensures WellFormed(book.facts) && Consistent(book.facts, map[])
    ensures exists x :: x in captured.observers && x.run == WATCHER.run && x.legacy.None?
  {
    var s := REPLY.(id := 0, key := "");
    assert s in [s] && s.id == WATCHER.sent;
    assert ObserversConsistent([WATCHER], [s]);
    RepliesAccepted(s, [WATCHER]);
    ObserverIdentityIff(captured, ids, book, WATCHER);
    hide *;
    assert BackObserver(ids, WATCHER) in captured.observers;
    WatcherBack(ids);
  }

  lemma WatcherBack(ids: Identities)
    requires (SentReply, IntegerId(WATCHER.sent)) in ids
    ensures BackObserver(ids, WATCHER).run == WATCHER.run && BackObserver(ids, WATCHER).legacy.None?
  {
  }

  // ---------- a message with its attempt ----------

  function WithMessage(receipts: map<Pair, PreparedReceipt>, sents: seq<Sent>): Facts {
    Facts([RESULT], [ATTEMPT], [MESSAGE], receipts, map[], sents, [])
  }

  function OneStep(step: PlanStep): Plan { map[(1, 0) := step] }

  lemma ResultAt(book: Book)
    requires ByKey(book.canon.rows, [RESULT])
    ensures book.canon.rows == map["k" := RESULT]
  {
    assert RESULT in [RESULT];
    assert forall key | key in book.canon.rows :: book.canon.rows[key] == RESULT && key == RESULT.key;
  }

  lemma MessageShares(book: Book, step: PlanStep)
    requires book.facts.attempts == [ATTEMPT] && book.facts.postfixes == [MESSAGE] && book.plan == OneStep(step)
    requires step.Delivery() == MESSAGE.Pair() && book.canon.rows == map["k" := RESULT]
    ensures forall t, p :: AttemptOf(book, t, p) ==> t == ATTEMPT && p.Pair() == MESSAGE.Pair()
    ensures AttemptOf(book, ATTEMPT, MESSAGE)
    ensures forall key, p :: SharesAction(book, key, p) <==> key == "k" && p == MESSAGE
  {
    assert ATTEMPT in book.facts.attempts;
    assert AttemptOf(book, ATTEMPT, MESSAGE);
  }

  lemma MessageWellFormed(receipts: map<Pair, PreparedReceipt>, sents: seq<Sent>)
    requires receipts.Keys <= {MESSAGE.Pair()} && |sents| <= 1
    ensures WellFormed(WithMessage(receipts, sents))
  {
    assert MESSAGE in WithMessage(receipts, sents).postfixes;
  }

  /** Such facts are accepted exactly when the step has no option and the reply, if there is one, has the text prepared. */
  lemma MessageAccepted(receipts: map<Pair, PreparedReceipt>, sents: seq<Sent>, step: PlanStep)
    requires receipts.Keys <= {MESSAGE.Pair()} && |sents| <= 1 && step == STEP.(option := step.option)
    ensures WellFormed(WithMessage(receipts, sents))
    ensures Account(WithMessage(receipts, sents), OneStep(step)).canon.rows == map["k" := RESULT]
    ensures Consistent(WithMessage(receipts, sents), OneStep(step)) <==>
      step.option == "" && forall s | s in sents && s.key == "k" :: s.text == MESSAGE.body
  {
    var facts, plan := WithMessage(receipts, sents), OneStep(step);
    MessageWellFormed(receipts, sents);
    AccountIs(facts, plan);
    ConsistentIs(facts, plan);
    var book := Account(facts, plan);
    ResultAt(book);
    MessageShares(book, step);
    AttemptsAlone(step);
    MessageAlone(book, step);
    ReplyAlone(book);
    StepAlone(step);
    hide *;
    ResultsFine();
    NoObservers(sents);
  }

  lemma ResultsFine()
    ensures ExternalsConsistent([RESULT])
  {
  }

  lemma NoObservers(sents: seq<Sent>)
    ensures ObserversConsistent([], sents)
  {
  }

  lemma StepAlone(step: PlanStep)
    ensures PlanConsistent(OneStep(step))
  {
  }

  lemma AttemptsAlone(step: PlanStep)
    requires step == STEP.(option := step.option)
    ensures AttemptsConsistent(OneStep(step), map["k" := RESULT], Rows([ATTEMPT]))
  {
  }

  lemma MessageAlone(book: Book, step: PlanStep)
    requires book.plan == OneStep(step) && AttemptOf(book, ATTEMPT, MESSAGE)
    requires forall t, p :: AttemptOf(book, t, p) ==> t == ATTEMPT && p.Pair() == MESSAGE.Pair()
    ensures PostfixesConsistent(book, Rows([MESSAGE])) <==> step.option == ""
  {
    hide AttemptOf;
    assert MESSAGE in Rows([MESSAGE]);
    assert PostfixAlone(book, MESSAGE) <==> step.option == "";
    assert forall p | p in Rows([MESSAGE]) :: p == MESSAGE;
  }

  lemma ReplyAlone(book: Book)
    requires |book.facts.sents| <= 1 && book.facts.postfixes == [MESSAGE]
    requires forall key, p :: SharesAction(book, key, p) <==> key == "k" && p == MESSAGE
    ensures SentsAccepted(book, book.facts.sents) <==>
      forall s | s in book.facts.sents && s.key == "k" :: s.text == MESSAGE.body
  {
    hide SharesAction;
    var sents := book.facts.sents;
    forall i | 0 <= i < |sents|
      ensures SentAccepted(book, Rows(sents[..i]), sents[i]) <==> (sents[i].key == "k" ==> sents[i].text == MESSAGE.body)
    {
      assert PairOpen(book, Rows(sents[..i]), sents[i]);
      assert SentConsistent(book, sents[i]) <==> (sents[i].key == "k" ==> sents[i].text == MESSAGE.body);
    }
  }

  /** A reply on the Action of a prepared message is accepted with another feedback token, which is lost. */
  lemma TokenLost()
    ensures
      var facts := WithMessage(map[], [REPLY]);
      WellFormed(facts) && Consistent(facts, OneStep(STEP)) && !KeepsAll(Account(facts, OneStep(STEP)))
  {
    var facts := WithMessage(map[], [REPLY]);
    MessageAccepted(map[], [REPLY], STEP);
    AccountIs(facts, OneStep(STEP));
    var book := Account(facts, OneStep(STEP));
    MessageShares(book, STEP);
    hide *;
    TokenDiffers(book);
  }

  lemma TokenDiffers(book: Book)
    requires REPLY in book.facts.sents && MESSAGE in book.facts.postfixes && SharesAction(book, "k", MESSAGE)
    ensures !KeepsAll(book)
  {
    hide SharesAction;
    assert !KeepsPostfix(book, MESSAGE);
  }

  /** The receipt of a prepared message is accepted with an empty clock, and comes back without one. */
  lemma ClockLost()
    ensures
      var facts := WithMessage(map[MESSAGE.Pair() := PreparedReceipt("{}", "")], []);
      && WellFormed(facts) && Consistent(facts, OneStep(STEP)) && !KeepsAll(Account(facts, OneStep(STEP)))
      && BackReceipt(facts, MESSAGE, None) == Some(CapturedReceipt(MESSAGE.channel, MESSAGE.key, "{}", None))
  {
    var receipts := map[MESSAGE.Pair() := PreparedReceipt("{}", "")];
    var facts := WithMessage(receipts, []);
    MessageAccepted(receipts, [], STEP);
    AccountIs(facts, OneStep(STEP));
    var book := Account(facts, OneStep(STEP));
    assert MESSAGE in facts.postfixes && !KeepsPostfix(book, MESSAGE);
    hide Consistent;
    hide WellFormed;
  }

  // ---------- refused ----------

  /** The attempted step of a prepared message is accepted as it is, and refused once an option is selected. */
  lemma OptionRefused()
    ensures
      var facts := WithMessage(map[], []);
      && WellFormed(facts) && Consistent(facts, OneStep(STEP))
      && !Consistent(facts, OneStep(STEP.(option := "opt")))
  {
    MessageAccepted(map[], [], STEP);
    MessageAccepted(map[], [], STEP.(option := "opt"));
    hide *;
  }

  const SECOND_RESULT := RESULT.(key := "k2", identity := "i2")
  const SECOND_STEP := STEP.(identity := "i2", channel := "mail")
  const SECOND_ATTEMPT := Attempt(2, 1, 1, "k2", "verified", None, "t", "t")
  const SECOND_MESSAGE := MESSAGE.(channel := "mail", body := "bye")
  const AWAY := REPLY.(channel := "sms")
  const INTO := REPLY.(id := 2, key := "k2", text := "bye", channel := "dingtalk")

  function TwoMessages(sents: seq<Sent>): Facts {
    Facts([RESULT, SECOND_RESULT], [ATTEMPT, SECOND_ATTEMPT], [MESSAGE, SECOND_MESSAGE], map[], map[], sents, [])
  }

  function TwoSteps(): Plan { map[(1, 0) := STEP, (1, 1) := SECOND_STEP] }

  function TwoResults(): map<string, External> { map["k" := RESULT, "k2" := SECOND_RESULT] }

  lemma TwoResultsAt(rows: map<string, External>)
    requires ByKey(rows, [RESULT, SECOND_RESULT])
    ensures rows == TwoResults()
  {
    assert RESULT in [RESULT, SECOND_RESULT] && SECOND_RESULT in [RESULT, SECOND_RESULT];
    assert forall e | e in [RESULT, SECOND_RESULT] :: e == RESULT || e == SECOND_RESULT;
    assert forall key | key in rows :: key == rows[key].key;
    assert rows.Keys == {"k", "k2"};
  }

  lemma TwoShares(book: Book)
    requires book.facts.attempts == [ATTEMPT, SECOND_ATTEMPT] && book.facts.postfixes == [MESSAGE, SECOND_MESSAGE]
    requires book.plan == TwoSteps() && book.canon.rows == TwoResults()
    ensures forall t, p :: AttemptOf(book, t, p) <==>
      (t == ATTEMPT && p.Pair() == MESSAGE.Pair()) || (t == SECOND_ATTEMPT && p.Pair() == SECOND_MESSAGE.Pair())
    ensures forall key, p :: SharesAction(book, key, p) <==> (key == "k" && p == MESSAGE) || (key == "k2" && p == SECOND_MESSAGE)
  {
    assert ATTEMPT in book.facts.attempts && SECOND_ATTEMPT in book.facts.attempts;
    assert MESSAGE in book.facts.postfixes && SECOND_MESSAGE in book.facts.postfixes;
    TwoAttempts(book);
    hide AttemptOf;
  }

  lemma TwoAttempts(book: Book)
    requires book.facts.attempts == [ATTEMPT, SECOND_ATTEMPT] && book.plan == TwoSteps()
    ensures forall t, p :: AttemptOf(book, t, p) <==>
      (t == ATTEMPT && p.Pair() == MESSAGE.Pair()) || (t == SECOND_ATTEMPT && p.Pair() == SECOND_MESSAGE.Pair())
  {
    assert forall t :: t in book.Attempts() <==> t == ATTEMPT || t == SECOND_ATTEMPT;
  }

  lemma TwoWellFormed(sents: seq<Sent>)
    requires SentsUnique(sents)
    ensures WellFormed(TwoMessages(sents))
  {
    hide SentsUnique;
  }

  lemma TwoMessagesConsistent(book: Book)
    requires forall t, p :: AttemptOf(book, t, p) <==>
      (t == ATTEMPT && p.Pair() == MESSAGE.Pair()) || (t == SECOND_ATTEMPT && p.Pair() == SECOND_MESSAGE.Pair())
    requires book.plan == TwoSteps()
    ensures PostfixesConsistent(book, Rows([MESSAGE, SECOND_MESSAGE]))
  {
    hide AttemptOf;
    assert forall p | p in Rows([MESSAGE, SECOND_MESSAGE]) :: p == MESSAGE || p == SECOND_MESSAGE;
  }

  lemma TwoStepsConsistent()
    ensures PlanConsistent(TwoSteps()) && ExternalsConsistent([RESULT, SECOND_RESULT])
  {
  }

  lemma TwoAttemptsConsistent()
    ensures AttemptsConsistent(TwoSteps(), TwoResults(), Rows([ATTEMPT, SECOND_ATTEMPT]))
  {
    assert forall t | t in Rows([ATTEMPT, SECOND_ATTEMPT]) :: t == ATTEMPT || t == SECOND_ATTEMPT;
    assert AttemptConsistent(TwoSteps(), TwoResults(), ATTEMPT);
    assert AttemptConsistent(TwoSteps(), TwoResults(), SECOND_ATTEMPT);
  }

  /** With two messages of one delivery key it is the replies alone that decide. */
  lemma RepliesDecide(sents: seq<Sent>)
    requires SentsUnique(sents)
    ensures
      var book := Account(TwoMessages(sents), TwoSteps());
      && WellFormed(TwoMessages(sents)) && book.facts == TwoMessages(sents)
      && (forall key, p :: SharesAction(book, key, p) <==> (key == "k" && p == MESSAGE) || (key == "k2" && p == SECOND_MESSAGE))
      && (Consistent(TwoMessages(sents), TwoSteps()) <==> SentsAccepted(book, sents))
  {
    hide *;
    var facts, plan := TwoMessages(sents), TwoSteps();
    TwoWellFormed(sents);
    AccountIs(facts, plan);
    ConsistentIs(facts, plan);
    var book := Account(facts, plan);
    TwoFactsAre(sents);
    TwoResultsAt(book.canon.rows);
    TwoShares(book);
    TwoMessagesConsistent(book);
    TwoStepsConsistent();
    TwoAttemptsConsistent();
    NoObservers(sents);
  }

  lemma TwoFactsAre(sents: seq<Sent>)
    ensures TwoMessages(sents) ==
      Facts([RESULT, SECOND_RESULT], [ATTEMPT, SECOND_ATTEMPT], [MESSAGE, SECOND_MESSAGE], map[], map[], sents, [])
  {
  }

  lemma AwayFirst(book: Book)
    requires book.facts == TwoMessages([AWAY, INTO])
    requires forall key, p :: SharesAction(book, key, p) <==> (key == "k" && p == MESSAGE) || (key == "k2" && p == SECOND_MESSAGE)
    ensures SentsAccepted(book, [AWAY, INTO])
  {
    hide SharesAction;
    var sents := [AWAY, INTO];
    assert sents[..0] == [] && sents[..1] == [AWAY];
    assert AWAY in Rows([AWAY]);
    assert SentAccepted(book, Rows(sents[..0]), AWAY);
    assert SentAccepted(book, Rows(sents[..1]), INTO);
  }

  lemma IntoFirst(book: Book)
    requires book.facts == TwoMessages([INTO, AWAY])
    requires forall key, p :: SharesAction(book, key, p) <==> (key == "k" && p == MESSAGE) || (key == "k2" && p == SECOND_MESSAGE)
    ensures !SentsAccepted(book, [INTO, AWAY])
  {
    hide SharesAction;
    var sents := [INTO, AWAY];
    assert sents[..0] == [];
    assert MESSAGE in book.facts.postfixes;
    assert SharesAction(book, INTO.key, SECOND_MESSAGE) && MESSAGE.key == SECOND_MESSAGE.key;
    assert !OtherChannel(book, Rows(sents[..0]), MESSAGE, INTO);
    assert !SentAccepted(book, Rows(sents[..0]), sents[0]);
  }

  /** The same replies in two orders: a channel is free only once the message that was on it has moved away. */
  lemma OrderMatters()
    ensures WellFormed(TwoMessages([AWAY, INTO])) && Consistent(TwoMessages([AWAY, INTO]), TwoSteps())
    ensures WellFormed(TwoMessages([INTO, AWAY])) && !Consistent(TwoMessages([INTO, AWAY]), TwoSteps())
    ensures multiset([AWAY, INTO]) == multiset([INTO, AWAY])
  {
    assert SentsUnique([AWAY, INTO]) && SentsUnique([INTO, AWAY]);
    hide *;
    RepliesDecide([AWAY, INTO]);
    RepliesDecide([INTO, AWAY]);
    AwayFirst(Account(TwoMessages([AWAY, INTO]), TwoSteps()));
    IntoFirst(Account(TwoMessages([INTO, AWAY]), TwoSteps()));
  }
}
