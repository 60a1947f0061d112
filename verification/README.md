# Verified model of the Action storage kernel

About seventy record families that once had tables of their own are folded into one typed `actions` table, and
several of them further into common Actions with receipts. This project models the algorithms that do the folding,
the guards the resulting tables declare, and the inverse conversions, and proves what each of them promises:
nothing is lost, nothing is shared that should not be, and every refusal happens exactly when it should.

Rows are records, tables are maps from physical IDs, triggers, CHECK constraints and unique indexes are guards on
row writes, and an exception is a `Raised` answer or a `Failure` that leaves the caller's transaction to be rolled
back. Code that changes tables step by step is modelled by methods, on a class where an open connection or a store
is written in place; each method is proved against a pure description of its effect, and the theorems are lemmas
about those descriptions.

## The parts

- **Ledger** (`ActionEntity`, `Ledger`): the common Action and receipt tables with their guards, and the runtime
  calls on them. `Coherent` is the invariant: IDs are spent once, no two Actions clash on a unique index, and every
  delivery, prepared and provider reference resolves inside its own Action, the last two to a receipt with a body.
- **Transfer** (`TransferModel`, `ResultPhase`, `CandidatePhase`, `PostfixPhase`, `SentPhase`, `TransferColumns`,
  `Transfer`, `Ownership`): five families merged into shared Actions. A ghost `Layout` says for each Action and receipt
  which facts it was written for; `Rendered` says the tables are exactly that account, and the `…Placed` predicates say
  where each family is. `Written` says what this means on the tables alone, column by column. `Consistent` is the condition under which the transfer goes through. It reads the facts and the
  plan only: no key of a canonical result is empty, no delivery identity stands for two steps, attempts match their
  canonical result and each other, prepared messages do not meet on one owner, each reply has the text of its
  prepared message and moves it to no delivery identity another message holds by then, observers have replies.
- **Inverse** (`Capture`, `RoundTrip`, `Recovery`, `Lossless`, `CapturedColumns`, `AfterRun`, `Witnesses`): the
  predecessor's rows read back from the common tables, receipts by ID and the other tables in whatever order SQL hands
  them over, right after the transfer or after any runtime calls; which rows these are on any tables, column by column;
  the exact conditions under which a row is what it was; and concrete facts for each way it is not.
- **Single table** (`CandidateTables`, `CandidateColumns`, `SingleTable`, `TableConversion`): six native tables with
  native keys against one table with per-kind public IDs and physical references; the projections are the abstraction
  function. Where both sides of a refinement use one function, a module ending in `Columns` tells its effect on rows and
  columns without it.
- **Values** (`Binary64`, `ScalarCodec`, `JsonText`, `JsonGrammar`, `IdentityText`): the scalar codec over finite
  binary64 numbers (section 3.3 of IEEE 754-2019), the compact JSON text that identities are stored in, and a reader
  that accepts exactly the grammar of sections 2 to 7 of RFC 8259 with the words NaN, Infinity and -Infinity added.
- **Text cores** (`PythonText`, `Decimals`, `EffectGuard`, `EffectAnswers`, `ContractCatalog`, `ContractSelection`,
  `ContractPrinted`, `ContractExact`, `ContractWitness`): the provider-receipt scanner and the contract table.
- **Other storage** (`Ids`, `Allocator`, `DateEvidence`, `Feedback`, `BulkCopy`, `FollowupSync`, `FollowupWrites`,
  `FollowupColumns`, `Delivery`, `DeliveryWrites`, `DeliveryColumns`). `FollowupSync` carries `sqlite_sequence` as a table of its own: dropping a
  table, inserting into it and rewriting a mark all act on it.

## What the code does that its description does not say

- A reply whose non-empty key has no canonical result loses the key, and a reply on the Action of a prepared message
  replaces its channel and feedback token without comparing them (`Witnesses.KeyLost`, `Witnesses.TokenLost`).
- A prepared receipt with an empty clock comes back without one, and a reply with an empty channel comes back with
  `dingtalk`, because both are read with a fallback for false values (`Witnesses.ClockLost`,
  `Witnesses.ChannelInvented`).
- A reply numbered 0 is read back with its ID, but its observers carry no predecessor identity
  (`Witnesses.ZeroObserver`).
- A prepared message for an attempted step of a selected option is always refused: its identity carries the option
  and the attempt's Action does not (`Witnesses.OptionRefused`).
- Replies through another channel than the prepared message of their Action are accepted unless the new pair of
  channel and delivery key is on another Action at that moment, so acceptance can depend on the order of the replies
  (`Witnesses.OrderMatters`).
- The single table looks up parents before it sends a statement. So a missing parent raises where SQLite would have
  ignored the row (`insert or ignore` of a duplicate) or found none to update.
- The writes on replies and observers look up the reply, run and task a statement names before they send it, and
  raise where the native update finds no row or the native insert passes over a duplicate
  (`DeliveryWrites.MissingReplyTooEarly`, `DeliveryWrites.MissingRunTooEarly`, `DeliveryWrites.MissingTaskTooEarly`, `DeliveryWrites.MissingTaskNotIgnored`).
  The writes on the folded follow-up families do not.
- With legacy business tables nothing stops a linked work update from getting another ID, which its native table
  refuses; its links then follow it (`FollowupWrites.LinkedRenumbered`, `FollowupWrites.FoldedAgrees`).
- An ID reached by an update alone is not remembered by the allocator: once the row is gone it can be handed out
  again, and while it is there above the mark the delivery conversion refuses.
- A narrowed contract row is rendered with a line feed only when its line ends in one, so a row ended by another line
  break merges with the line after it, and a dropped or kept row can complete the line break of the line before it.
  That a selection parses to the chosen entries and keeps every other line as it was holds on some documents only,
  both together exactly on these (`ContractSelection.SelectionCommutesIff`): no line follows the table; or the row
  naming the chosen operation ends in a line feed; or, where whole rows are kept or none is, it is not the case that a
  blank line follows the table and the line then before it ends in a bare carriage return. `ContractWitness.ReturnedRowMerges` is a document that parses
  and whose selection does not.
- While an Action the runtime created has no key, plan, reply or delivery address, or an observed one no reply, the
  inverse refuses the whole database (`AfterRun.RecoverAfterRun` has the exact condition, `AfterRun.CreatedTellableIff`
  reads it for a new Action).
- The receipt declaration calls one column `execution_id` and the runtime calls it `execution_run_id`; both are the
  field `execution` here.

## Model

| member | source | states |
|---|---|---|
| `Ledger.StepKeepsLedger` | app/action_entity_definitions.py:41-109 | Every runtime call leaves all references resolving inside their Action (provider and prepared ones to a receipt with a body), the unique indexes free of clashes, and every receipt with its ID, owner, slot, body and once-set digest |
| `Ledger.RunKeepsLedger` | app/action_entity_definitions.py:41-109 | The same for every sequence of calls from any coherent state |
| `Ledger.LosersChangeNothing` | app/action_entity_storage.py:58-90 | A call that does not write its row leaves the whole database as it was |
| `Ledger.AtMostOneWinner` | app/action_entity_storage.py:58-90 | Of any number of claims that expect one status and change it, interleaved with any calls that leave the status alone, at most one writes |
| `Ledger.ExactlyOneWinner` | app/action_entity_storage.py:58-90 | Of claims that share any expectation the Action meets (status and whatever else) and set the status to another admissible one, writing any fields off the unique indexes and receipt references, exactly the first writes, between calls that leave the expected fields alone |
| `Ledger.NoWinnerOnceMoved` | app/action_entity_storage.py:75-80 | Once the status has left the expected one, no claim on it wins |
| `Ledger.ObservationRowUnique` | app/action_entity_definitions.py:49-50 | The row an observation update names is the only one, by the slot index |
| `Ledger.Connection.CreateAction` | app/action_entity_storage.py:41-51 | Written under the next ID, exactly as given, if and only if its status is a declared one, no unique index has its columns and it names no receipt, since none can be its own; otherwise it raises and nothing changes |
| `Ledger.Connection.CasAction` | app/action_entity_storage.py:58-90 | An empty mapping raises; else there is no row if and only if the Action is missing or a named expected column, text or number, differs from its own; else each named column is new and each other as it was, refused if and only if status, an index or a changed receipt reference forbids it |
| `Ledger.SwapPromise` | app/action_entity_storage.py:58-90 | The same of the pure step, told on the columns of the row |
| `Ledger.Connection.AppendReceipt` | app/action_entity_storage.py:102-116 | Written under the next ID, exactly as given, if and only if its Action exists, its status is a declared one, its slot is free and its reference is to a body of its own Action; otherwise it raises |
| `Ledger.Connection.UpdateSentReceipt` | app/action_entity_storage.py:119-136 | Raises on an empty mapping or a field that may not be named; no row if and only if there is no such receipt without a slot or a named expected column differs; else the named columns, refused if and only if digest, reference, status or slot forbid it |
| `Ledger.SentPromise` | app/action_entity_storage.py:119-136 | The same of the pure step |
| `Ledger.Connection.UpdateActionObservation` | app/action_entity_storage.py:139-158 | The same for the one observation in a slot, with the fields it may name |
| `Ledger.ObservationPromise` | app/action_entity_storage.py:139-158 | The same of the pure step |
| `Ledger.Connection.AddActionObserver` | app/action_entity_storage.py:93-99 | Adds the observation exactly when the Action is there and has none for the run; otherwise nothing changes |
| `ActionEntity.CreateActionCoherent` | app/action_entity_definitions.py:86-107 | A new Action is accepted only without receipt references, since no receipt can be its own yet |
| `ActionEntity.UpdateActionCoherent` | app/action_entity_definitions.py:86-107 | An update the guards accept keeps every reference resolving and every unique index |
| `ActionEntity.InsertReceiptCoherent` | app/action_entity_definitions.py:41-63 | An insert the guards accept keeps the ledger and extends it |
| `ActionEntity.UpdateReceiptCoherent` | app/action_entity_definitions.py:63-84 | An update the triggers let through cannot break what other rows refer to; it keeps owner, body and a digest once set, and moves a reference only to another one, and outside an observation with the clock left as it was |
| `ResultPhase.TransferExternalResults` | app/action_entity_transfer.py:164-191 | Accepts the canonical results exactly when no key is empty; each becomes one Action with a body receipt and a binding to it, and the two dictionaries hold exactly these |
| `CandidatePhase.PreparedCandidates` | app/action_entity_transfer.py:200-254 | Indexes every approved step by delivery identity; refuses exactly when one identity stands for two different steps |
| `CandidatePhase.ResolveOwner` | app/action_entity_transfer.py:257-300 | An attempt joins the Action of its canonical result, else that of its key, else a new one; refused exactly on a conflict with the canonical facts or with an earlier attempt under the key |
| `CandidatePhase.TransferCandidate` | app/action_entity_transfer.py:257-323 | One attempt: owner, receipt with its slot and canonical reference, map row, delivery owner; refused exactly on a conflict |
| `CandidatePhase.TransferCandidates` | app/action_entity_transfer.py:257-323 | Accepts the attempts exactly when each matches its plan step and canonical result and all pairs agree; afterwards all are placed |
| `PostfixPhase.PlacePostfix` | app/action_entity_transfer.py:332-362 | A prepared message goes to the reviewed owner of its identity or to a new Action without key and operation, with business object and identity of the approved step behind it if there is one; refused exactly when that owner is taken or an option was selected |
| `PostfixPhase.AttachReceipt` | app/action_entity_transfer.py:363-374 | Receipt and dispatch become one receipt of the Action, linked as prepared exactly when there is a provider body |
| `PostfixPhase.TransferPostfixes` | app/action_entity_transfer.py:326-380 | Accepts the prepared messages exactly when they are consistent with the attempts and each other; afterwards all are placed with their children |
| `SentPhase.SharedIs` | app/action_entity_transfer.py:383-411 | The Action of a canonical key holds a prepared message exactly when an attempt under that key resolves to the message's delivery identity |
| `SentPhase.PlaceSent` | app/action_entity_transfer.py:383-411 | A reply is written on the Action of its canonical result or on a new one; refused exactly on a different prepared text or a taken delivery identity |
| `SentPhase.TransferSentReplies` | app/action_entity_transfer.py:383-424 | Accepts the replies exactly when each text agrees with the prepared message of its Action and the pair of channel and delivery key it moves to is open after the replies before it |
| `SentPhase.SentUpdateIff` | app/action_entity_transfer.py:404-411 | Writing a reply over an Action can only be refused by the delivery index, exactly when another message under the same delivery key is on the channel of the reply |
| `SentPhase.PairDecides` | app/action_entity_transfer.py:404-411 | Whether that is so can be told from the facts: from the replies already placed and the channels the messages were prepared for |
| `SentPhase.AgreeingAccepted` | app/action_entity_transfer.py:383-424 | When replies go through the channels of their messages, the texts alone decide |
| `SentPhase.RepliesApart` | app/action_entity_transfer.py:383-424 | No two replies ever share an Action |
| `SentPhase.TransferObservers` | app/action_entity_transfer.py:427-434 | Accepts the observers exactly when each names a reply; each becomes one row and one map row, none is ignored as a duplicate |
| `Transfer.TransferSourceFacts` | app/action_entity_transfer.py:539-551 | The whole transfer, phase after phase, goes through if and only if the facts and the plan are `Consistent`, and then leaves exactly the described tables, which hold each fact column by column and nothing else |
| `TransferColumns.TransferWritten` | app/action_entity_transfer.py:539-551 | What it leaves, told on the tables alone: for each fact the rows the identity map names with all their columns; no other map row, Action, receipt or observer |
| `TransferColumns.ResultHolds` | app/action_entity_transfer.py:164-191 | A canonical result: operation, key, business object and identity on its Action, all columns of the metadata receipt the map names and of the body receipt that refers to |
| `TransferColumns.AttemptHolds` | app/action_entity_transfer.py:257-323 | An attempt: all columns of its receipt, and on its Action business object and identity of the approved step, with a key also that key and the operation of the step |
| `TransferColumns.MessageHolds` | app/action_entity_transfer.py:326-380 | A prepared message: its columns, its one receipt and the map rows of its children; the Action of the attempts that resolve to it, and without one an Action with business object and identity of the approved step, the selected option appended, or with neither |
| `TransferColumns.ReplyHolds` | app/action_entity_transfer.py:383-424 | A reply: all columns on the Action of its canonical result, or on one with no key, step or message, and all columns of its receipt |
| `TransferColumns.ActionsHold` | app/action_entity_transfer.py:539-551 | Every Action is named by the map, carries none of the columns of direct plans, message columns only with a message and reply columns only with a reply |
| `TransferColumns.ReceiptsHold` | app/action_entity_transfer.py:539-551 | Every receipt is named by the map or holds the body of a canonical result |
| `Transfer.Publish` | app/action_entity_transfer.py:539-551 | With the caller's rollback: it succeeds if and only if facts and plan are consistent, with the same tables, and otherwise nothing has changed |
| `Ownership.AttemptsPartition` | app/action_entity_transfer.py:257-323 | After the transfer two attempts share an Action if and only if they carry the same non-empty key |
| `Ownership.OneOwner` | app/action_entity_transfer.py:164-191 | At most one Action carries a key, and at most one a delivery identity |
| `Ownership.PreparedWithAttempt` | app/action_entity_transfer.py:314-362 | A prepared message is on the Action of an attempt if and only if the step of that attempt, or of one under the same non-empty key, resolves to its delivery identity |
| `Ownership.ReplyWithResult` | app/action_entity_transfer.py:383-411 | A reply is on the Action of a canonical result if and only if it has its key |
| `Capture.IndexIdentities` | app/action_entity_transfer.py:583-595 | Both inverse indexes of the identity map, whatever order its rows come in |
| `Capture.CaptureActions` | app/action_entity_transfer.py:614-729 | The per-Action loop succeeds exactly when every Action can be read, and collects what each contributes |
| `Capture.CaptureObservers` | app/action_entity_transfer.py:755-762 | Observer rows in order; refused exactly when one is on an Action that has no reply |
| `Capture.CaptureInverseFacts` | app/action_entity_transfer.py:581-784 | The inverse fails exactly on an unreadable Action, an observer without reply or an Action no family represents; otherwise it returns the contributions of the Actions and the observers |
| `CapturedColumns.RowsTold` | app/action_entity_transfer.py:614-762 | From any tables it can read: every row of all seven families and no other, each column told by those of the Action and the receipts it is read from |
| `CapturedColumns.ResultPartIs` | app/action_entity_transfer.py:616-641 | An Action yields a canonical result if and only if it has a key and either a mapped receipt for it or a receipt with the columns of such metadata; it is read from the mapped one, else from the one with the largest ID, with body and digest of the receipt that refers to |
| `CapturedColumns.UnmappedResultIff` | app/action_entity_transfer.py:618-627 | While keys are unique, a key without a mapped receipt has a result if and only if its Action has a receipt with those columns |
| `CapturedColumns.PartTold` | app/action_entity_transfer.py:614-729 | What one Action contributes: message, provider body with its clock, first dispatch by receipt ID, attempts and reply, absent results included |
| `Recovery.CapturedOnce` | app/action_entity_transfer.py:614-729 | From any coherent tables, read in any order, no family lists a row twice |
| `RoundTrip.ExternalBack` | app/action_entity_transfer.py:616-641 | An Action yields its canonical result, from its binding and body, exactly when its key has one |
| `RoundTrip.MessageBack` | app/action_entity_transfer.py:643-670 | An Action yields its prepared message with receipt and dispatch, under the channel, text and token a later reply on it left |
| `RoundTrip.AttemptsBack` | app/action_entity_transfer.py:672-691 | Its observations come back with ID, slot, key, status and outcome; a reference to the canonical body is an absent outcome |
| `RoundTrip.SentBack` | app/action_entity_transfer.py:708-729 | Its reply comes back with ID and all columns, its result absent when it only refers to the canonical body |
| `Recovery.MessageHomes` | app/action_entity_transfer.py:404-411 | The messages and the reply beside each, told from the facts alone, are exactly those on the Actions |
| `Recovery.Recover` | app/action_entity_transfer.py:581-784 | The inverse of a transferred database never fails and returns, for all seven families, exactly one row for each fact |
| `Lossless.SentUnchangedIff` | app/action_entity_transfer.py:387-391 | A reply comes back as it was if and only if its key is empty or has a canonical result, and its channel is not empty |
| `Lossless.PostfixUnchangedIff` | app/action_entity_transfer.py:404-411 | A prepared message comes back as it was if and only if the reply on its Action has its channel and token and its receipt has a clock |
| `Lossless.RoundTripExact` | app/action_entity_transfer.py:581-784 | When every row can be kept, the inverse returns all seven families unchanged, as multisets, with public IDs and absent outcomes |
| `Lossless.ChannelStays` | app/action_entity_transfer.py:404-411 | Messages cannot trade channels among themselves: whoever moved first would have been refused |
| `Lossless.RoundTripIff` | app/action_entity_transfer.py:539-784 | All seven families come back unchanged if and only if every reply and every prepared message can be kept |
| `Lossless.ThereAndBack` | app/action_entity_transfer.py:539-784 | Transfer followed by the inverse as one method: accepted if and only if facts and plan are consistent, and exact if and only if every row can be kept |
| `Witnesses.KeyLost` | app/action_entity_transfer.py:387-391 | Concrete accepted facts whose reply loses its key |
| `Witnesses.TokenLost` | app/action_entity_transfer.py:404-411 | Concrete accepted facts whose prepared message loses its feedback token to a reply |
| `Witnesses.ClockLost` | app/action_entity_transfer.py:643-662 | Concrete accepted facts whose prepared receipt has an empty clock and comes back without one |
| `Witnesses.ChannelInvented` | app/action_entity_transfer.py:708-729 | Concrete accepted facts whose reply has an empty channel and comes back through the default one |
| `Witnesses.ObserverIdentityIff` | app/action_entity_transfer.py:755-762 | An observer comes back with the identity it had if and only if its reply is not numbered 0 |
| `Witnesses.ZeroObserver` | app/action_entity_transfer.py:755-762 | Concrete accepted facts whose observer comes back without an identity from every table that holds them |
| `Witnesses.MessageAccepted` | app/action_entity_transfer.py:326-411 | Around one prepared message with its attempt and at most one reply: accepted if and only if the step has no option and a reply on its Action has the prepared text |
| `Witnesses.OptionRefused` | app/action_entity_transfer.py:332-362 | Concrete facts accepted for a plain step and refused once an option is selected |
| `Witnesses.OrderMatters` | app/action_entity_transfer.py:383-411 | The same replies accepted in one order and refused in the other |
| `AfterRun.RunDescends` | app/action_entity_storage.py:41-158 | No runtime call touches the identity map, and every run keeps the ledger and extends it |
| `AfterRun.PartsSucceed` | app/action_entity_transfer.py:614-729 | Reading an Action of coherent tables never fails while the map's bindings refer to receipts, and gives its reply and each of its slots |
| `AfterRun.RecoverAfterRun` | app/action_entity_transfer.py:581-784 | After any calls of the runtime on transferred tables the inverse succeeds if and only if each Action and each observed Action can be told from its columns or the map; every attempt taken in then returns under its ID and slot, every later slot once without an identity, every canonical result whose key an Action still carries, and every row of all families, what the runtime recorded included, with the columns there are by then |
| `AfterRun.BodiesStay` | app/action_entity_definitions.py:63-84 | Whatever the runtime does, the provider body of every prepared message stays on the receipt and Action the map names |
| `AfterRun.CreatedTellableIff` | app/action_entity_transfer.py:763-784 | An Action the runtime creates on transferred tables can be told if and only if it has a key, a plan or a delivery address |
| `IdentityText.IdentityBack` | app/action_entity_transfer.py:75-92 | Reading the printed identity gives the identity back, booleans as integers |
| `IdentityText.IdentityInjective` | app/action_entity_transfer.py:554-569 | Different identities have different texts, across integers, texts, null and tuples |
| `IdentityText.KeysClashIff` | app/action_entity_transfer.py:87-102 | The keys of two map rows clash as stored texts if and only if the identities of their families are the same |
| `IdentityText.MapIdentityPrints` | app/action_entity_transfer.py:95-102 | A stored key is taken exactly when the identity is, and a new map row keeps stored and modelled map together |
| `JsonText.ValueBack` | app/action_entity_transfer.py:87-92 | A printed JSON value in front of any text is read back whole and leaves that text |
| `JsonText.DocumentBack` | app/action_entity_transfer.py:554-558 | Reading the print of a whole document gives the value |
| `JsonText.DecimalBack` | app/agent_effect_guard.py:123-140 | A number with a fraction or an exponent, or one of the three words, is read back whole in front of anything that cannot continue it |
| `JsonGrammar.LoadsIff` | app/action_entity_transfer.py:554-558 | A document is read as a value if and only if it is a text of that value in the grammar of RFC 8259, with NaN and the infinities, and space around it; anything else is refused |
| `JsonGrammar.ValueSound` | app/agent_effect_guard.py:123-140 | Whatever is read in front of a text is the text of its value in that grammar, followed by the rest |
| `JsonGrammar.ValueComplete` | app/agent_effect_guard.py:123-140 | Every text of a value is read as that value, whatever follows it, a number in front of anything that cannot continue it |
| `JsonGrammar.StringSound` | app/agent_effect_guard.py:123-140 | The text of a string, escapes, code points and surrogate pairs included, is what the grammar says; control characters are refused |
| `JsonGrammar.DictIs` | app/agent_effect_guard.py:123-140 | Of fields with one name the last gives the value, and no name is there twice |
| `SingleTable.InsertRefines` | app/action_storage.py:2087-2140 | An insert changes the single table as it changes the native tables; it answers alike unless a missing parent is reported for a row SQLite would have ignored |
| `SingleTable.UpdateRefines` | app/action_storage.py:2143-2207 | An update does so too, including renumbering a referenced parent, unless a missing parent is reported where there was no row to update |
| `SingleTable.UpdateWhereRefines` | app/action_storage.py:2192-2207 | So does an update with any condition on the projected row |
| `SingleTable.DeleteRefines` | app/action_storage.py:2210-2220 | A delete is refused for a referenced row and otherwise removes it, exactly as natively |
| `SingleTable.StepRefines` | app/action_storage.py:2087-2220 | Every write commutes with the projections, with the exact condition under which the answers differ |
| `SingleTable.RunRefines` | app/action_storage.py:2048-2220 | Every sequence of writes commutes with the projections |
| `SingleTable.UniqueShown` | app/action_storage.py:713-723 | Unique columns clash physically exactly when they clash by public IDs |
| `SingleTable.ReferencedShown` | app/action_storage.py:789 | A row is referenced physically exactly when its public ID is referenced |
| `SingleTable.TooEarlyHappens` | app/action_storage.py:1234-1253 | A concrete update that raises although the native one finds no row |
| `SingleTable.RunConsistent` | app/action_storage.py:66-112 | Every run keeps what the native declarations promise: complete rows, unique columns, resolved references |
| `CandidateTables.StepConsistent` | app/action_storage.py:66-112 | So does every single native write |
| `CandidateColumns.ChosenIs` | app/action_storage.py:2125 | The ID of an insert: the given one, else one more than the largest of the kind, 1 without any, and at the bound an unused one |
| `CandidateColumns.CompleteIs` | app/action_storage.py:66-112 | What each of the six kinds demands of a row, column by column |
| `CandidateColumns.NativeInsertTold` | app/action_storage.py:66-112 | A native insert, told on rows and columns without the functions both sides of the refinement share |
| `CandidateColumns.NativeUpdateTold` | app/action_storage.py:66-112 | A native update, told likewise |
| `CandidateColumns.NativeDeleteTold` | app/action_storage.py:66-112 | A native delete, told likewise |
| `TableConversion.ActionStore.InsertAction` | app/action_storage.py:2087-2140 | The write as the store performs it: fields, parents, ID, constraints, row; on declared tables its effect and answer are told on the kind's own rows and columns |
| `TableConversion.InsertIsTold` | app/action_storage.py:2087-2140 | The same of the pure step: without a given ID the row gets one more than the largest of its kind, 1 in an empty kind, an unused one at the bound; a given one is kept; refused or ignored exactly on an incomplete row, a taken ID or unique value or a missing parent |
| `TableConversion.ActionStore.UpdateAction` | app/action_storage.py:2143-2207 | The update as the store performs it, told likewise |
| `TableConversion.UpdateIsTold` | app/action_storage.py:2143-2207 | The same of the pure step: the named columns are new and the others as they were, under the new ID if one is named; refused exactly on a field the kind has not, a missing parent, an incomplete row, a taken ID or value, or a new ID for a referenced row |
| `TableConversion.ConsistentDeclared` | app/action_storage.py:66-112 | Tables reached by writes meet the declarations these descriptions ask for |
| `TableConversion.ActionStore.DeleteAction` | app/action_storage.py:2210-2220 | The delete as the store performs it, told likewise |
| `TableConversion.Number` | app/action_storage.py:2321 | The global renumbering is injective and gives each row its place |
| `TableConversion.MigrateActionSchema` | app/action_storage.py:2295-2333 | Succeeds exactly on complete rows with resolving references, and then shows exactly the source tables, forward and nullable references included |
| `TableConversion.RestoreActionSchema` | app/action_storage.py:2336-2363 | Succeeds exactly when every reference reaches its kind of parent, and returns what the projections show |
| `TableConversion.MigrateWriteRestore` | app/action_storage.py:2295-2363 | Migrate, write anything, restore: the tables those writes would have made natively; with no writes, the tables themselves |
| `Allocator.StepSafe` | app/action_storage.py:804-811 | Every step keeps the mark above all surviving insertions and all IDs within 64 bits, in every open savepoint too |
| `Allocator.AutomaticIdFresh` | app/action_storage.py:1286-1295 | After any run an automatic ID is above every ID inserted and not rolled back and every ID present, and it fails exactly when the mark or an ID present is at the bound |
| `Allocator.AutomaticIs` | app/action_storage.py:1286-1295 | It is one more than the largest of the mark and the IDs there are, and 1 without either; the mark becomes it |
| `Allocator.GivenIs` | app/action_storage.py:1956-1964 | An insert with an ID: refused if and only if it does not fit or is taken and not ignored; else the mark reaches it, also when it is ignored, and nothing else changes |
| `Allocator.NeverReused` | app/action_storage.py:1286-1295 | An ID once inserted is never handed out again |
| `Allocator.MovedIdReused` | app/action_storage.py:1956-1964 | An ID reached by an update alone can be handed out again |
| `Allocator.IdTable.InsertAutomatic` | app/action_storage.py:2109-2116 | The automatic insert does this in place, with the rollback of the whole transaction where the kind demands it |
| `Allocator.IdTable.InsertGiven` | app/action_storage.py:1956-1964 | The explicit insert does this in place |
| `Binary64.EncodeExact` | app/action_storage.py:1396-1403 | Mantissa and exponent are within the bounds and equal the value exactly, also for negatives; zeros keep their sign |
| `Binary64.DecodeExact` | app/action_email_definitions.py:609-616 | What the validator accepts is a canonical finite value, and decoding gives exactly that one |
| `Binary64.RoundTrip` | app/action_storage.py:1396-1403 | Decoding the encoding gives back every finite value, both zeros included |
| `Binary64.CanonicalUnique` | app/action_storage.py:1396-1403 | A finite value has one canonical representation |
| `Binary64.WholeNumber` | app/action_storage.py:1398-1400 | For whole numbers the right shift drops zero bits only |
| `ScalarCodec.EncodeSound` | app/action_storage.py:1363-1404 | The encoder refuses exactly what the driver refuses; what it writes passes the validator and decodes to the scalar the driver stores |
| `ScalarCodec.EncodeInjective` | app/action_storage.py:1363-1404 | Scalars stored differently never share an encoding |
| `ScalarCodec.ValidRealIff` | app/action_email_definitions.py:628-635 | The validator's bounds on whole mantissas are exactly those of the encoder's finite values |
| `ScalarCodec.ValidIff` | app/action_email_definitions.py:619-639 | What the validator lets through: scalars other than arrays, and objects with exactly the fields of a blob in hexadecimal text of either case, of a real within the bounds, or of an infinity |
| `ScalarCodec.UnhexIff` | app/action_email_definitions.py:609-611 | Text is read as bytes if and only if it has two hexadecimal digits for each of them, in either case |
| `ScalarCodec.HexBack` | app/action_storage.py:1389-1395 | Hexadecimal text of even length gives the bytes back |
| `EffectGuard.ReceiptsIff` | app/agent_effect_guard.py:37-50 | A receipt is collected if and only if it is in a dictionary reached by at most nine envelope keys ending in `result`, none on the way marked failed |
| `EffectGuard.CollectReceipts` | app/agent_effect_guard.py:37-50 | The recursive collector appends exactly these to what was found |
| `EffectGuard.LoadAll` | app/agent_effect_guard.py:123-140 | The scanning loop returns the values of the greedy spans, for every text |
| `EffectGuard.SpansExact` | app/agent_effect_guard.py:123-140 | Spans are disjoint and left to right, each holds what is read at its brace, and a brace outside all of them starts no value |
| `EffectGuard.WovenBack` | app/agent_effect_guard.py:123-140 | JSON objects, with any numbers, printed between texts without an opening brace come back, all and in order |
| `Decimals.TinyPowers` | app/agent_effect_guard.py:70-71 | An exit code written as ten to minus k is no zero as written, and counts as zero if and only if k is at least 324 |
| `Decimals.DecimalZeroIff` | app/agent_effect_guard.py:70-71 | An exit code written with digits, fraction and exponent counts as zero if and only if its digits are all zero or it is at most half the least positive binary64 number |
| `EffectGuard.CollectEvent` | app/agent_effect_guard.py:95-114 | What one event contributes: recorded IDs first, then those of its answers |
| `EffectAnswers.AnswersIff` | app/agent_effect_guard.py:53-92 | An event has an answer if and only if its item is a command that ended with zero and the answer its output, the aggregated one where that is empty; or a tool call without an error and the answer a text block, the structured part, or a result without content |
| `EffectAnswers.ContainsIs` | app/agent_effect_guard.py:37-50 | The receipts of an answer, told on its entries: which names hold one, which keys lead on, what marks a failure |
| `EffectAnswers.EventIff` | app/agent_effect_guard.py:95-114 | A receipt comes from an event if and only if it is among the recorded IDs and no blank, or one of its answers contains it; reading raises if and only if those IDs cannot be iterated |
| `EffectGuard.Distinct` | app/agent_effect_guard.py:115-120 | The result holds each receipt once, in the order first seen |
| `EffectGuard.ProviderReceipts` | app/agent_effect_guard.py:95-120 | The receipts of all events, each once, in first-seen order; raises exactly when recorded IDs cannot be iterated |
| `ContractCatalog.ParseActionContracts` | app/action_contract_catalog.py:60-84 | The parsing loop: entries in order; refused on a malformed row, a repeated pair or an empty table |
| `ContractExact.ParseIff` | app/action_contract_catalog.py:24-84 | A document parses to given pairs if and only if they are those its first table names, in order, at least one and none twice: a header with capability and operation in any case, a rule of as many cells below it, rows up to the first line that is none; anything else is refused |
| `ContractExact.RowEntriesIff` | app/action_contract_catalog.py:28-43 | A row names pairs if and only if its first cell is inline code and so is each part of its second between commas |
| `ContractPrinted.PageText` | app/action_contract_catalog.py:46-84 | Text without a table, a header of any width, a rule of any hyphens and colons, printed rows and further text: parsed to exactly the pairs of the rows, refused if and only if there is none or one is repeated |
| `ContractPrinted.PageSelected` | app/action_contract_catalog.py:96-116 | Selecting from it keeps every other line and, of the rows, those of the capability, narrowed to the operation asked for |
| `ContractCatalog.SelectedContractDocument` | app/action_contract_catalog.py:96-116 | The selecting loop: lines before and after the table as they are, the selected rows between |
| `ContractSelection.RenderedCells` | app/action_contract_catalog.py:111-115 | A row rendered from its cells has those cells again |
| `ContractSelection.SelectedRowIs` | app/action_contract_catalog.py:105-115 | A row contributes itself, itself narrowed to one operation, or nothing, and says exactly the chosen ones of its entries |
| `ContractSelection.TableStays` | app/action_contract_catalog.py:46-57 | Replacing table rows by rows leaves the table where it was found |
| `PythonText.LinesTextIff` | app/action_contract_catalog.py:46-57 | Lines put together are split into the same lines if and only if each but the last ends in a line break and no bare carriage return meets a line feed |
| `ContractSelection.PairKeptIff` | app/action_contract_catalog.py:105-115 | With one operation chosen, the lines of the selection stay apart if and only if the row naming it ends in a line feed or nothing follows the table, or, where no row names it, the line before the rows swallows no blank line after them |
| `ContractSelection.WholeKeptIff` | app/action_contract_catalog.py:105-115 | With whole rows kept they stay apart if and only if the last kept row, or the separator, swallows no blank line after the table |
| `ContractSelection.SelectionCommutesIff` | app/action_contract_catalog.py:96-116 | On every document that parses: the selection parses to the entries filtered, in order, with all other lines as they were, if and only if the document meets that condition |
| `ContractWitness.ReturnedRowMerges` | app/action_contract_catalog.py:111-115 | A document that parses and whose selection has no row left: its row ends in a bare carriage return and prose follows |
| `DateEvidence.CopyDateEvidence` | app/action_business_storage.py:111-149 | New IDs are base+1 to base+count in source order, the base being the largest of the mark and the IDs there are; fails exactly when they do not fit or the target is missing; the immutability guard never fires |
| `DateEvidence.FactsMerged` | app/action_business_storage.py:111-149 | Afterwards the target has the union of the facts, other tasks theirs, existing rows are untouched, and a second call copies nothing |
| `Feedback.RunStatus` | app/action_feedback_storage.py:448-522 | Over any run keys stay unique, and an event keeps ROWID, key and creation while its status is the initial one folded over the steps that named it |
| `Feedback.RepeatedUpsert` | app/action_feedback_storage.py:448-463 | A repeated upsert keeps ROWID, creation and resolution and replaces the content |
| `Feedback.ResolveIdempotent` | app/action_feedback_storage.py:498-509 | With a non-blank timestamp the count is that of the newly resolved events, and resolving again finds none |
| `Feedback.BlankResolve` | app/action_feedback_storage.py:498-509 | A blank timestamp resolves nothing, however often |
| `Feedback.FeedbackStore.UpsertFeedbackEvent` | app/action_feedback_storage.py:448-463 | The upsert in place: the event with the key keeps creation and resolution and gets the content and the clock of the statement; else a new one under the next ROWID with the clocks given, that of the statement for those left out; full exactly when the largest ROWID is taken and no other is found |
| `Feedback.UpsertIs` | app/action_feedback_storage.py:448-463 | The same of the pure step, told column by column |
| `Feedback.FeedbackStore.ResolveFeedbackEvents` | app/action_feedback_storage.py:498-509 | The open events of the keys get the timestamp as resolution and clock, nothing else changes, and the count is theirs |
| `Feedback.ResolveIs` | app/action_feedback_storage.py:498-509 | The same of the pure step |
| `Feedback.FeedbackStore.ReopenFeedbackEvent` | app/action_feedback_storage.py:512-522 | The resolved event of the key is open again with the clock of the statement, nothing else changes, and the count says whether there was one |
| `BulkCopy.ChopFlat` | app/action_email_storage.py:242-258 | Binding flattened values group by group gives back the very rows |
| `BulkCopy.InsertRows` | app/action_email_storage.py:242-258 | Batched copy equals the rows in order; no statement exceeds the variable limit unless one row alone does; a row of another width is refused |
| `FollowupSync.SetRetained` | app/action_email_storage.py:236-239 | Deleting and rewriting allocator rows gives every listed name its former mark or none, and leaves the others |
| `FollowupSync.LoadedIs` | app/action_email_storage.py:242-258 | A table filled from the listing of rows in ID order holds exactly these rows |
| `FollowupSync.CopyFamily` | app/action_followup_sync_storage.py:436-450 | One table copied row by row: refused exactly when a send attempt names no follow-up; otherwise the common table shows it beside the tables before it |
| `FollowupSync.MigrateFollowupSync` | app/action_followup_sync_storage.py:412-468 | Refused exactly on an allocator it cannot carry or a missing parent; otherwise the common table shows the ten families, links and retained Actions, and after all drops, inserts and rewrites each mark is under its new name |
| `FollowupSync.MapLegacyRefs` | app/action_followup_sync_storage.py:387-403 | Links are renumbered in either direction, or refused exactly when a parent is missing or of another kind |
| `FollowupSync.LinkBack` | app/action_followup_sync_storage.py:387-403 | Renumbering there and back is the identity |
| `FollowupSync.RestoreFollowupSync` | app/action_followup_sync_storage.py:471-612 | From any common table: refused exactly on an allocator it cannot carry or a reference that does not reach its kind; otherwise ten tables and links filled in batches hold what was shown, and each mark is back under its native name |
| `FollowupSync.MigrateRestore` | app/action_followup_sync_storage.py:387-612 | The identity on the whole database: ten families, links, retained Actions and the allocator table, absent marks absent |
| `FollowupWrites.StepAgrees` | app/action_storage.py:1700-1791 | Each insert and update on the folded families changes tables and marks as the native statement would and answers alike, missing parents included, except exactly where a linked work update gets another ID without the trigger against it: refused natively, done by the store |
| `FollowupColumns.NativeTold` | app/action_storage.py:1700-1791 | That native statement, told on rows and columns: the ID, the named columns and the others, what is refused and what passed over, the mark |
| `FollowupColumns.StepTold` | app/action_storage.py:1700-1791 | So a write on the folded families does this to the tables they stand for, that exception aside |
| `FollowupWrites.UnguardedIff` | app/action_followup_sync_definitions.py:800-806 | When that is: no trigger, as with legacy business tables, a work update that a link names, a new ID, and nothing else in the way |
| `FollowupWrites.LinkedRenumbered` | app/action_followup_sync_definitions.py:800-806 | It happens on a concrete database |
| `FollowupWrites.FoldedAgrees` | app/action_storage.py:1700-1791 | Without exception the store does what the native statement would with links that follow a renumbered work update |
| `FollowupWrites.GuardedRun` | app/action_followup_sync_definitions.py:800-806 | With the trigger, or without such a statement, a run in that sense is the native run |
| `FollowupWrites.SyncStore.InsertSyncAction` | app/action_storage.py:1731-1753 | The insert as the store performs it: ID, checks that can be ignored, parent, external references, row and mark |
| `FollowupWrites.SyncStore.UpdateSyncAction` | app/action_storage.py:1756-1791 | The update as the store performs it: the row first, under its condition, then parent, checks and triggers |
| `FollowupWrites.MigrateWriteRestore` | app/action_followup_sync_storage.py:412-612 | Fold, write anything, unfold: the tables, links and marks those statements would have left natively, refused exactly on an allocator that cannot be carried or a missing parent |
| `Delivery.RunValid` | app/action_storage.py:812-815 | In every reachable state an observer's composite key is the public ID of its reply and its run, its run and task exist, and pairs and external keys are unique |
| `Delivery.MigrateActionDelivery` | app/action_delivery_storage.py:631-648 | Refused exactly when the mark misses a reply or an observer lacks its reply, run or task; otherwise shows exactly the source |
| `Delivery.RestoreActionDelivery` | app/action_delivery_storage.py:666-702 | Refused exactly when the mark misses a reply; otherwise returns the shown facts |
| `Delivery.MigrateRestore` | app/action_delivery_storage.py:631-702 | Both families and the sent mark come back |
| `DeliveryWrites.StepAgrees` | app/action_storage.py:2048-2220 | Each write on converted replies and observers changes what is shown as the native statement would, and answers alike except exactly where a missing reply, run or task is looked up for an observer to update that is not there, or for an ignorable duplicate |
| `DeliveryColumns.NativeTold` | app/action_storage.py:2048-2220 | That native statement, told on rows and columns: the ID, the named columns and the others, what is refused and what passed over, the mark |
| `DeliveryColumns.StepTold` | app/action_storage.py:2048-2220 | So a write on the converted rows does this to the tables they show, and answers alike except in exactly those cases |
| `DeliveryWrites.MissingReplyTooEarly` | app/action_storage.py:1245-1253 | A concrete update that raises for a missing reply although no observer matches |
| `DeliveryWrites.MissingRunTooEarly` | app/action_storage.py:1245-1253 | The same for a missing run |
| `DeliveryWrites.MissingTaskTooEarly` | app/action_storage.py:1245-1253 | The same for a missing task |
| `DeliveryWrites.MissingTaskNotIgnored` | app/action_storage.py:2102 | A concrete duplicate observer that raises for a missing task although it would be ignored |
| `DeliveryWrites.RunAgrees` | app/action_storage.py:2048-2220 | So does every sequence of writes |
| `DeliveryWrites.MigrateWriteRestore` | app/action_delivery_storage.py:631-702 | Convert, write anything, convert back: the tables those statements would have made natively, refused exactly when a parent is missing or an ID lies above its mark |

## Left out

- CandidatePhase.PreparedCandidates: plan steps, delivery keys and digests are given values; parsing proposals and computing keys (`agent_message_delivery_key`) is not modelled.
- PostfixPhase.TransferPostfixes: prepared children always have their parent row, as they are columns of it, so the branches for an absent parent are not modelled; identities are taken in any order.
- PostfixPhase.PlacePostfix: the field-by-field JSON updates are one row update, which is what the caller's transaction shows.
- Transfer.TransferSourceFacts: the email transfer and the rewriting of retry parents, which come after the phases modelled.
- Transfer.Publish: the same, and publishing the replacement database file.
- Capture.CaptureInverseFacts: the email families, the history and the retry references are not read back; their layouts come from modules that are not part of this model.
- Lossless.RoundTripExact: writing the captured rows into the rebuilt predecessor tables is not modelled; observers are shown with the Action of the reply they belong to.
- Ledger.Connection.CreateAction: physical IDs are counters that are never reused, not SQLite's largest ID plus one.
- SingleTable.UpdateRefines: setting an ID to NULL.
- SingleTable.InsertRefines: declared defaults and the statement clock are part of the values; SQLite's choice of an ID above the bound is a given unused ID.
- TableConversion.MigrateActionSchema: declarations, name collisions and dependency probes.
- FollowupSync.MigrateFollowupSync: declarations and triggers of the target are not modelled, names in `sqlite_sequence` are told apart without case folding, and a name with two rows there is not represented; which tables are declared AUTOINCREMENT is a parameter.
- FollowupWrites.StepAgrees: writes on the links themselves, deletions of folded rows (the store has none), and changes of external tables while references into them stand; CHECK constraints and external references are given as predicates on the columns of a row.
- DeliveryWrites.StepAgrees: NULL references, a condition on the projected row, and the rollback of the caller's transaction when the allocator is spent, which is in `Allocator`.
- Feedback.FeedbackStore.UpsertFeedbackEvent: NULL in a required field, and direct updates of an event outside the three calls.
- EffectGuard.LoadAll: the limits on recursion depth and on the digits of a number.
- JsonText.ValueBack: choosing a spelling for a floating-point number (the spelling is kept as it was), and escapes that stand for half a surrogate pair, which no string here can hold.
- IdentityText.IdentityBack: texts that were not printed as identities, beyond being refused.
- ScalarCodec.EncodeSound: subclass conversions and non-contiguous buffers; products in the decoder are exact, so rounding does not arise.
- The anchor-link upsert, the email and reply writers, the remaining conversions and the release orchestration: they would add copies of what is here.
- SQL text, schema fingerprints, prompt rendering, HTTP endpoints and object storage.
