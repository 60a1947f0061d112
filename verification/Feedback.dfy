/** Feedback events: upsert by key, resolve and reopen. */
module Feedback {
  import opened Wrappers
  import opened Ids

  datatype Content = Content(
    token: string, rating: string, ratingLabel: string, comment: string, originalText: string,
    replyText: string, source: string, receivedAt: string, rawJson: string)

  datatype Event = Event(key: Option<string>, content: Content, createdAt: string, updatedAt: string, resolvedAt: string)

  /** Values of an upsert with the declared defaults filled in; a clock left out is the statement's. */
  datatype Values = Values(
    key: Option<string>, content: Content,
    createdAt: Option<string>, updatedAt: Option<string>, resolvedAt: Option<string>)

  type Events = map<int, Event>

  /** Trimming in SQL takes spaces only. */
  predicate AllSpaces(s: string) { forall i | 0 <= i < |s| :: s[i] == ' ' }

  predicate IsResolved(e: Event) { !AllSpaces(e.resolvedAt) }

  datatype Call =
    | Upsert(values: Values, now: string, spare: Option<int>)
    | Resolve(keys: seq<string>, timestamp: string)
    | Reopen(key: string, now: string)

  datatype Reply = Wrote(rowid: int) | Count(count: int) | Full

  function Or(given: Option<string>, other: string): string { if given.Some? then given.value else other }

  function NewEvent(values: Values, now: string): Event {
    Event(values.key, values.content, Or(values.createdAt, now), Or(values.updatedAt, now), Or(values.resolvedAt, ""))
  }

  ghost predicate UniqueKeys(events: Events) {
    forall r, s | r in events && s in events && r != s && events[r].key.Some? :: events[r].key != events[s].key
  }

  /** The ROWID a plain insert takes: one more than the largest, above the largest integer some unused one. */
  function NextRowid(events: Events, spare: Option<int>): Option<int> {
    if events.Keys == {} then Some(1)
    else if Largest(events.Keys) < MAX_ID then Some(Largest(events.Keys) + 1)
    else if spare.Some? && spare.value !in events then spare
    else None
  }

  predicate HasKey(events: Events, r: int, key: Option<string>) { r in events && key.Some? && events[r].key == key }

  ghost function UpsertStep(events: Events, values: Values, now: string, spare: Option<int>): (Events, Reply) {
    if r :| HasKey(events, r, values.key) then
      (events[r := events[r].(content := values.content, updatedAt := now)], Wrote(r))
    else
      var rowid := NextRowid(events, spare);
      if rowid.None? then (events, Full)
      else (events[rowid.value := NewEvent(values, now)], Wrote(rowid.value))
  }

  predicate Opens(e: Event, keys: seq<string>) { e.key.Some? && e.key.value in keys && !IsResolved(e) }

  function Resolved(events: Events, keys: seq<string>, timestamp: string): Events {
    map r | r in events ::
      if Opens(events[r], keys) then events[r].(resolvedAt := timestamp, updatedAt := timestamp) else events[r]
  }

  function Hit(events: Events, keys: seq<string>): set<int> { set r | r in events && Opens(events[r], keys) }

  predicate Closes(e: Event, key: string) { e.key == Some(key) && IsResolved(e) }

  function Reopened(events: Events, key: string, now: string): Events {
    map r | r in events :: if Closes(events[r], key) then events[r].(resolvedAt := "", updatedAt := now) else events[r]
  }

  ghost function Step(events: Events, call: Call): (Events, Reply) {
    match call
    case Upsert(values, now, spare) => UpsertStep(events, values, now, spare)
    case Resolve(keys, timestamp) => (Resolved(events, keys, timestamp), Count(|Hit(events, keys)|))
    case Reopen(key, now) =>
      (Reopened(events, key, now), Count(|set r | r in events && Closes(events[r], key)|))
  }

  // ---------- keys ----------

  lemma OneRow(events: Events, key: Option<string>, r: int, s: int)
    requires UniqueKeys(events) && HasKey(events, r, key) && HasKey(events, s, key)
    ensures r == s
  {
  }

  lemma NextIsNew(events: Events, spare: Option<int>)
    ensures NextRowid(events, spare).Some? ==> NextRowid(events, spare).value !in events
  {
    var ids := events.Keys;
    if ids != {} { assert IsLargest(ids, Largest(ids)); }
    assert forall r :: r in events <==> r in ids;
  }

  lemma StepUnique(events: Events, call: Call)
    requires UniqueKeys(events)
    ensures UniqueKeys(Step(events, call).0)
    ensures forall r | r in events :: r in Step(events, call).0 && Step(events, call).0[r].key == events[r].key
  {
    if call.Upsert? {
      NextIsNew(events, call.spare);
      hide NextRowid;
      var key := call.values.key;
      assert forall s | s in events && key.Some? && events[s].key == key :: HasKey(events, s, key);
    }
  }

  /** Upserting a key that is there keeps its ROWID, its creation and its resolution, and replaces the content. */
  lemma RepeatedUpsert(events: Events, values: Values, now: string, spare: Option<int>, r: int)
    requires UniqueKeys(events) && HasKey(events, r, values.key)
    ensures
      var (events', reply) := UpsertStep(events, values, now, spare);
      && reply == Wrote(r) && events'.Keys == events.Keys
      && events'[r] == Event(values.key, values.content, events[r].createdAt, now, events[r].resolvedAt)
      && forall s | s in events && s != r :: events'[s] == events[s]
  {
    forall s | HasKey(events, s, values.key) ensures s == r { OneRow(events, values.key, r, s); }
  }

  // ---------- what a run does to one event ----------

  /** Whether an event with this key is resolved after one step, from whether it was before. */
  predicate StatusAfter(resolved: bool, key: Option<string>, call: Call) {
    match call
    case Upsert(_, _, _) => resolved
    case Resolve(keys, timestamp) => resolved || (key.Some? && key.value in keys && !AllSpaces(timestamp))
    case Reopen(k, _) => resolved && key != Some(k)
  }

  predicate Folded(resolved: bool, key: Option<string>, calls: seq<Call>)
    decreases |calls|
  {
    if calls == [] then resolved else Folded(StatusAfter(resolved, key, calls[0]), key, calls[1..])
  }

  lemma StepStatus(events: Events, call: Call, r: int)
    requires UniqueKeys(events) && r in events
    ensures
      var after := Step(events, call).0;
      r in after && after[r].key == events[r].key && after[r].createdAt == events[r].createdAt
      && IsResolved(after[r]) == StatusAfter(IsResolved(events[r]), events[r].key, call)
  {
    if call.Upsert? {
      NextIsNew(events, call.spare);
      hide NextRowid;
    }
  }

  ghost function Run(events: Events, calls: seq<Call>): Events
    decreases |calls|
  {
    if calls == [] then events else Run(Step(events, calls[0]).0, calls[1..])
  }

  /** Over any run: keys stay unique, and an event keeps ROWID, key and creation and has the folded status. */
  lemma {:induction false} RunStatus(events: Events, calls: seq<Call>, r: int)
    requires UniqueKeys(events) && r in events
    ensures
      var after := Run(events, calls);
      && UniqueKeys(after) && r in after && after[r].key == events[r].key && after[r].createdAt == events[r].createdAt
      && IsResolved(after[r]) == Folded(IsResolved(events[r]), events[r].key, calls)
    decreases |calls|
  {
    hide Step;
    hide IsResolved;
    hide StatusAfter;
    if calls != [] {
      StepUnique(events, calls[0]);
      StepStatus(events, calls[0], r);
      RunStatus(Step(events, calls[0]).0, calls[1..], r);
    }
  }

  /** The count is that of the newly resolved events, and resolving again finds none. */
  lemma ResolveIdempotent(events: Events, keys: seq<string>, timestamp: string, again: string)
    requires !AllSpaces(timestamp)
    ensures
      var once := Resolved(events, keys, timestamp);
      && Hit(events, keys) == (set r | r in events && !IsResolved(events[r]) && IsResolved(once[r]))
      && Hit(once, keys) == {} && Resolved(once, keys, again) == once
  {
    hide AllSpaces;
    var once := Resolved(events, keys, timestamp);
    forall r | r in events
      ensures !Opens(once[r], keys)
      ensures Opens(events[r], keys) <==> !IsResolved(events[r]) && IsResolved(once[r])
    {
    }
  }

  /** A blank timestamp resolves nothing: it only touches the clocks, and would do so again. */
  lemma BlankResolve(events: Events, keys: seq<string>, timestamp: string)
    requires AllSpaces(timestamp)
    ensures Hit(Resolved(events, keys, timestamp), keys) == Hit(events, keys)
    ensures forall r | r in events :: IsResolved(Resolved(events, keys, timestamp)[r]) == IsResolved(events[r])
  {
    hide AllSpaces;
    var after := Resolved(events, keys, timestamp);
    forall r | r in events ensures Opens(after[r], keys) == Opens(events[r], keys) {
    }
  }

  // ---------- what each call does, column by column ----------

  /** Some character of the clock is no space. */
  predicate Closed(e: Event) { exists i :: 0 <= i < |e.resolvedAt| && e.resolvedAt[i] != ' ' }

  predicate Keyed(events: Events, key: Option<string>) { key.Some? && exists r :: r in events && events[r].key == key }

  ghost predicate OthersStay(before: Events, after: Events, r: int) {
    forall s | s in before && s != r :: s in after && after[s] == before[s]
  }

  /** The event with the key keeps its creation and its resolution; its content is replaced and its clock set. */
  ghost predicate EventReplaced(before: Events, values: Values, now: string, after: Events, r: int) {
    && r in before && before[r].key == values.key && after.Keys == before.Keys && OthersStay(before, after, r)
    && after[r].key == values.key && after[r].content == values.content && after[r].updatedAt == now
    && after[r].createdAt == before[r].createdAt && after[r].resolvedAt == before[r].resolvedAt
  }

  /** The ROWID is one more than the largest; 1 in an empty table; any unused one when the largest is taken. */
  ghost predicate RowidFits(before: Events, spare: Option<int>, r: int) {
    && r !in before
    && (before == map[] ==> r == 1)
    && (MAX_ID in before ==> spare == Some(r))
    && (before != map[] && (forall s | s in before :: s < MAX_ID) ==> r - 1 in before && forall s | s in before :: s < r)
  }

  /** A new event has the clocks it was given, else the clock of the statement, and without a resolution none. */
  ghost predicate EventAdded(before: Events, values: Values, now: string, after: Events, r: int) {
    && r !in before && after.Keys == before.Keys + {r} && OthersStay(before, after, r)
    && after[r].key == values.key && after[r].content == values.content
    && (match values.createdAt case Some(at) => after[r].createdAt == at case None => after[r].createdAt == now)
    && (match values.updatedAt case Some(at) => after[r].updatedAt == at case None => after[r].updatedAt == now)
    && (match values.resolvedAt case Some(at) => after[r].resolvedAt == at case None => after[r].resolvedAt == "")
  }

  ghost predicate Upserted(before: Events, values: Values, now: string, spare: Option<int>, after: Events, reply: Reply) {
    if Keyed(before, values.key) then reply.Wrote? && EventReplaced(before, values, now, after, reply.rowid)
    else if reply.Wrote? then RowidFits(before, spare, reply.rowid) && EventAdded(before, values, now, after, reply.rowid)
    else reply.Full? && after == before && !(exists r: int :: spare == Some(r) && r !in before) && exists s :: s in before && s >= MAX_ID
  }

  /** The open events of the keys get the timestamp as resolution and as clock; nothing else changes. */
  ghost predicate OnesResolved(before: Events, keys: seq<string>, timestamp: string, after: Events, count: int) {
    && after.Keys == before.Keys
    && count == |set r | r in before && before[r].key.Some? && before[r].key.value in keys && !Closed(before[r])|
    && forall r | r in before ::
         if before[r].key.Some? && before[r].key.value in keys && !Closed(before[r])
         then after[r] == Event(before[r].key, before[r].content, before[r].createdAt, timestamp, timestamp)
         else after[r] == before[r]
  }

  /** The resolved event of the key is open again, with the clock of the statement; nothing else changes. */
  ghost predicate OneReopened(before: Events, key: string, now: string, after: Events, count: int) {
    && after.Keys == before.Keys
    && count == (if exists r :: r in before && before[r].key == Some(key) && Closed(before[r]) then 1 else 0)
    && forall r | r in before ::
         if before[r].key == Some(key) && Closed(before[r])
         then after[r] == Event(Some(key), before[r].content, before[r].createdAt, now, "")
         else after[r] == before[r]
  }

  lemma ClosedIs(e: Event)
    ensures IsResolved(e) <==> Closed(e)
  {
  }

  lemma RowidIs(events: Events, spare: Option<int>)
    ensures
      match NextRowid(events, spare)
      case Some(r) => RowidFits(events, spare, r)
      case None => !(exists r: int :: spare == Some(r) && r !in events) && exists s :: s in events && s >= MAX_ID
  {
    NextIsNew(events, spare);
    var ids := events.Keys;
    assert forall r :: r in events <==> r in ids;
    assert events == map[] <==> ids == {};
    if ids != {} {
      var top := Largest(ids);
      assert IsLargest(ids, top) && top in events;
    }
    hide Largest;
  }

  lemma UpsertIs(events: Events, values: Values, now: string, spare: Option<int>)
    requires UniqueKeys(events)
    ensures
      var (after, reply) := UpsertStep(events, values, now, spare);
      Upserted(events, values, now, spare, after, reply)
  {
    RowidIs(events, spare);
    KeyedIs(events, values.key);
    hide NextRowid;
    hide RowidFits;
    if r :| HasKey(events, r, values.key) {
      RepeatedUpsert(events, values, now, spare, r);
      assert events[r].key == values.key;
    } else {
      NextIsNew(events, spare);
      var rowid := NextRowid(events, spare);
      if rowid.Some? {
        var id := rowid.value;
        AddedIs(events, values, now, id);
        assert RowidFits(events, spare, id);
      }
    }
    hide EventAdded;
    hide EventReplaced;
    hide Keyed;
  }

  lemma KeyedIs(events: Events, key: Option<string>)
    ensures Keyed(events, key) <==> exists r :: HasKey(events, r, key)
  {
    if Keyed(events, key) {
      var r :| r in events && events[r].key == key;
      assert HasKey(events, r, key);
    }
  }

  lemma AddedIs(events: Events, values: Values, now: string, r: int)
    requires r !in events
    ensures EventAdded(events, values, now, events[r := NewEvent(values, now)], r)
  {
  }

  lemma ResolveIs(events: Events, keys: seq<string>, timestamp: string)
    ensures OnesResolved(events, keys, timestamp, Resolved(events, keys, timestamp), |Hit(events, keys)|)
  {
    forall r | r in events ensures IsResolved(events[r]) <==> Closed(events[r]) { ClosedIs(events[r]); }
    SameHits(events, keys);
    hide IsResolved;
    hide Closed;
  }

  lemma SameHits(events: Events, keys: seq<string>)
    ensures Hit(events, keys) == set r | r in events && events[r].key.Some? && events[r].key.value in keys && !Closed(events[r])
  {
    var open := set r | r in events && events[r].key.Some? && events[r].key.value in keys && !Closed(events[r]);
    forall r ensures r in Hit(events, keys) <==> r in open {
      if r in events { ClosedIs(events[r]); }
    }
    hide IsResolved;
    hide Closed;
  }

  lemma ReopenIs(events: Events, key: string, now: string)
    requires UniqueKeys(events)
    ensures OneReopened(events, key, now, Reopened(events, key, now), |set r | r in events && Closes(events[r], key)|)
  {
    forall r | r in events ensures IsResolved(events[r]) <==> Closed(events[r]) { ClosedIs(events[r]); }
    ReopensOne(events, key);
    hide IsResolved;
    hide Closed;
    var hit := set r | r in events && Closes(events[r], key);
    if r :| r in events && events[r].key == Some(key) && Closed(events[r]) { assert r in hit && |hit| > 0; }
    if hit != {} { SomeId(hit); }
  }

  // ---------- the calls as the store makes them ----------

  class FeedbackStore {
    var events: Events

    constructor ()
      ensures events == map[] && UniqueKeys(events)
    {
      events := map[];
    }

    method UpsertFeedbackEvent(values: Values, now: string, spare: Option<int>) returns (reply: Reply)
      requires UniqueKeys(events)
      modifies this
      ensures (events, reply) == UpsertStep(old(events), values, now, spare)
      ensures UniqueKeys(events) && Upserted(old(events), values, now, spare, events, reply)
    {
      UpsertIs(events, values, now, spare);
      hide Upserted;
      StepUnique(events, Upsert(values, now, spare));
      if exists r :: r in events && HasKey(events, r, values.key) {
        var r :| r in events && HasKey(events, r, values.key);
        RepeatedUpsert(events, values, now, spare, r);
        var updated := events[r := events[r].(content := values.content, updatedAt := now)];
        events := updated;
        return Wrote(r);
      }
      var rowid := NextRowid(events, spare);
      if rowid.None? {
        return Full;
      }
      events := events[rowid.value := NewEvent(values, now)];
      reply := Wrote(rowid.value);
    }

    method ResolveFeedbackEvents(keys: seq<string>, timestamp: string) returns (count: int)
      requires UniqueKeys(events)
      modifies this
      ensures (events, Count(count)) == Step(old(events), Resolve(keys, timestamp))
      ensures UniqueKeys(events) && OnesResolved(old(events), keys, timestamp, events, count)
    {
      ResolveIs(events, keys, timestamp);
      hide OnesResolved;
      StepUnique(events, Resolve(keys, timestamp));
      count := |Hit(events, keys)|;
      events := Resolved(events, keys, timestamp);
    }

    method ReopenFeedbackEvent(key: string, now: string) returns (count: int)
      requires UniqueKeys(events)
      modifies this
      ensures (events, Count(count)) == Step(old(events), Reopen(key, now))
      ensures UniqueKeys(events) && OneReopened(old(events), key, now, events, count)
    {
      ReopenIs(events, key, now);
      hide OneReopened;
      StepUnique(events, Reopen(key, now));
      count := |set r | r in events && Closes(events[r], key)|;
      events := Reopened(events, key, now);
    }
  }

  lemma ReopensOne(events: Events, key: string)
    requires UniqueKeys(events)
    ensures |set r | r in events && Closes(events[r], key)| <= 1
  {
    var hit := set r | r in events && Closes(events[r], key);
    if hit != {} {
      SomeId(hit);
      var r :| r in hit;
      forall s | s in hit ensures s == r { OneRow(events, Some(key), r, s); }
      assert hit == {r};
    }
  }
}
