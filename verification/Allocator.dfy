/** Per-kind automatic IDs with a remembered mark, explicit IDs and rollback. */
module Allocator {
  import opened Wrappers
  import opened Ids

  /** `mark` is the stored high-water entry; `inserted` remembers every ID whose insertion was not undone. */
  datatype Alloc = Alloc(mark: Option<int>, ids: set<int>, inserted: set<int>)

  /** The rows now, and as they were at each open savepoint; the first one is the start of the transaction. */
  datatype Session = Session(now: Alloc, saved: seq<Alloc>)

  datatype Call =
    | InsertAuto(endsTransaction: bool)
    | InsertExplicit(id: int, ignore: bool)
    | ChangeId(id: int, to: int)
    | DeleteId(id: int)
    | Savepoint
    | Release
    | RollbackTo

  datatype Reply = Wrote(id: int) | NoRow | Ignored | Raised | Full | Done

  function Max(a: int, b: int): int { if a < b then b else a }

  function MarkOf(a: Alloc): int { if a.mark.Some? then a.mark.value else 0 }

  function HighWater(a: Alloc): int {
    Max(MarkOf(a), if a.ids == {} then 0 else Largest(a.ids))
  }

  /** The insert trigger creates the entry and raises it to the new ID. */
  function Raise(a: Alloc, id: int): Alloc { a.(mark := Some(Max(MarkOf(a), id))) }

  function Inserted(a: Alloc, id: int): Alloc {
    Raise(a, id).(ids := a.ids + {id}, inserted := a.inserted + {id})
  }

  function WholeRollback(s: Session): Session {
    if s.saved == [] then s else Session(s.saved[0], [])
  }

  /** Whether a full allocator also ends the caller's transaction differs between kinds. */
  function Step(s: Session, call: Call): (Session, Reply) {
    var a := s.now;
    match call
    case InsertAuto(ends) =>
      if HighWater(a) >= MAX_ID then (if ends then WholeRollback(s) else s, Full)
      else (s.(now := Inserted(a, HighWater(a) + 1)), Wrote(HighWater(a) + 1))
    case InsertExplicit(id, ignore) =>
      if !Storable(id) then (s, Raised)
      else if id in a.ids then (if ignore then (s.(now := Raise(a, id)), Ignored) else (s, Raised))
      else (s.(now := Inserted(a, id)), Wrote(id))
    case ChangeId(id, to) =>
      if id !in a.ids then (s, NoRow)
      else if !Storable(to) || (to != id && to in a.ids) then (s, Raised)
      else (s.(now := a.(ids := a.ids - {id} + {to})), Wrote(to))
    case DeleteId(id) =>
      if id !in a.ids then (s, NoRow) else (s.(now := a.(ids := a.ids - {id})), Wrote(id))
    case Savepoint => (s.(saved := s.saved + [a]), Done)
    case Release => if s.saved == [] then (s, Raised) else (s.(saved := s.saved[..|s.saved| - 1]), Done)
    case RollbackTo => if s.saved == [] then (s, Raised) else (s.(now := s.saved[|s.saved| - 1]), Done)
  }

  /** The mark covers every surviving insertion, and all IDs fit a 64-bit integer. */
  ghost predicate Covered(a: Alloc) {
    && 0 <= MarkOf(a) <= MAX_ID
    && (forall x | x in a.inserted :: a.mark.Some? && x <= MarkOf(a))
    && (forall x | x in a.ids :: Storable(x))
  }

  ghost predicate Safe(s: Session) {
    Covered(s.now) && forall i | 0 <= i < |s.saved| :: Covered(s.saved[i])
  }

  lemma HighWaterBounds(a: Alloc)
    requires Covered(a)
    ensures 0 <= HighWater(a) <= MAX_ID && (forall x | x in a.ids || x in a.inserted :: x <= HighWater(a))
    ensures (a.mark.None? && HighWater(a) == 0) || a.mark == Some(HighWater(a)) || HighWater(a) in a.ids
    ensures a.mark.Some? ==> a.mark.value <= HighWater(a)
  {
    if a.ids != {} { assert IsLargest(a.ids, Largest(a.ids)); }
  }

  lemma StepSafe(s: Session, call: Call)
    requires Safe(s)
    ensures Safe(Step(s, call).0)
  {
    HighWaterBounds(s.now);
    hide HighWater;
  }

  function Run(s: Session, calls: seq<Call>): Session
    decreases |calls|
  {
    if calls == [] then s else Run(Step(s, calls[0]).0, calls[1..])
  }

  lemma {:induction false} RunSafe(s: Session, calls: seq<Call>)
    requires Safe(s)
    ensures Safe(Run(s, calls))
    decreases |calls|
  {
    hide Safe;
    hide Step;
    if calls != [] {
      StepSafe(s, calls[0]);
      RunSafe(Step(s, calls[0]).0, calls[1..]);
    }
  }

  /** The largest of the mark and the IDs there are; 0 without either. */
  predicate IsHighWater(a: Alloc, m: int) {
    && ((a.mark.None? && m == 0) || a.mark == Some(m) || m in a.ids)
    && m >= 0 && (a.mark.Some? ==> a.mark.value <= m) && forall x | x in a.ids :: x <= m
  }

  /** One insert without an ID: the next one, unless the largest is taken. */
  ghost predicate AutomaticTold(before: Session, ends: bool, after: Session, reply: Reply) {
    || (reply == Full && IsHighWater(before.now, MAX_ID)
        && after == if ends && before.saved != [] then Session(before.saved[0], []) else before)
    || (reply.Wrote? && IsHighWater(before.now, reply.id - 1) && reply.id <= MAX_ID
        && after.saved == before.saved && after.now.mark == Some(reply.id)
        && after.now.ids == before.now.ids + {reply.id} && after.now.inserted == before.now.inserted + {reply.id})
  }

  lemma AutomaticIs(s: Session, ends: bool)
    requires Safe(s)
    ensures
      var (after, reply) := Step(s, InsertAuto(ends));
      AutomaticTold(s, ends, after, reply)
  {
    HighWaterBounds(s.now);
    hide HighWater;
  }

  /** The mark reaches an ID that is inserted, and one whose insertion is ignored, and never falls. */
  predicate MarkReaches(before: Alloc, id: int, after: Alloc) {
    && after.mark.Some? && id <= after.mark.value && (before.mark.Some? ==> before.mark.value <= after.mark.value)
    && (after.mark.value == id || before.mark == after.mark || (before.mark.None? && after.mark.value == 0))
  }

  /** One insert with an ID. */
  ghost predicate GivenTold(before: Session, id: int, ignore: bool, after: Session, reply: Reply) {
    if !(-0x8000_0000_0000_0000 <= id < 0x8000_0000_0000_0000) || (id in before.now.ids && !ignore)
    then reply == Raised && after == before
    else
      && reply == (if id in before.now.ids then Ignored else Wrote(id))
      && after.saved == before.saved && MarkReaches(before.now, id, after.now)
      && after.now.ids == before.now.ids + {id}
      && after.now.inserted == if id in before.now.ids then before.now.inserted else before.now.inserted + {id}
  }

  lemma GivenIs(s: Session, id: int, ignore: bool)
    ensures
      var (after, reply) := Step(s, InsertExplicit(id, ignore));
      GivenTold(s, id, ignore, after, reply)
  {
    if id in s.now.ids { assert s.now.ids + {id} == s.now.ids; }
  }

  /**
   * After any run an automatic ID is above every ID ever inserted and not rolled back and above every ID
   * there is, it fits, and the allocator is full exactly when its high water is at the bound.
   */
  lemma AutomaticIdFresh(s: Session, calls: seq<Call>, ends: bool)
    requires Safe(s)
    ensures
      var before := Run(s, calls);
      var (after, reply) := Step(before, InsertAuto(ends));
      && (reply == Full <==> before.now.mark == Some(MAX_ID) || MAX_ID in before.now.ids)
      && (reply == Full ==> after.now == before.now || (ends && before.saved != [] && after == Session(before.saved[0], [])))
      && (reply != Full ==>
            (reply.Wrote? && 1 <= reply.id <= MAX_ID
             && (forall x | x in before.now.inserted || x in before.now.ids :: x < reply.id)
             && after.now.ids == before.now.ids + {reply.id} && after.now.inserted == before.now.inserted + {reply.id}
             && after.now.mark == Some(reply.id) && after.saved == before.saved))
  {
    RunSafe(s, calls);
    HighWaterBounds(Run(s, calls).now);
    hide Run;
    hide HighWater;
  }

  /** Whatever happens to the row afterwards, short of undoing its insertion, its ID is not handed out again. */
  lemma NeverReused(s: Session, calls: seq<Call>, ends: bool, id: int)
    requires Safe(s) && id in Run(s, calls).now.inserted
    ensures Step(Run(s, calls), InsertAuto(ends)).1 != Wrote(id)
  {
    AutomaticIdFresh(s, calls, ends);
    hide Run;
    hide Step;
  }

  /** An update can move a row above the mark; once it is gone its ID is free again. */
  lemma MovedIdReused()
    ensures
      var s := Run(Session(Alloc(None, {}, {}), []), [InsertExplicit(1, false), ChangeId(1, 2), DeleteId(2)]);
      Step(s, InsertAuto(false)).1 == Wrote(2)
  {
    var s0 := Session(Alloc(None, {}, {}), []);
    var calls := [InsertExplicit(1, false), ChangeId(1, 2), DeleteId(2)];
    var s1 := Step(s0, calls[0]).0;
    assert s1.now == Alloc(Some(1), {1}, {1});
    var s2 := Step(s1, calls[1]).0;
    assert s2.now == Alloc(Some(1), {2}, {1});
    var s3 := Step(s2, calls[2]).0;
    assert s3.now == Alloc(Some(1), {}, {1});
    assert calls[1..][1..] == [calls[2]] && calls[1..][0] == calls[1];
    assert Run(s2, calls[1..][1..]) == s3;
  }

  /** The write functions of one kind on an open connection. */
  class IdTable {
    var session: Session

    constructor ()
      ensures session == Session(Alloc(None, {}, {}), []) && Safe(session)
    {
      session := Session(Alloc(None, {}, {}), []);
    }

    method InsertAutomatic(ends: bool) returns (reply: Reply)
      requires Safe(session)
      modifies this
      ensures (session, reply) == Step(old(session), InsertAuto(ends)) && Safe(session)
      ensures AutomaticTold(old(session), ends, session, reply)
    {
      AutomaticIs(session, ends);
      StepSafe(session, InsertAuto(ends));
      var maximum := HighWater(session.now);
      if maximum >= MAX_ID {
        if ends {
          session := WholeRollback(session);
        }
        return Full;
      }
      session := session.(now := Inserted(session.now, maximum + 1));
      reply := Wrote(maximum + 1);
    }

    method InsertGiven(id: int, ignore: bool) returns (reply: Reply)
      requires Safe(session)
      modifies this
      ensures (session, reply) == Step(old(session), InsertExplicit(id, ignore)) && Safe(session)
      ensures GivenTold(old(session), id, ignore, session, reply)
    {
      GivenIs(session, id, ignore);
      StepSafe(session, InsertExplicit(id, ignore));
      if !Storable(id) {
        return Raised;
      }
      if id in session.now.ids {
        if !ignore {
          return Raised;
        }
        session := session.(now := Raise(session.now, id));
        return Ignored;
      }
      session := session.(now := Inserted(session.now, id));
      reply := Wrote(id);
    }
  }
}
