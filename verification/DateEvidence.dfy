/** Copying the date facts of one task to another in bulk. */
module DateEvidence {
  import opened Ids

  datatype Fact = Fact(
    dateType: string, valueAt: string, rawPhrase: string, signal: int,
    actorKind: string, actorUser: string, actorName: string, createdAt: string)

  datatype Row = Row(task: int, fact: Fact)

  /** Rows by public ID, the stored mark of the allocator, and the tasks a row may refer to. */
  datatype Table = Table(rows: map<int, Row>, mark: int, tasks: set<int>)

  ghost predicate Sound(t: Table) {
    && 0 <= t.mark <= MAX_ID && (forall id | id in t.rows :: id <= MAX_ID && t.rows[id].task in t.tasks)
  }

  function FactsOf(t: Table, task: int): set<Fact> {
    set id | id in t.rows && t.rows[id].task == task :: t.rows[id].fact
  }

  /** The rows that are copied: facts of the source task the target task does not have. */
  function Candidates(t: Table, source: int, target: int): set<int> {
    set id | id in t.rows && t.rows[id].task == source && t.rows[id].fact !in FactsOf(t, target)
  }

  function HighWater(t: Table): int {
    var ids := t.rows.Keys;
    if ids == {} || Largest(ids) < t.mark then t.mark else Largest(ids)
  }

  /** The mark or the ID of a row, and no row and no mark above it. */
  predicate IsHighWater(t: Table, m: int) {
    (m == t.mark || m in t.rows) && t.mark <= m && forall id | id in t.rows :: id <= m
  }

  datatype Reply = Copied(count: int) | Full | Raised

  predicate Immutable(t: Table, id: int) { id in t.rows }

  /** One row of the statement: the immutability trigger, the sequence trigger, the row. */
  method InsertRow(t: Table, id: int, row: Row) returns (ok: bool, now: Table)
    ensures ok <==> !Immutable(t, id)
    ensures now == if ok then t.(rows := t.rows[id := row], mark := if t.mark < id then id else t.mark) else t
  {
    ok := !Immutable(t, id);
    now := t;
    if ok {
      now := t.(rows := t.rows[id := row], mark := if t.mark < id then id else t.mark);
    }
  }

  ghost predicate CopiedSoFar(t: Table, now: Table, order: seq<int>, base: int, target: int, n: nat)
    requires n <= |order| && forall id | id in order :: id in t.rows
  {
    && now.tasks == t.tasks
    && (forall id :: id in now.rows <==> id in t.rows || base < id <= base + n)
    && (forall id | id in t.rows :: id in now.rows && now.rows[id] == t.rows[id])
    && (forall k | 0 <= k < n ::
          base + 1 + k in now.rows && now.rows[base + 1 + k] == Row(target, t.rows[order[k]].fact))
    && now.mark == if n == 0 then t.mark else base + n
  }

  lemma HighWaterBounds(t: Table)
    requires Sound(t)
    ensures HighWater(t) <= MAX_ID && IsHighWater(t, HighWater(t))
  {
    var ids := t.rows.Keys;
    if ids != {} { assert IsLargest(ids, Largest(ids)); }
  }

  lemma CopiedOne(t: Table, now: Table, order: seq<int>, base: int, target: int, n: nat, copied: Table)
    requires Sound(t) && base == HighWater(t)
    requires (forall id | id in order :: id in t.rows) && n < |order|
    requires CopiedSoFar(t, now, order, base, target, n)
    requires copied.tasks == now.tasks && copied.mark == base + n + 1
    requires copied.rows == now.rows[base + n + 1 := Row(target, t.rows[order[n]].fact)]
    ensures CopiedSoFar(t, copied, order, base, target, n + 1)
  {
    HighWaterBounds(t);
    assert order[n] in order;
  }

  lemma NotThere(t: Table, now: Table, order: seq<int>, base: int, target: int, n: nat)
    requires Sound(t) && base == HighWater(t)
    requires (forall id | id in order :: id in t.rows) && n <= |order| && CopiedSoFar(t, now, order, base, target, n)
    ensures !Immutable(now, base + 1 + n) && now.mark < base + 1 + n
  {
    HighWaterBounds(t);
  }

  lemma CopiedSound(t: Table, now: Table, order: seq<int>, base: int, target: int)
    requires Sound(t) && base == HighWater(t) && base + |order| <= MAX_ID && target in t.tasks
    requires (forall id | id in order :: id in t.rows) && CopiedSoFar(t, now, order, base, target, |order|)
    ensures Sound(now)
  {
    HighWaterBounds(t);
    forall id | id in now.rows ensures id <= MAX_ID && now.rows[id].task in now.tasks {
      if id !in t.rows {
        var k := id - base - 1;
        var from := order[k];
        assert from in order && from in t.rows && now.rows[base + 1 + k] == Row(target, t.rows[from].fact);
      }
    }
  }

  lemma OrderListed(t: Table, source: int, target: int)
    ensures
      var order := Sorted(Candidates(t, source, target));
      |order| == |Candidates(t, source, target)| && forall id | id in order :: id in t.rows
  {
    SortedIs(Candidates(t, source, target));
  }

  lemma NothingCopied(t: Table, order: seq<int>, base: int, target: int)
    requires forall id | id in order :: id in t.rows
    ensures CopiedSoFar(t, t, order, base, target, 0)
  {
  }

  /**
   * New IDs continue after the high water in the order of the source rows.  It fails when they do not all
   * fit or the target task is missing, and then changes nothing; the immutability trigger never fires.
   */
  method CopyDateEvidence(t: Table, source: int, target: int) returns (reply: Reply, now: Table)
    requires Sound(t)
    ensures
      var count := |Candidates(t, source, target)|;
      && (reply == Full <==> count > 0 && HighWater(t) + count > MAX_ID)
      && (reply == Raised <==> count > 0 && HighWater(t) + count <= MAX_ID && target !in t.tasks)
      && (reply.Copied? ==> reply.count == count && Sound(now))
      && (!reply.Copied? ==> now == t) && IsHighWater(t, HighWater(t))
    ensures
      var order := Sorted(Candidates(t, source, target));
      reply.Copied? ==>
        && |order| == reply.count && (forall id | id in order :: id in t.rows)
        && CopiedSoFar(t, now, order, HighWater(t), target, |order|)
  {
    hide *;
    HighWaterBounds(t);
    var order := Sorted(Candidates(t, source, target));
    OrderListed(t, source, target);
    var base := HighWater(t);
    now := t;
    NothingCopied(t, order, base, target);
    if order == [] {
      return Copied(0), t;
    }
    if |order| > MAX_ID - base {
      return Full, t;
    }
    if target !in t.tasks {
      return Raised, t;
    }
    for n := 0 to |order|
      invariant CopiedSoFar(t, now, order, base, target, n)
    {
      assert order[n] in order;
      NotThere(t, now, order, base, target, n);
      var ok;
      ghost var before := now;
      ok, now := InsertRow(now, base + 1 + n, Row(target, t.rows[order[n]].fact));
      CopiedOne(t, before, order, base, target, n, now);
    }
    CopiedSound(t, now, order, base, target);
    reply := Copied(|order|);
  }

  /** The target task has what both had, every row there was is untouched, and a second call copies nothing. */
  lemma FactsMerged(t: Table, now: Table, source: int, target: int)
    requires Sound(t)
    requires
      var order := Sorted(Candidates(t, source, target));
      (forall id | id in order :: id in t.rows) && CopiedSoFar(t, now, order, HighWater(t), target, |order|)
    ensures FactsOf(now, target) == FactsOf(t, target) + FactsOf(t, source)
    ensures forall task | task != target :: FactsOf(now, task) == FactsOf(t, task)
    ensures Candidates(now, source, target) == {}
  {
    var order, base := Sorted(Candidates(t, source, target)), HighWater(t);
    SortedIs(Candidates(t, source, target));
    HighWaterBounds(t);
    hide HighWater;
    forall id | id in now.rows && id !in t.rows
      ensures now.rows[id].task == target && now.rows[id].fact in FactsOf(t, source)
    {
      var k := id - base - 1;
      assert 0 <= k < |order| && base + 1 + k == id && order[k] in order;
    }
    forall id | id in t.rows && t.rows[id].task == source ensures t.rows[id].fact in FactsOf(now, target) {
      if t.rows[id].fact in FactsOf(t, target) {
        var other :| other in t.rows && t.rows[other].task == target && t.rows[other].fact == t.rows[id].fact;
        assert other in now.rows && now.rows[other] == t.rows[other];
      } else {
        assert id in order;
        var k :| 0 <= k < |order| && order[k] == id;
        assert base + 1 + k in now.rows;
      }
    }
    FactsGrown(t, now, source, target);
  }

  lemma FactsGrown(t: Table, now: Table, source: int, target: int)
    requires forall id | id in t.rows :: id in now.rows && now.rows[id] == t.rows[id]
    requires forall id | id in now.rows && id !in t.rows :: now.rows[id].task == target && now.rows[id].fact in FactsOf(t, source)
    requires forall id | id in t.rows && t.rows[id].task == source :: t.rows[id].fact in FactsOf(now, target)
    ensures FactsOf(now, target) == FactsOf(t, target) + FactsOf(t, source)
    ensures forall task | task != target :: FactsOf(now, task) == FactsOf(t, task)
    ensures Candidates(now, source, target) == {}
  {
    forall f | f in FactsOf(t, target) ensures f in FactsOf(now, target) {
      var id :| id in t.rows && t.rows[id].task == target && t.rows[id].fact == f;
      assert id in now.rows;
    }
    forall task, f | task != target && f in FactsOf(t, task) ensures f in FactsOf(now, task) {
      var id :| id in t.rows && t.rows[id].task == task && t.rows[id].fact == f;
      assert id in now.rows;
    }
    forall id | id in now.rows && now.rows[id].task == source ensures now.rows[id].fact in FactsOf(now, target) {
      if id in t.rows { assert t.rows[id].task == source; }
    }
  }
}
