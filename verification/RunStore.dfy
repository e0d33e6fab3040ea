/** The history store shared by all runs: one bounded write queue, one writer,
    two tables. */
module RunStore {
  import opened Wrappers
  import opened RunEvents
  import opened RunSpec
  import opened DurableLog
  import P = RunProtocol

  type Database = map<string, DurableRun>

  datatype StoreOp = WriteRun(id: string, write: Write) | DeleteRun(id: string) | ClearTerminal | Barrier(token: nat)

  datatype LoadError = Unavailable | Corrupt

  const QUEUE_CAPACITY: nat := 4096

  function RunOf(db: Database, id: string): DurableRun {
    if id in db then db[id] else DurableRun(None, map[])
  }

  predicate IsRunning(d: DurableRun) { d.row.Some? && d.row.value.status.Running? }

  function Apply(db: Database, op: StoreOp): Database {
    match op
    case WriteRun(id, w) => db[id := ApplyWrite(RunOf(db, id), w)]
    case DeleteRun(id) => db - {id}
    // Event rows whose run is not running go, summaries that are not running go.
    case ClearTerminal => map id | id in db && IsRunning(db[id]) :: db[id]
    case Barrier(_) => db
  }

  function ApplyAll(db: Database, ops: seq<StoreOp>): Database
    decreases |ops|
  {
    if ops == [] then db else ApplyAll(Apply(db, ops[0]), ops[1..])
  }

  /** What one run sees of the shared queue. */
  function Seen(op: StoreOp, id: string): seq<P.Op> {
    match op
    case WriteRun(i, w) => if i == id then [P.Data(w)] else []
    case DeleteRun(i) => if i == id then [P.DeleteRows] else []
    case ClearTerminal => [P.ClearTerminal]
    case Barrier(token) => [P.Barrier(token)]
  }

  function SeenAll(ops: seq<StoreOp>, id: string): seq<P.Op>
    decreases |ops|
  {
    if ops == [] then [] else Seen(ops[0], id) + SeenAll(ops[1..], id)
  }

  lemma {:induction false} OneRunAtATime(db: Database, op: StoreOp, id: string)
    ensures RunOf(Apply(db, op), id) == P.Drain(RunOf(db, id), Seen(op, id))
  {
    if Seen(op, id) != [] {
      var own := Seen(op, id)[0];
      assert Seen(op, id) == [own];
      assert P.Drain(P.ApplyOp(RunOf(db, id), own), []) == P.ApplyOp(RunOf(db, id), own);
    }
  }

  /** Draining the shared queue does to each run what draining that run's own
      view of it does: the single-run protocol loses nothing by looking at one
      run at a time. */
  lemma {:induction false} RunsAreIndependent(db: Database, ops: seq<StoreOp>, id: string)
    ensures RunOf(ApplyAll(db, ops), id) == P.Drain(RunOf(db, id), SeenAll(ops, id))
    decreases |ops|
  {
    if ops != [] {
      OneRunAtATime(db, ops[0], id);
      RunsAreIndependent(Apply(db, ops[0]), ops[1..], id);
      DrainConcat(RunOf(db, id), Seen(ops[0], id), SeenAll(ops[1..], id));
    }
  }

  lemma {:induction false} DrainConcat(d: DurableRun, first: seq<P.Op>, second: seq<P.Op>)
    ensures P.Drain(d, first + second) == P.Drain(P.Drain(d, first), second)
    decreases |first|
  {
    if first == [] {
      assert first + second == second;
    } else {
      assert (first + second)[1..] == first[1..] + second;
      DrainConcat(P.ApplyOp(d, first[0]), first[1..], second);
    }
  }

  // ---------------------------------------------------------------- the writer

  /** How one operation ends. All of them are one transaction or one statement,
      except deleting a run: its event rows may go and its summary stay. */
  datatype Fate = Written | Failed | Half

  function AfterWrite(db: Database, op: StoreOp, fate: Fate): Database {
    match fate
    case Written => Apply(db, op)
    case Failed => db
    case Half => if op.DeleteRun? && op.id in db then db[op.id := db[op.id].(table := map[])] else db
  }

  /** What the writer leaves when the op at place `n + i` of all meets `fates(n + i)`. */
  function WrittenAll(db: Database, ops: seq<StoreOp>, fates: nat -> Fate, n: nat): Database
    decreases |ops|
  {
    if ops == [] then db else WrittenAll(AfterWrite(db, ops[0], fates(n)), ops[1..], fates, n + 1)
  }

  ghost predicate AnyFails(count: nat, fates: nat -> Fate) {
    exists i: nat :: i < count && !fates(i).Written?
  }

  lemma {:induction false} OneMore(count: nat, fates: nat -> Fate)
    ensures AnyFails(count + 1, fates) <==> AnyFails(count, fates) || !fates(count).Written?
  {
    if AnyFails(count, fates) {
      var i: nat :| i < count && !fates(i).Written?;
      assert i < count + 1;
    }
  }

  /** If nothing fails, the database gets everything that was queued. */
  lemma {:induction false} NothingIsLost(db: Database, ops: seq<StoreOp>, fates: nat -> Fate, n: nat)
    requires forall i: nat :: n <= i < n + |ops| ==> fates(i).Written?
    ensures WrittenAll(db, ops, fates, n) == ApplyAll(db, ops)
    decreases |ops|
  {
    if ops != [] {
      NothingIsLost(Apply(db, ops[0]), ops[1..], fates, n + 1);
    }
  }

  /** What failures of the ops of others do to a run: nothing. */
  lemma {:induction false} FailuresStayLocal(db: Database, ops: seq<StoreOp>, fates: nat -> Fate, n: nat, id: string)
    requires forall i: nat :: i < |ops| && Seen(ops[i], id) != [] ==> fates(n + i).Written?
    ensures RunOf(WrittenAll(db, ops, fates, n), id) == RunOf(ApplyAll(db, ops), id)
    decreases |ops|
  {
    if ops != [] {
      var after := AfterWrite(db, ops[0], fates(n));
      assert Seen(ops[0], id) != [] ==> fates(n + 0).Written?;
      assert RunOf(after, id) == RunOf(Apply(db, ops[0]), id);
      forall i: nat | i < |ops[1..]| && Seen(ops[1..][i], id) != [] ensures fates(n + 1 + i).Written? {
        assert ops[1..][i] == ops[i + 1];
        assert fates(n + (i + 1)).Written?;
      }
      FailuresStayLocal(after, ops[1..], fates, n + 1, id);
      RunsAreIndependent(after, ops[1..], id);
      RunsAreIndependent(Apply(db, ops[0]), ops[1..], id);
    }
  }

  /** The protocol's writer steps for one operation of one run. */
  function WriterSteps(s: P.System, op: StoreOp, fate: Fate): P.System
    requires |s.queue| > 0
  {
    if fate.Failed? then P.Written(s, true)
    else if op.DeleteRun? && s.queue[0].DeleteRows?
    then P.Written(P.Written(s, false), fate.Half?)
    else P.Written(s, fate.Half?)
  }

  lemma {:induction false} OneWriterStep(s: P.System, fails: bool)
    requires s.queue != []
    ensures var t := P.Written(s, fails);
            if !fails && s.queue[0].DeleteRows?
            then t.db == s.db.(table := map[]) && t.queue == [P.DeleteRow] + s.queue[1..]
            else t.db == (if fails then s.db else P.ApplyOp(s.db, s.queue[0])) && t.queue == s.queue[1..]
  {
  }

  /** Whatever becomes of an operation, it does to each run what the protocol's
      writer does with that run's own view of it. */
  lemma {:induction false} WriterRefinesTheProtocol(db: Database, op: StoreOp, fate: Fate, id: string, s: P.System)
    requires Seen(op, id) != [] && s.queue != [] && s.queue[0] == Seen(op, id)[0]
    requires s.db == RunOf(db, id)
    ensures WriterSteps(s, op, fate).db == RunOf(AfterWrite(db, op, fate), id)
    ensures WriterSteps(s, op, fate).queue == s.queue[1..]
  {
    OneWriterStep(s, true);
    OneWriterStep(s, false);
    if op.DeleteRun? {
      var t := P.Written(s, false);
      OneWriterStep(t, true);
      OneWriterStep(t, false);
      assert t.queue[1..] == s.queue[1..];
    } else {
      assert !s.queue[0].DeleteRows?;
    }
  }

  /** What a clear leaves of one run. */
  function Spared(d: DurableRun): DurableRun {
    if IsRunning(d) then d else DurableRun(None, map[])
  }

  /** The queue after a run offers its writes: refused when closed or full. */
  function Offered(ops: seq<StoreOp>, closed: bool, id: string, writes: seq<Write>): seq<StoreOp>
    decreases |writes|
  {
    if writes == [] then ops
    else if closed || |ops| >= QUEUE_CAPACITY then Offered(ops, closed, id, writes[1..])
    else Offered(ops + [WriteRun(id, writes[0])], closed, id, writes[1..])
  }

  lemma {:induction false} OfferOne(ops: seq<StoreOp>, closed: bool, id: string, w: Write)
    ensures Offered(ops, closed, id, [w]) ==
            if closed || |ops| >= QUEUE_CAPACITY then ops else ops + [WriteRun(id, w)]
  {
    assert [w][1..] == [];
  }

  function OfferedDeletes(ops: seq<StoreOp>, closed: bool, ids: seq<string>): seq<StoreOp>
    decreases ids
  {
    if ids == [] then ops
    else OfferedDeletes(if closed || |ops| >= QUEUE_CAPACITY then ops else ops + [DeleteRun(ids[0])], closed, ids[1..])
  }

  class Store {
    var db: Database
    var ops: seq<StoreOp>
    var closed: bool
    var degraded: bool

    constructor ()
      ensures db == map[] && ops == [] && !closed && !degraded
    {
      db := map[];
      ops := [];
      closed := false;
      degraded := false;
    }

    /** Never blocks: a closed store ignores the op, a full queue drops it. */
    method Enqueue(op: StoreOp)
      modifies this
      ensures db == old(db) && closed == old(closed)
      ensures ops == if old(closed) || |old(ops)| >= QUEUE_CAPACITY then old(ops) else old(ops) + [op]
      ensures degraded <==> old(degraded) || (!old(closed) && |old(ops)| >= QUEUE_CAPACITY)
    {
      if closed { return; }
      if |ops| < QUEUE_CAPACITY {
        ops := ops + [op];
      } else {
        degraded := true;
      }
    }

    /** The writer takes the next op; one that fails degrades the store. */
    method WriteNext(fate: Fate)
      requires ops != []
      modifies this
      ensures ops == old(ops)[1..] && closed == old(closed)
      ensures db == AfterWrite(old(db), old(ops)[0], fate)
      ensures degraded == (old(degraded) || !fate.Written?)
    {
      var op := ops[0];
      ops := ops[1..];
      match fate {
        case Written => db := Apply(db, op);
        case Failed => degraded := true;
        case Half =>
          degraded := true;
          if op.DeleteRun? && op.id in db {
            db := db[op.id := db[op.id].(table := map[])];
          }
      }
    }

    /** Waits until everything queued so far has been taken by the writer. A
        closed store does not run the barrier at all. */
    method WaitForWriter(fates: nat -> Fate) returns (drained: bool)
      modifies this
      ensures closed == old(closed) && drained == !closed
      ensures drained ==> ops == [] && db == WrittenAll(old(db), old(ops), fates, 0)
      ensures drained ==> degraded == (old(degraded) || AnyFails(|old(ops)|, fates))
      ensures !drained ==> ops == old(ops) && db == old(db) && degraded == old(degraded)
    {
      if closed { return false; }
      var taken := 0;
      while ops != []
        invariant closed == old(closed) && taken + |ops| == |old(ops)|
        invariant WrittenAll(db, ops, fates, taken) == WrittenAll(old(db), old(ops), fates, 0)
        invariant degraded == (old(degraded) || AnyFails(taken, fates))
        decreases |ops|
      {
        OneMore(taken, fates);
        WriteNext(fates(taken));
        taken := taken + 1;
      }
      return true;
    }

    /** Reads a transcript back in sequence order, past a barrier, and refuses
        one with a gap or a row that does not decode. */
    method LoadEvents(id: string, fates: nat -> Fate, readable: bool) returns (r: Result<seq<RunEvent>, LoadError>)
      modifies this
      ensures closed == old(closed)
      ensures !closed ==> ops == [] && db == WrittenAll(old(db), old(ops), fates, 0)
      ensures !closed ==> degraded == (old(degraded) || AnyFails(|old(ops)|, fates))
      ensures closed ==> ops == old(ops) && db == old(db) && degraded == old(degraded)
      ensures !readable ==> r == Failure(Unavailable)
      ensures readable ==> r == match LogOf(RunOf(db, id).table) case Some(log) => Success(log) case None => Failure(Corrupt)
    {
      var _ := WaitForWriter(fates);
      if !readable { return Failure(Unavailable); }
      var table := RunOf(db, id).table;
      r := ReadTable(table);
    }

    /** All rows that do not belong to a running run go, in one transaction. */
    method ClearTerminalRows(fates: nat -> Fate, fails: bool) returns (ok: bool)
      modifies this
      ensures closed == old(closed) && (ok <==> !closed && !fails)
      ensures closed ==> ops == old(ops) && db == old(db) && degraded == old(degraded)
      ensures !closed ==> ops == [] && degraded == (old(degraded) || AnyFails(|old(ops)|, fates) || fails)
      ensures !closed && fails ==> db == WrittenAll(old(db), old(ops), fates, 0)
      ensures ok ==> forall id :: RunOf(db, id) == Spared(RunOf(WrittenAll(old(db), old(ops), fates, 0), id))
      ensures ok ==> forall id :: id in db ==> IsRunning(db[id])
    {
      var drained := WaitForWriter(fates);
      if !drained { return false; }
      if fails {
        degraded := true;
        return false;
      }
      db := Apply(db, ClearTerminal);
      return true;
    }

    /** Drains what is pending; later writes are refused. */
    method Close(fates: nat -> Fate)
      modifies this
      ensures closed
      ensures old(closed) ==> ops == old(ops) && db == old(db) && degraded == old(degraded)
      ensures !old(closed) ==> ops == [] && db == WrittenAll(old(db), old(ops), fates, 0)
      ensures !old(closed) ==> degraded == (old(degraded) || AnyFails(|old(ops)|, fates))
    {
      if closed { return; }
      var _ := WaitForWriter(fates);
      closed := true;
    }
  }

  ghost predicate IsSmallest(s: set<nat>, m: nat) { m in s && forall y :: y in s ==> m <= y }

  lemma {:induction false} SmallestExists(s: set<nat>)
    requires s != {}
    ensures exists m :: IsSmallest(s, m)
  {
    var a :| a in s;
    if IsSmallest(s, a) {
    } else {
      var y :| y in s && y < a;
      var rest := s - {a};
      assert y in rest;
      SmallestExists(rest);
      var n :| IsSmallest(rest, n);
      assert n <= y && forall z :: z in s ==> z == a || z in rest;
      assert IsSmallest(s, n);
    }
  }

  function Smallest(s: set<nat>): (m: nat)
    requires s != {}
    ensures m in s && forall y :: y in s ==> m <= y
  {
    SmallestExists(s);
    assert exists m :: m in s && IsSmallest(s, m);
    var x :| x in s && forall y :: y in s ==> x <= y;
    x
  }

  /** A gap, or a row that does not decode, makes the whole log unreadable. */
  lemma {:induction false} GapIsCorrupt(table: Table, expected: nat, next: nat)
    requires expected >= 1 && next in table && !(1 <= next < expected)
    requires forall k :: k in table && k < next ==> 1 <= k < expected
    requires next != expected || !table[next].Intact?
    ensures LogOf(table).None?
  {
    assert expected < next ==> expected !in table;
  }

  /** The rows read so far are the first of the table, in order. */
  ghost predicate ReadSoFar(table: Table, out: seq<RunEvent>, remaining: set<nat>) {
    && Numbered(out)
    && (forall k :: 1 <= k <= |out| ==> k in table && table[k] == Intact(out[k - 1].event))
    && (forall k :: k in remaining <==> k in table && !(1 <= k <= |out|))
  }

  method ReadTable(table: Table) returns (r: Result<seq<RunEvent>, LoadError>)
    ensures r == match LogOf(table) case Some(log) => Success(log) case None => Failure(Corrupt)
  {
    var expected := 1;
    var out: seq<RunEvent> := [];
    var remaining := table.Keys;
    while remaining != {}
      invariant expected == |out| + 1 && ReadSoFar(table, out, remaining)
      decreases remaining
    {
      var next := Smallest(remaining);
      if next != expected || table[next].Damaged? {
        GapIsCorrupt(table, expected, next);
        return Failure(Corrupt);
      }
      out := out + [RunEvent(next, table[next].event)];
      expected := expected + 1;
      remaining := remaining - {next};
    }
    HeldLogIsRead(table, out);
    return Success(out);
  }
}
