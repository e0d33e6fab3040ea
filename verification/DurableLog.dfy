/** One run's rows in the history database and the writes applied to them. */
module DurableLog {
  import opened Wrappers
  import opened RunEvents
  import opened RunSpec

  /** A stored event row either decodes or does not. */
  datatype Stored = Intact(event: StreamEvent) | Damaged

  type Table = map<nat, Stored>

  datatype DurableRun = DurableRun(row: Option<Row>, table: Table)

  lemma {:induction false} MaximumExists(s: set<nat>)
    requires s != {}
    ensures exists x :: x in s && forall y :: y in s ==> y <= x
  {
    var a :| a in s;
    var rest := s - {a};
    assert s == rest + {a};
    if rest != {} {
      MaximumExists(rest);
      var m :| m in rest && forall y :: y in rest ==> y <= m;
      var x := if a > m then a else m;
      assert forall y :: y in s ==> y == a || y in rest;
      assert x in s && forall y :: y in s ==> y <= x;
    }
  }

  /** SQL's COALESCE(MAX(seq), 0). */
  function MaxSeq(table: Table): (m: nat)
    ensures table == map[] ==> m == 0
    ensures table != map[] ==> m in table && forall k :: k in table ==> k <= m
  {
    if table == map[] then 0
    else
      MaximumExists(table.Keys);
      var x :| x in table.Keys && forall y :: y in table.Keys ==> y <= x;
      x
  }

  function InsertEvent(table: Table, e: RunEvent): Table {
    if e.num > 0 then table[e.num := Intact(e.event)]
    else table[MaxSeq(table) + 1 := Intact(e.event)]
  }

  function InsertBatch(table: Table, batch: seq<RunEvent>): Table
    decreases |batch|
  {
    if batch == [] then table else InsertBatch(InsertEvent(table, batch[0]), batch[1..])
  }

  /** One write, applied as one transaction. */
  function ApplyWrite(d: DurableRun, w: Write): DurableRun {
    match w
    case SaveRow(row) => d.(row := Some(row))
    case AppendRows(batch, row) =>
      DurableRun(if row.Some? then row else d.row, InsertBatch(d.table, batch))
  }

  /** What reading the log back yields: the events when the sequence numbers are
      exactly 1..n and every row decodes, nothing when the log is corrupt. */
  function LogOf(table: Table): Option<seq<RunEvent>> {
    if (forall k :: k in table ==> 1 <= k <= |table| && table[k].Intact?) &&
       (forall k :: 1 <= k <= |table| ==> k in table)
    then Some(seq(|table|, i requires 0 <= i < |table| => Entry(table, i + 1)))
    else None
  }

  function Entry(table: Table, k: nat): RunEvent {
    RunEvent(k, if k in table && table[k].Intact? then table[k].event else Closed)
  }

  /** Table and log say the same thing. */
  ghost predicate Holds(table: Table, log: seq<RunEvent>) {
    && (forall k :: k in table <==> 1 <= k <= |log|)
    && (forall k :: k in table ==> table[k] == Intact(log[k - 1].event))
    && Numbered(log)
  }

  lemma {:induction false} KeysAreBounded(table: Table, n: nat)
    requires forall k :: k in table <==> 1 <= k <= n
    ensures |table| == n
  {
    if n == 0 {
      assert table == map[];
    } else {
      var rest := table - {n};
      KeysAreBounded(rest, n - 1);
      assert table.Keys == rest.Keys + {n};
      assert |table.Keys| == |rest.Keys| + 1;
    }
  }

  /** LogOf recovers a log exactly from a table that holds it. */
  lemma {:induction false} HeldLogIsRead(table: Table, log: seq<RunEvent>)
    requires Holds(table, log)
    ensures LogOf(table) == Some(log)
  {
    KeysAreBounded(table, |log|);
    var read := LogOf(table).value;
    assert forall i :: 0 <= i < |log| ==> read[i] == Entry(table, i + 1) == log[i];
    assert read == log;
  }

  lemma {:induction false} ReadLogIsHeld(table: Table)
    requires LogOf(table).Some?
    ensures Holds(table, LogOf(table).value)
  {
    var log := LogOf(table).value;
    forall k | k in table ensures table[k] == Intact(log[k - 1].event) {
      assert log[k - 1] == Entry(table, k);
    }
  }

  /** Appending the next sequence number, given or store-numbered, extends the log. */
  lemma {:induction false} InsertExtends(table: Table, log: seq<RunEvent>, e: RunEvent)
    requires Holds(table, log)
    requires e.num == |log| + 1 || e.num == 0
    ensures Holds(InsertEvent(table, e), log + [RunEvent(|log| + 1, e.event)])
  {
    if e.num == 0 && log != [] {
      assert |log| in table;
    }
    var log' := log + [RunEvent(|log| + 1, e.event)];
    var table' := InsertEvent(table, e);
    assert table' == table[|log| + 1 := Intact(e.event)];
  }

  /** The batch `events` becomes: numbered after `last`, or left to the store. */
  ghost predicate Carries(batch: seq<RunEvent>, events: seq<StreamEvent>, last: nat, numbered: bool) {
    && |batch| == |events|
    && forall i :: 0 <= i < |batch| ==> batch[i] == RunEvent(if numbered then last + 1 + i else 0, events[i])
  }

  lemma {:induction false} BatchExtends(table: Table, log: seq<RunEvent>, events: seq<StreamEvent>, batch: seq<RunEvent>, numbered: bool)
    requires Holds(table, log)
    requires Carries(batch, events, |log|, numbered)
    ensures Holds(InsertBatch(table, batch), log + Number(|log|, events))
    decreases |batch|
  {
    if batch == [] {
      assert log + Number(|log|, events) == log;
    } else {
      InsertExtends(table, log, batch[0]);
      var log1 := log + [RunEvent(|log| + 1, events[0])];
      BatchExtends(InsertEvent(table, batch[0]), log1, events[1..], batch[1..], numbered);
      assert log + Number(|log|, events) == log1 + Number(|log1|, events[1..]);
    }
  }

  /** The table never says anything the log does not. */
  ghost predicate Within(table: Table, log: seq<RunEvent>) {
    forall k :: k in table ==> 1 <= k <= |log| && table[k] == Intact(log[k - 1].event)
  }

  /** However many batches were lost, reading back yields an exact prefix of the
      log or is refused as corrupt: never a different log. */
  lemma {:induction false} ReadingYieldsAPrefix(table: Table, log: seq<RunEvent>)
    requires Within(table, log) && Numbered(log)
    ensures LogOf(table).Some? ==> |table| <= |log| && LogOf(table).value == log[..|table|]
  {
    if LogOf(table).Some? {
      var read := LogOf(table).value;
      if |table| > 0 {
        assert |table| in table;
      }
      forall i | 0 <= i < |read| ensures read[i] == log[i] {
        assert read[i] == Entry(table, i + 1);
        assert i + 1 in table;
      }
      assert read == log[..|table|];
    }
  }

  lemma {:induction false} BatchStaysWithin(table: Table, log: seq<RunEvent>, batch: seq<RunEvent>)
    requires Within(table, log)
    requires forall e :: e in batch ==> 1 <= e.num <= |log| && log[e.num - 1].event == e.event
    ensures Within(InsertBatch(table, batch), log)
    decreases |batch|
  {
    if batch != [] {
      assert batch[0] in batch;
      assert forall e :: e in batch[1..] ==> e in batch;
      BatchStaysWithin(InsertEvent(table, batch[0]), log, batch[1..]);
    }
  }
}
