/** What becomes of a run's writes, and what the database can therefore say.

    A ledger is the run's database and queue together with what a caller of the
    store could have noted: for every turn whether the save that announced it
    was written or lost, and which row was written last. Its steps are what the
    protocol does to the database, without the rest of the run. */
module RunLedger {
  import opened Wrappers
  import opened RunEvents
  import opened RunSpec
  import opened DurableLog
  import opened RunProtocol

  datatype Fate = Pending | Saved | Lost

  datatype Ledger = Ledger(
    db: DurableRun,
    queue: seq<Op>,
    tags: seq<nat>,          // per queued operation, how long the log was once it had been enqueued
    saves: map<nat, Fate>,   // per turn, by its number in the log: the save of the row that announces it
    wrote: Option<nat>,      // how long the log was at the last row this process wrote
    leftover: bool,          // the row was found saying running, and no row has been written since
    len: nat,                // the length of the log in memory
    numbered: bool,          // memory numbers its events as the database will
    reserved: bool,          // a turn is reserved and may still be launched
    live: bool)

  predicate SaysRunning(d: DurableRun) { d.row.Some? && d.row.value.status.Running? }

  predicate Ends(e: StreamEvent) { e.Terminal() || e.Closed? }

  predicate EndAt(t: Table, k: nat) { k in t && t[k].Intact? && Ends(t[k].event) }

  predicate TurnAt(t: Table, k: nat) { k in t && t[k].Intact? && t[k].event.Turn? }

  predicate ClosedAt(t: Table, k: nat) { k in t && t[k].Intact? && t[k].event.Closed? }

  // ---------------------------------------------------------------- writes

  predicate IsSave(op: Op) { op.Data? && op.write.SaveRow? }

  predicate IsAppend(op: Op) { op.Data? && op.write.AppendRows? }

  /** An operation that carries a row. */
  predicate RowOp(op: Op) { op.Data? && (op.write.SaveRow? || op.write.summary.Some?) }

  predicate IsLaunch(op: Op) { IsAppend(op) && op.write.summary.None? && op.write.batch != [] && op.write.batch[0].event.Turn? }

  predicate RowRuns(op: Op) {
    op.Data? && match op.write case SaveRow(row) => row.status.Running? case AppendRows(_, s) => s.Some? && s.value.status.Running?
  }

  predicate Seals(op: Op) { IsAppend(op) && exists i :: 0 <= i < |op.write.batch| && op.write.batch[i].event.Closed? }

  function Size(op: Op): nat { if IsAppend(op) then |op.write.batch| else 0 }

  /** The sections write no other shapes: a row that says running is saved alone
      or with a verification turn; any other row ends its batch. */
  predicate WriteShape(w: Write) {
    match w
    case SaveRow(row) => row.status.Running?
    case AppendRows(batch, summary) =>
      if summary.None? then |batch| == 1 && !Ends(batch[0].event)
      else if summary.value.status.Running? then |batch| == 2 && batch[0].event.Terminal() && batch[1].event.Turn?
      else
        && 1 <= |batch| <= 2 && batch[0].event.Terminal()
        && (|batch| == 2 ==> batch[1].event.Closed? && summary.value.status.Stale?)
  }

  /** The turn an operation announces, if it announces one. */
  function Announces(op: Op, tag: nat): Option<nat> {
    if IsSave(op) then Some(tag + 1)
    else if RowRuns(op) then Some(tag)
    else None
  }

  function Settle(saves: map<nat, Fate>, op: Op, tag: nat, fate: Fate): map<nat, Fate> {
    if Announces(op, tag).Some? then saves[Announces(op, tag).value := fate] else saves
  }

  // ---------------------------------------------------------------- steps

  /** A write that memory numbers, accepted or refused. */
  function Offer(l: Ledger, op: Op, len: nat, accepted: bool): Ledger {
    l.(queue := if accepted then l.queue + [op] else l.queue,
       tags := if accepted then l.tags + [len] else l.tags,
       saves := Settle(l.saves, op, len, if accepted then Pending else Lost),
       len := len)
  }

  function Reserve(l: Ledger, row: Row, accepted: bool): Ledger {
    Offer(l, Data(SaveRow(row)), l.len, accepted).(reserved := true)
  }

  function Append(l: Ledger, events: seq<StreamEvent>, row: Option<Row>, accepted: bool, live: bool): Ledger {
    Offer(l, Data(AppendRows(Number(l.len, events), row)), l.len + |events|, accepted).(reserved := false, live := live)
  }

  /** A write whose numbers are left to the store. */
  function Mark(l: Ledger, op: Op, live: bool): Ledger {
    l.(queue := l.queue + [op], tags := l.tags + [l.len], live := live)
  }

  function Push(l: Ledger, op: Op): Ledger { l.(queue := l.queue + [op], tags := l.tags + [l.len]) }

  /** The writer takes the oldest operation. */
  function Take(l: Ledger, fails: bool): Ledger
    requires l.queue != [] && |l.tags| == |l.queue|
  {
    var (op, tag) := (l.queue[0], l.tags[0]);
    var popped := l.(queue := l.queue[1..], tags := l.tags[1..]);
    if fails then popped.(saves := Settle(l.saves, op, tag, Lost))
    else match op
      case Data(SaveRow(_)) =>
        popped.(db := ApplyOp(l.db, op), saves := Settle(l.saves, op, tag, Saved), wrote := Some(tag), leftover := false)
      case Data(AppendRows(_, summary)) =>
        var d := ApplyOp(l.db, op);
        if summary.None? then popped.(db := d)
        else popped.(db := d, saves := Settle(l.saves, op, tag, Saved), wrote := Some(MaxSeq(d.table)), leftover := false)
      case DeleteRows =>
        l.(db := l.db.(table := map[]), queue := [DeleteRow] + l.queue[1..], wrote := None, leftover := SaysRunning(l.db))
      case DeleteRow => Emptied(popped, l.db.(row := None))
      case ClearTerminal => if SaysRunning(l.db) then popped else Emptied(popped, DurableRun(None, map[]))
      case Barrier(_) => popped
  }

  function Emptied(l: Ledger, d: DurableRun): Ledger { l.(db := d, wrote := None, leftover := false) }

  function Forgotten(saves: map<nat, Fate>): map<nat, Fate> {
    map k | k in saves :: if saves[k].Pending? then Lost else saves[k]
  }

  /** A crash and a restart: what was queued is lost, and a run found running
      gets a marker. */
  function Reopened(l: Ledger, repair: seq<Op>, live: bool): Ledger {
    Ledger(l.db, repair, seq(|repair|, _ => 0), Forgotten(l.saves), None, SaysRunning(l.db), 0, false, false, live)
  }

  // ---------------------------------------------------------------- invariant

  predicate Shaped(l: Ledger) {
    |l.tags| == |l.queue| && forall i :: 0 <= i < |l.queue| && l.queue[i].Data? ==> WriteShape(l.queue[i].write)
  }

  ghost predicate NumberedBy(op: Op, tag: nat) {
    IsAppend(op) ==> |op.write.batch| <= tag && forall j :: 0 <= j < |op.write.batch| ==> op.write.batch[j].num == tag - |op.write.batch| + 1 + j
  }

  /** Numbers only go up, in the table, in the queue and in memory. */
  ghost predicate Ordered(l: Ledger)
    requires |l.tags| == |l.queue|
  {
    && (forall k :: k in l.db.table ==> 1 <= k <= l.len)
    && (forall i :: 0 <= i < |l.queue| && l.queue[i].Data? ==> l.tags[i] <= l.len && NumberedBy(l.queue[i], l.tags[i]))
    && (forall i, k :: 0 <= i < |l.queue| && l.queue[i].Data? && k in l.db.table ==> k + Size(l.queue[i]) <= l.tags[i])
    && (forall i, j :: 0 <= i < j < |l.queue| && l.queue[i].Data? && l.queue[j].Data? ==>
          && l.tags[i] + Size(l.queue[j]) <= l.tags[j]
          && (IsSave(l.queue[i]) && IsSave(l.queue[j]) ==> l.tags[i] < l.tags[j]))
  }

  /** A mark: numberless events whose row does not say running. */
  ghost predicate IsMark(op: Op) {
    IsAppend(op) && op.write.summary.Some? && !op.write.summary.value.status.Running? &&
    forall j :: 0 <= j < |op.write.batch| ==> op.write.batch[j].num == 0
  }

  ghost predicate OnlyMarks(l: Ledger) {
    && (forall i :: 0 <= i < |l.queue| && l.queue[i].Data? ==> IsMark(l.queue[i]))
    && (SaysRunning(l.db) ==> l.leftover)
  }

  predicate SavedAt(l: Ledger, p: nat) { p + 1 in l.saves && l.saves[p + 1].Saved? }

  /** What the row in the database says, and when it was written. */
  ghost predicate Standing(l: Ledger) {
    && (l.leftover ==> SaysRunning(l.db) && l.wrote.None?)
    && (SaysRunning(l.db) ==> l.leftover || l.wrote.Some?)
    && (l.db.row.None? ==> l.wrote.None?)
    && (l.wrote.Some? && SaysRunning(l.db) && !l.leftover ==>
          && (forall k :: k in l.db.table && k > l.wrote.value ==> !EndAt(l.db.table, k))
          && (SavedAt(l, l.wrote.value) || TurnAt(l.db.table, l.wrote.value)))
    && (l.wrote.Some? && !SaysRunning(l.db) ==> EndAt(l.db.table, l.wrote.value))
  }

  /** One reservation per log length. */
  ghost predicate Unique(l: Ledger)
    requires |l.tags| == |l.queue|
  {
    && (forall i :: 0 <= i < |l.queue| && IsSave(l.queue[i]) && l.tags[i] == l.len ==> l.reserved)
    && (l.wrote.Some? ==> l.wrote.value <= l.len)
    && (forall i :: l.wrote.Some? && 0 <= i < |l.queue| && l.queue[i].Data? ==> l.wrote.value + Size(l.queue[i]) <= l.tags[i])
    && (SaysRunning(l.db) && !l.leftover && l.wrote == Some(l.len) && !TurnAt(l.db.table, l.len) ==> l.reserved)
    && (forall i :: 0 <= i < |l.queue| && IsSave(l.queue[i]) ==> l.tags[i] + 1 in l.saves && l.saves[l.tags[i] + 1].Pending?)
  }

  predicate NoRows(queue: seq<Op>, from: nat, upTo: nat)
    requires upTo <= |queue|
  {
    forall i :: from <= i < upTo ==> !RowOp(queue[i])
  }

  /** When operation `i` is taken, the row will say running on behalf of turn
      `k`, unless its save fails. */
  ghost predicate Covered(l: Ledger, i: nat, k: nat)
    requires |l.tags| == |l.queue| && i <= |l.queue|
  {
    || (exists j :: 0 <= j < i && IsSave(l.queue[j]) && l.tags[j] + 1 == k && NoRows(l.queue, j + 1, i))
    || (NoRows(l.queue, 0, i) && SaysRunning(l.db) && k in l.saves && l.saves[k].Saved?)
  }

  ghost predicate LostOrCovered(l: Ledger, i: nat, k: nat)
    requires |l.tags| == |l.queue| && i <= |l.queue|
  {
    k in l.saves && (l.saves[k].Lost? || Covered(l, i, k))
  }

  /** Every turn in the database was announced, or its save was lost. */
  ghost predicate Announced(l: Ledger) {
    forall k :: TurnAt(l.db.table, k) ==>
      k in l.saves &&
      (l.saves[k].Lost? || (l.saves[k].Saved? && (SaysRunning(l.db) || exists q :: q > k && EndAt(l.db.table, q))))
  }

  /** And so will be every turn on its way there. */
  ghost predicate ToBeAnnounced(l: Ledger)
    requires |l.tags| == |l.queue|
  {
    && (forall i :: 0 <= i < |l.queue| && IsLaunch(l.queue[i]) ==> LostOrCovered(l, i, l.tags[i]))
    && (l.reserved ==> l.live && LostOrCovered(l, |l.queue|, l.len + 1))
  }

  predicate NoData(queue: seq<Op>, from: nat) { forall i :: from <= i < |queue| ==> !queue[i].Data? }

  /** After the sentinel or a deletion nothing more is written. */
  ghost predicate Ended(l: Ledger) {
    && (forall i :: 0 <= i < |l.queue| && (l.queue[i].DeleteRows? || l.queue[i].DeleteRow? || Seals(l.queue[i])) ==>
          NoData(l.queue, i + 1) && !l.live)
    && (forall i :: 0 <= i < |l.queue| && l.queue[i].DeleteRow? ==> i == 0 && l.db.table == map[])
    && (forall k :: ClosedAt(l.db.table, k) ==>
          l.db.row.Some? && l.db.row.value.status.Stale? && NoData(l.queue, 0) && !l.live)
  }

  ghost predicate LedgerInv(l: Ledger) {
    && Shaped(l) && Standing(l) && Announced(l) && Ended(l)
    && (if l.numbered then Ordered(l) && Unique(l) && ToBeAnnounced(l) else OnlyMarks(l))
  }

  // ---------------------------------------------------------------- enqueuing

  lemma {:induction false} CoveredStays(l: Ledger, m: Ledger, i: nat, k: nat)
    requires |l.tags| == |l.queue| && |m.tags| == |m.queue| && i <= |l.queue| <= |m.queue|
    requires m.queue[..|l.queue|] == l.queue && m.tags[..|l.queue|] == l.tags && m.db == l.db
    requires LostOrCovered(l, i, k) && k in m.saves && m.saves[k] == l.saves[k]
    ensures LostOrCovered(m, i, k)
  {
    assert forall j :: 0 <= j < |l.queue| ==> m.queue[j] == m.queue[..|l.queue|][j] && m.tags[j] == m.tags[..|l.queue|][j];
  }

  lemma {:induction false} CoveredOneFurther(l: Ledger, m: Ledger, op: Op, tag: nat, k: nat)
    requires |l.tags| == |l.queue| && m.queue == l.queue + [op] && m.tags == l.tags + [tag] && m.db == l.db
    requires LostOrCovered(l, |l.queue|, k) && k in m.saves && m.saves[k] == l.saves[k] && !RowOp(op)
    ensures LostOrCovered(m, |m.queue|, k)
  {
    if !l.saves[k].Lost? {
      if j :| 0 <= j < |l.queue| && IsSave(l.queue[j]) && l.tags[j] + 1 == k && NoRows(l.queue, j + 1, |l.queue|) {
        assert IsSave(m.queue[j]) && m.tags[j] + 1 == k && NoRows(m.queue, j + 1, |m.queue|);
      } else {
        assert NoRows(m.queue, 0, |m.queue|);
      }
    }
  }

  lemma {:induction false} EnqueuedStaysEnded(l: Ledger, m: Ledger, op: Op)
    requires Ended(l) && l.live && op.Data?
    requires m.queue == l.queue + [op] && m.db == l.db && (Seals(op) ==> !m.live)
    ensures Ended(m)
  {
    assert forall i :: 0 <= i < |l.queue| ==> m.queue[i] == l.queue[i];
  }

  lemma {:induction false} OfferKeepsOrder(l: Ledger, m: Ledger, op: Op, len: nat, accepted: bool)
    requires Shaped(l) && Ordered(l) && op.Data? && WriteShape(op.write) && NumberedBy(op, len) && len == l.len + Size(op)
    requires IsSave(op) ==> forall i :: 0 <= i < |l.queue| && IsSave(l.queue[i]) ==> l.tags[i] < l.len
    requires m == Offer(l, op, len, accepted).(reserved := m.reserved, live := m.live)
    ensures Shaped(m) && Ordered(m)
  {
    assert forall i :: 0 <= i < |l.queue| ==> m.queue[i] == l.queue[i] && m.tags[i] == l.tags[i];
  }

  /** A fate noted for a turn that is not in the table yet. */
  lemma {:induction false} NotingKeeps(l: Ledger, m: Ledger, key: nat, fate: Fate)
    requires Standing(l) && Announced(l)
    requires m == l.(queue := m.queue, tags := m.tags, saves := l.saves[key := fate], len := m.len, reserved := m.reserved, live := m.live)
    requires !TurnAt(l.db.table, key)
    requires l.wrote.Some? && SaysRunning(l.db) && !l.leftover && l.wrote.value + 1 == key ==> TurnAt(l.db.table, l.wrote.value)
    ensures Standing(m) && Announced(m)
  {
  }

  lemma {:induction false} OfferKeepsCover(l: Ledger, m: Ledger, op: Op, len: nat, accepted: bool, i: nat)
    requires Shaped(l) && Ordered(l) && ToBeAnnounced(l) && op.Data? && len == l.len + Size(op) && i < |l.queue| && IsLaunch(l.queue[i])
    requires IsAppend(op) && RowRuns(op) ==> len == l.len + 2
    requires m == Offer(l, op, len, accepted).(reserved := m.reserved, live := m.live)
    ensures LostOrCovered(m, i, l.tags[i])
  {
    assert m.queue[..|l.queue|] == l.queue && m.tags[..|l.queue|] == l.tags;
    CoveredStays(l, m, i, l.tags[i]);
  }

  lemma {:induction false} ReserveKeepsUnique(l: Ledger, row: Row, accepted: bool)
    requires Shaped(l) && Ordered(l) && Unique(l) && !l.reserved
    ensures Shaped(Reserve(l, row, accepted)) ==> Unique(Reserve(l, row, accepted))
  {
    var m := Reserve(l, row, accepted);
    assert forall i :: 0 <= i < |l.queue| ==> m.queue[i] == l.queue[i] && m.tags[i] == l.tags[i];
  }

  lemma {:induction false} ReserveKeepsCover(l: Ledger, row: Row, accepted: bool)
    requires Shaped(l) && Ordered(l) && ToBeAnnounced(l) && l.live
    ensures Shaped(Reserve(l, row, accepted)) ==> ToBeAnnounced(Reserve(l, row, accepted))
  {
    var op := Data(SaveRow(row));
    var m := Reserve(l, row, accepted);
    forall i | 0 <= i < |m.queue| && IsLaunch(m.queue[i]) ensures LostOrCovered(m, i, m.tags[i]) {
      assert m.queue[i] == l.queue[i] && m.tags[i] == l.tags[i];
      OfferKeepsCover(l, m, op, l.len, accepted, i);
    }
    if accepted {
      assert IsSave(m.queue[|l.queue|]) && m.tags[|l.queue|] == l.len && NoRows(m.queue, |l.queue| + 1, |m.queue|);
    }
  }

  lemma {:induction false} ReserveKeepsTheRest(l: Ledger, row: Row, accepted: bool)
    requires Standing(l) && Announced(l) && Ended(l) && l.live && !l.reserved && Shaped(l) && Ordered(l) && Unique(l)
    ensures var m := Reserve(l, row, accepted); Standing(m) && Announced(m) && Ended(m)
  {
    var m := Reserve(l, row, accepted);
    assert !TurnAt(l.db.table, l.len + 1);
    NotingKeeps(l, m, l.len + 1, if accepted then Pending else Lost);
    if accepted { EnqueuedStaysEnded(l, m, Data(SaveRow(row))); }
  }

  /** Reserving a turn. */
  lemma {:induction false} ReserveKeeps(l: Ledger, row: Row, accepted: bool)
    requires LedgerInv(l) && l.numbered && l.live && !l.reserved && row.status.Running?
    ensures LedgerInv(Reserve(l, row, accepted))
  {
    OfferKeepsOrder(l, Reserve(l, row, accepted), Data(SaveRow(row)), l.len, accepted);
    ReserveKeepsUnique(l, row, accepted);
    ReserveKeepsCover(l, row, accepted);
    ReserveKeepsTheRest(l, row, accepted);
  }

  // ---------------------------------------------------------------- appending

  /** What the sections append: a turn that was reserved, progress, the end of a
      turn, an apply's end with the verification that follows, or the end of all. */
  predicate Section(events: seq<StreamEvent>, row: Option<Row>, reserved: bool, live: bool) {
    if row.None? then live && |events| == 1 && !Ends(events[0]) && (events[0].Turn? <==> reserved)
    else if row.value.status.Running? then live && |events| == 2 && events[0].Terminal() && events[1].Turn? && !reserved
    else 1 <= |events| <= 2 && events[0].Terminal() && (|events| == 2 ==> events[1].Closed? && row.value.status.Stale? && !live)
  }

  lemma {:induction false} SectionIsShaped(l: Ledger, events: seq<StreamEvent>, row: Option<Row>, live: bool)
    requires Section(events, row, l.reserved, live)
    ensures var op := Data(AppendRows(Number(l.len, events), row));
            WriteShape(op.write) && NumberedBy(op, l.len + |events|) && (Seals(op) ==> !live) &&
            (IsLaunch(op) ==> l.reserved) && (RowRuns(op) ==> |events| == 2) && Size(op) == |events|
  {
  }

  lemma {:induction false} AppendKeepsUnique(l: Ledger, events: seq<StreamEvent>, row: Option<Row>, accepted: bool, live: bool)
    requires Shaped(l) && Ordered(l) && Unique(l) && Section(events, row, l.reserved, live)
    ensures Shaped(Append(l, events, row, accepted, live)) ==> Unique(Append(l, events, row, accepted, live))
  {
    var m := Append(l, events, row, accepted, live);
    assert forall i :: 0 <= i < |l.queue| ==> m.queue[i] == l.queue[i] && m.tags[i] == l.tags[i];
  }

  lemma {:induction false} AppendKeepsCover(l: Ledger, events: seq<StreamEvent>, row: Option<Row>, accepted: bool, live: bool)
    requires Shaped(l) && Ordered(l) && ToBeAnnounced(l) && Section(events, row, l.reserved, live)
    ensures Shaped(Append(l, events, row, accepted, live)) ==> ToBeAnnounced(Append(l, events, row, accepted, live))
  {
    var op := Data(AppendRows(Number(l.len, events), row));
    var m := Append(l, events, row, accepted, live);
    SectionIsShaped(l, events, row, live);
    forall i | 0 <= i < |m.queue| && IsLaunch(m.queue[i]) ensures |m.tags| == |m.queue| ==> LostOrCovered(m, i, m.tags[i]) {
      if i < |l.queue| {
        assert m.queue[i] == l.queue[i] && m.tags[i] == l.tags[i];
        OfferKeepsCover(l, m, op, l.len + |events|, accepted, i);
      } else {
        assert m.queue[..|l.queue|] == l.queue && m.tags[..|l.queue|] == l.tags;
        CoveredStays(l, m, |l.queue|, l.len + 1);
      }
    }
  }

  lemma {:induction false} AppendKeepsTheRest(l: Ledger, events: seq<StreamEvent>, row: Option<Row>, accepted: bool, live: bool)
    requires Standing(l) && Announced(l) && Ended(l) && l.live && Shaped(l) && Ordered(l) && Unique(l)
    requires Section(events, row, l.reserved, live)
    ensures var m := Append(l, events, row, accepted, live); Standing(m) && Announced(m) && Ended(m)
  {
    var op := Data(AppendRows(Number(l.len, events), row));
    var m := Append(l, events, row, accepted, live);
    SectionIsShaped(l, events, row, live);
    if RowRuns(op) {
      assert !TurnAt(l.db.table, l.len + 2);
      NotingKeeps(l, m, l.len + 2, if accepted then Pending else Lost);
    }
    if accepted { EnqueuedStaysEnded(l, m, op); }
  }

  lemma {:induction false} AppendKeeps(l: Ledger, events: seq<StreamEvent>, row: Option<Row>, accepted: bool, live: bool)
    requires LedgerInv(l) && l.numbered && l.live && Section(events, row, l.reserved, live)
    ensures LedgerInv(Append(l, events, row, accepted, live))
  {
    var op := Data(AppendRows(Number(l.len, events), row));
    SectionIsShaped(l, events, row, live);
    OfferKeepsOrder(l, Append(l, events, row, accepted, live), op, l.len + |events|, accepted);
    AppendKeepsUnique(l, events, row, accepted, live);
    AppendKeepsCover(l, events, row, accepted, live);
    AppendKeepsTheRest(l, events, row, accepted, live);
  }

  // ---------------------------------------------------------------- other operations

  lemma {:induction false} PushKeepsOrder(l: Ledger, op: Op)
    requires Shaped(l) && Ordered(l) && !op.Data?
    ensures Shaped(Push(l, op)) && Ordered(Push(l, op))
  {
    var m := Push(l, op);
    assert forall i :: 0 <= i < |l.queue| ==> m.queue[i] == l.queue[i] && m.tags[i] == l.tags[i];
  }

  lemma {:induction false} PushKeepsUnique(l: Ledger, op: Op)
    requires Shaped(l) && Unique(l) && !op.Data?
    ensures Shaped(Push(l, op)) ==> Unique(Push(l, op))
  {
    var m := Push(l, op);
    assert forall i :: 0 <= i < |l.queue| ==> m.queue[i] == l.queue[i] && m.tags[i] == l.tags[i];
  }

  lemma {:induction false} PushKeepsCover(l: Ledger, op: Op)
    requires Shaped(l) && ToBeAnnounced(l) && !op.Data?
    ensures ToBeAnnounced(Push(l, op))
  {
    var m := Push(l, op);
    forall i | 0 <= i < |m.queue| && IsLaunch(m.queue[i]) ensures LostOrCovered(m, i, m.tags[i]) {
      assert m.queue[..|l.queue|] == l.queue && m.tags[..|l.queue|] == l.tags;
      CoveredStays(l, m, i, l.tags[i]);
    }
    if l.reserved { CoveredOneFurther(l, m, op, l.len, l.len + 1); }
  }

  lemma {:induction false} PushKeepsEnded(l: Ledger, op: Op)
    requires Ended(l) && !op.Data? && !op.DeleteRow? && (op.DeleteRows? ==> !l.live)
    ensures Ended(Push(l, op))
  {
    var m := Push(l, op);
    assert forall i :: 0 <= i < |l.queue| ==> m.queue[i] == l.queue[i];
  }

  lemma {:induction false} PushKeepsMarks(l: Ledger, op: Op)
    requires Shaped(l) && OnlyMarks(l) && !op.Data?
    ensures Shaped(Push(l, op)) && OnlyMarks(Push(l, op))
  {
    var m := Push(l, op);
    assert forall i :: 0 <= i < |l.queue| ==> m.queue[i] == l.queue[i];
  }

  /** An operation that writes nothing for the run. A deletion is the last one. */
  lemma {:induction false} PushKeeps(l: Ledger, op: Op)
    requires LedgerInv(l) && !op.Data? && !op.DeleteRow? && (op.DeleteRows? ==> !l.live)
    ensures LedgerInv(Push(l, op))
  {
    PushKeepsEnded(l, op);
    assert Standing(Push(l, op)) && Announced(Push(l, op));
    if l.numbered {
      PushKeepsOrder(l, op);
      PushKeepsUnique(l, op);
      PushKeepsCover(l, op);
    } else {
      PushKeepsMarks(l, op);
    }
  }

  lemma {:induction false} MarkKeeps(l: Ledger, op: Op, live: bool)
    requires LedgerInv(l) && !l.numbered && l.live && op.Data? && IsMark(op) && WriteShape(op.write) && (Seals(op) ==> !live)
    ensures LedgerInv(Mark(l, op, live))
  {
    var m := Mark(l, op, live);
    assert forall i :: 0 <= i < |l.queue| ==> m.queue[i] == l.queue[i] && m.tags[i] == l.tags[i];
    EnqueuedStaysEnded(l, m, op);
  }

  // ---------------------------------------------------------------- the writer: the table

  /** The table with one or two more events after number `n`. */
  function Extended(t: Table, n: nat, batch: seq<RunEvent>): Table
    requires 1 <= |batch| <= 2
  {
    if |batch| == 1 then t[n + 1 := Intact(batch[0].event)]
    else t[n + 1 := Intact(batch[0].event)][n + 2 := Intact(batch[1].event)]
  }

  lemma {:induction false} MaxIs(t: Table, m: nat)
    requires m in t && forall k :: k in t ==> k <= m
    ensures MaxSeq(t) == m
  {
  }

  lemma {:induction false} InsertTwo(t: Table, a: RunEvent, b: RunEvent)
    ensures InsertBatch(t, [a]) == InsertEvent(t, a)
    ensures InsertBatch(t, [a, b]) == InsertEvent(InsertEvent(t, a), b)
  {
    assert [a][1..] == [] && [a, b][1..] == [b] && [b][1..] == [];
    assert InsertBatch(InsertEvent(t, a), [b]) == InsertEvent(InsertEvent(t, a), b);
  }

  lemma {:induction false} InsertNumbered(t: Table, batch: seq<RunEvent>, tag: nat)
    requires 1 <= |batch| <= 2 && |batch| <= tag
    requires forall j :: 0 <= j < |batch| ==> batch[j].num == tag - |batch| + 1 + j
    ensures InsertBatch(t, batch) == Extended(t, tag - |batch|, batch)
  {
    if |batch| == 1 {
      InsertTwo(t, batch[0], batch[0]);
      assert batch == [batch[0]];
    } else {
      InsertTwo(t, batch[0], batch[1]);
      assert batch == [batch[0], batch[1]];
    }
  }

  lemma {:induction false} InsertMarks(t: Table, batch: seq<RunEvent>)
    requires 1 <= |batch| <= 2 && forall j :: 0 <= j < |batch| ==> batch[j].num == 0
    ensures InsertBatch(t, batch) == Extended(t, MaxSeq(t), batch)
  {
    var n := MaxSeq(t);
    MaxIs(t[n + 1 := Intact(batch[0].event)], n + 1);
    if |batch| == 1 {
      InsertTwo(t, batch[0], batch[0]);
      assert batch == [batch[0]];
    } else {
      InsertTwo(t, batch[0], batch[1]);
      assert batch == [batch[0], batch[1]];
    }
  }

  // ---------------------------------------------------------------- the writer: rows and tables

  /** Where the batch at the head of the queue goes. */
  ghost predicate HeadGoesAfter(l: Ledger, n: nat) {
    && l.queue != [] && |l.tags| == |l.queue| && IsAppend(l.queue[0]) && WriteShape(l.queue[0].write)
    && (forall k :: k in l.db.table ==> k <= n)
    && InsertBatch(l.db.table, l.queue[0].write.batch) == Extended(l.db.table, n, l.queue[0].write.batch)
    && (RowRuns(l.queue[0]) ==> l.tags[0] == n + 2)
  }

  lemma {:induction false} RowStands(l: Ledger, n: nat)
    requires HeadGoesAfter(l, n) && RowOp(l.queue[0])
    ensures Standing(Take(l, false)) && Take(l, false).wrote == Some(n + |l.queue[0].write.batch|)
  {
    var m, batch := Take(l, false), l.queue[0].write.batch;
    MaxIs(m.db.table, n + |batch|);
    assert m.db.table == Extended(l.db.table, n, batch);
  }

  lemma {:induction false} RowAnnounces(l: Ledger, n: nat)
    requires HeadGoesAfter(l, n) && RowOp(l.queue[0]) && Announced(l)
    ensures Announced(Take(l, false))
  {
    var m, batch := Take(l, false), l.queue[0].write.batch;
    assert m.db.table == Extended(l.db.table, n, batch);
    forall k: nat | TurnAt(m.db.table, k)
      ensures k in m.saves && (m.saves[k].Lost? || (m.saves[k].Saved? && (SaysRunning(m.db) || exists q :: q > k && EndAt(m.db.table, q))))
    {
      if k <= n { assert TurnAt(l.db.table, k); }
      if !SaysRunning(m.db) { assert EndAt(m.db.table, n + |batch|); }
    }
  }

  lemma {:induction false} RowlessStands(l: Ledger, n: nat)
    requires HeadGoesAfter(l, n) && !RowOp(l.queue[0]) && Standing(l)
    ensures Standing(Take(l, false))
  {
    assert Take(l, false).db.table == Extended(l.db.table, n, l.queue[0].write.batch);
    assert l.wrote.Some? && EndAt(l.db.table, l.wrote.value) ==> EndAt(Take(l, false).db.table, l.wrote.value);
    assert l.wrote.Some? && TurnAt(l.db.table, l.wrote.value) ==> TurnAt(Take(l, false).db.table, l.wrote.value);
  }

  lemma {:induction false} RowlessAnnounces(l: Ledger, n: nat)
    requires HeadGoesAfter(l, n) && !RowOp(l.queue[0]) && Announced(l)
    requires IsLaunch(l.queue[0]) ==> LostOrCovered(l, 0, n + 1)
    ensures Announced(Take(l, false))
  {
    var m := Take(l, false);
    assert m.db.table == Extended(l.db.table, n, l.queue[0].write.batch);
    forall k: nat | TurnAt(m.db.table, k)
      ensures k in m.saves && (m.saves[k].Lost? || (m.saves[k].Saved? && (SaysRunning(m.db) || exists q :: q > k && EndAt(m.db.table, q))))
    {
      if k <= n {
        assert TurnAt(l.db.table, k);
        if q :| q > k && EndAt(l.db.table, q) { assert EndAt(m.db.table, q); }
      }
    }
  }

  lemma {:induction false} AppendEnds(l: Ledger, n: nat)
    requires HeadGoesAfter(l, n) && Ended(l)
    ensures Ended(Take(l, false))
  {
    var m := Take(l, false);
    assert m.db.table == Extended(l.db.table, n, l.queue[0].write.batch);
    assert forall i :: 0 <= i < |m.queue| ==> m.queue[i] == l.queue[i + 1];
    assert forall k: nat :: !ClosedAt(l.db.table, k);
    forall k: nat | ClosedAt(m.db.table, k)
      ensures m.db.row.Some? && m.db.row.value.status.Stale? && NoData(m.queue, 0) && !m.live
    {
      assert k <= n ==> ClosedAt(l.db.table, k);
      assert l.queue[0].write.batch[k - n - 1].event.Closed?;
    }
  }

  // ---------------------------------------------------------------- the writer: what is still queued

  predicate Popped(l: Ledger, m: Ledger) {
    && l.queue != [] && |l.tags| == |l.queue| && m.queue == l.queue[1..] && m.tags == l.tags[1..]
    && m.len == l.len && m.reserved == l.reserved && m.live == l.live && m.numbered == l.numbered
  }

  lemma {:induction false} PopKeepsOrder(l: Ledger, m: Ledger)
    requires Popped(l, m) && Shaped(l) && Ordered(l)
    requires forall k :: k in m.db.table ==> k in l.db.table || (IsAppend(l.queue[0]) && 1 <= k <= l.tags[0])
    ensures Shaped(m) && Ordered(m)
  {
    assert forall i :: 0 <= i < |m.queue| ==> m.queue[i] == l.queue[i + 1] && m.tags[i] == l.tags[i + 1];
    forall i, k | 0 <= i < |m.queue| && m.queue[i].Data? && k in m.db.table ensures k + Size(m.queue[i]) <= m.tags[i] {
      if k !in l.db.table { assert l.tags[0] + Size(l.queue[i + 1]) <= l.tags[i + 1]; }
    }
  }

  lemma {:induction false} PopKeepsUnique(l: Ledger, m: Ledger, fate: Fate)
    requires Popped(l, m) && Shaped(l) && Ordered(l) && Unique(l)
    requires m.saves == l.saves || m.saves == Settle(l.saves, l.queue[0], l.tags[0], fate)
    requires m.wrote == l.wrote || m.wrote.None? || (l.queue[0].Data? && m.wrote == Some(l.tags[0]))
    requires SaysRunning(m.db) && !m.leftover && m.wrote == Some(m.len) && !TurnAt(m.db.table, m.len) ==> m.reserved
    ensures Unique(m)
  {
    forall i | m.wrote.Some? && 0 <= i < |m.queue| && m.queue[i].Data? ensures m.wrote.value + Size(m.queue[i]) <= m.tags[i] {
      assert m.queue[i] == l.queue[i + 1] && m.tags[i] == l.tags[i + 1];
    }
    forall i | 0 <= i < |m.queue| && IsSave(m.queue[i])
      ensures (m.tags[i] == m.len ==> m.reserved) && m.tags[i] + 1 in m.saves && m.saves[m.tags[i] + 1].Pending?
    {
      assert m.queue[i] == l.queue[i + 1] && m.tags[i] == l.tags[i + 1];
      if l.queue[0].Data? { assert l.tags[0] + Size(l.queue[i + 1]) <= l.tags[i + 1]; }
    }
  }

  lemma {:induction false} PopKeepsCovered(l: Ledger, m: Ledger, i: nat, k: nat)
    requires Popped(l, m) && 1 <= i <= |l.queue| && LostOrCovered(l, i, k) && k in m.saves
    requires IsSave(l.queue[0]) && l.tags[0] + 1 == k ==>
               m.saves[k].Lost? || (l.saves[k].Pending? && m.saves[k].Saved? && SaysRunning(m.db))
    requires !(IsSave(l.queue[0]) && l.tags[0] + 1 == k) ==> m.saves[k] == l.saves[k]
    requires !RowOp(l.queue[0]) && SaysRunning(l.db) ==> SaysRunning(m.db)
    ensures LostOrCovered(m, i - 1, k)
  {
    if !m.saves[k].Lost? {
      if j :| 0 <= j < i && IsSave(l.queue[j]) && l.tags[j] + 1 == k && NoRows(l.queue, j + 1, i) {
        if j == 0 {
          assert forall q :: 0 <= q < i - 1 ==> m.queue[q] == l.queue[q + 1];
          assert NoRows(m.queue, 0, i - 1);
        } else {
          assert m.queue[j - 1] == l.queue[j] && m.tags[j - 1] == l.tags[j];
          assert forall q :: j <= q < i - 1 ==> m.queue[q] == l.queue[q + 1];
          assert NoRows(m.queue, j, i - 1);
        }
      } else {
        assert !RowOp(l.queue[0]);
        assert forall q :: 0 <= q < i - 1 ==> m.queue[q] == l.queue[q + 1];
        assert NoRows(m.queue, 0, i - 1);
      }
    }
  }

  /** What taking an operation says about the turn it announces. */
  ghost predicate Settles(l: Ledger, m: Ledger, fate: Fate)
    requires l.queue != [] && |l.tags| == |l.queue|
  {
    && m.saves == Settle(l.saves, l.queue[0], l.tags[0], fate)
    && (IsSave(l.queue[0]) ==> fate.Lost? || (fate.Saved? && SaysRunning(m.db)))
    && (!RowOp(l.queue[0]) && SaysRunning(l.db) ==> SaysRunning(m.db))
  }

  lemma {:induction false} PopKeepsLaunch(l: Ledger, m: Ledger, fate: Fate, i: nat)
    requires Popped(l, m) && Shaped(l) && Ordered(l) && Unique(l) && Settles(l, m, fate)
    requires i < |m.queue| && IsLaunch(l.queue[i + 1]) && LostOrCovered(l, i + 1, l.tags[i + 1])
    ensures LostOrCovered(m, i, m.tags[i])
  {
    if l.queue[0].Data? { assert l.tags[0] + Size(l.queue[i + 1]) <= l.tags[i + 1]; }
    PopKeepsCovered(l, m, i + 1, l.tags[i + 1]);
  }

  lemma {:induction false} PopKeepsReserved(l: Ledger, m: Ledger, fate: Fate)
    requires Popped(l, m) && Shaped(l) && Ordered(l) && Unique(l) && Settles(l, m, fate)
    requires LostOrCovered(l, |l.queue|, l.len + 1)
    ensures LostOrCovered(m, |m.queue|, m.len + 1)
  {
    PopKeepsCovered(l, m, |l.queue|, l.len + 1);
  }

  lemma {:induction false} PopKeepsCover(l: Ledger, m: Ledger, fate: Fate)
    requires Popped(l, m) && Shaped(l) && Ordered(l) && Unique(l) && ToBeAnnounced(l) && Settles(l, m, fate)
    ensures ToBeAnnounced(m)
  {
    forall i | 0 <= i < |m.queue| && IsLaunch(m.queue[i]) ensures LostOrCovered(m, i, m.tags[i]) {
      assert m.queue[i] == l.queue[i + 1];
      PopKeepsLaunch(l, m, fate, i);
    }
    if m.reserved { PopKeepsReserved(l, m, fate); }
  }

  lemma {:induction false} PopKeepsEnded(l: Ledger, m: Ledger)
    requires Popped(l, m) && Ended(l)
    requires forall k :: ClosedAt(m.db.table, k) ==>
               ClosedAt(l.db.table, k) && m.db.row == l.db.row
    requires l.db.table == map[] ==> m.db.table == map[]
    ensures Ended(m)
  {
    assert forall i :: 0 <= i < |m.queue| ==> m.queue[i] == l.queue[i + 1];
  }

  // ---------------------------------------------------------------- the writer: one step

  /** What the parts of the invariant say when memory numbers its events. */
  ghost predicate Counted(l: Ledger) { Shaped(l) && Ordered(l) && Unique(l) && ToBeAnnounced(l) }

  lemma {:induction false} LossKeepsCount(l: Ledger)
    requires Counted(l) && l.queue != []
    ensures Counted(Take(l, true))
  {
    var m := Take(l, true);
    PopKeepsOrder(l, m);
    PopKeepsUnique(l, m, Lost);
    PopKeepsCover(l, m, Lost);
  }

  lemma {:induction false} LossKeepsTheRest(l: Ledger)
    requires Shaped(l) && Ordered(l) && Unique(l) && Standing(l) && Announced(l) && Ended(l) && l.queue != []
    ensures var m := Take(l, true); Standing(m) && Announced(m) && Ended(m)
  {
    var m := Take(l, true);
    PopKeepsEnded(l, m);
    var key := Announces(l.queue[0], l.tags[0]);
    if key.Some? {
      assert !TurnAt(l.db.table, key.value);
      NotingKeeps(l, m, key.value, Lost);
    }
  }

  lemma {:induction false} SaveKeepsCount(l: Ledger)
    requires Counted(l) && l.queue != [] && IsSave(l.queue[0])
    ensures Counted(Take(l, false))
  {
    var m := Take(l, false);
    PopKeepsOrder(l, m);
    PopKeepsUnique(l, m, Saved);
    PopKeepsCover(l, m, Saved);
  }

  lemma {:induction false} SaveKeepsTheRest(l: Ledger)
    requires Shaped(l) && Ordered(l) && Standing(l) && Announced(l) && Ended(l) && l.queue != [] && IsSave(l.queue[0])
    ensures var m := Take(l, false); Standing(m) && Announced(m) && Ended(m)
  {
    var m := Take(l, false);
    assert !TurnAt(l.db.table, l.tags[0] + 1);
    PopKeepsEnded(l, m);
  }

  lemma {:induction false} HeadIsNumbered(l: Ledger)
    requires Shaped(l) && Ordered(l) && l.queue != [] && IsAppend(l.queue[0])
    ensures l.tags[0] >= Size(l.queue[0]) && HeadGoesAfter(l, l.tags[0] - Size(l.queue[0]))
  {
    InsertNumbered(l.db.table, l.queue[0].write.batch, l.tags[0]);
  }

  lemma {:induction false} AppendKeepsCount(l: Ledger)
    requires Counted(l) && l.queue != [] && IsAppend(l.queue[0])
    requires RowOp(l.queue[0]) ==> Take(l, false).wrote == Some(l.tags[0])
    requires HeadGoesAfter(l, l.tags[0] - Size(l.queue[0]))
    ensures Counted(Take(l, false))
  {
    var m, n := Take(l, false), l.tags[0] - Size(l.queue[0]);
    assert m.db.table == Extended(l.db.table, n, l.queue[0].write.batch);
    assert RowRuns(l.queue[0]) ==> TurnAt(m.db.table, l.tags[0]);
    PopKeepsOrder(l, m);
    PopKeepsUnique(l, m, Saved);
    PopKeepsCover(l, m, Saved);
  }

  lemma {:induction false} NumberedAppendKeeps(l: Ledger)
    requires Counted(l) && Standing(l) && Announced(l) && Ended(l) && l.queue != [] && IsAppend(l.queue[0])
    ensures var m := Take(l, false); Counted(m) && Standing(m) && Announced(m) && Ended(m)
  {
    HeadIsNumbered(l);
    var n := l.tags[0] - Size(l.queue[0]);
    AppendEnds(l, n);
    if RowOp(l.queue[0]) {
      RowStands(l, n);
      RowAnnounces(l, n);
    } else {
      RowlessStands(l, n);
      RowlessAnnounces(l, n);
    }
    AppendKeepsCount(l);
  }

  lemma {:induction false} MarkIsTaken(l: Ledger)
    requires Shaped(l) && OnlyMarks(l) && Standing(l) && Announced(l) && Ended(l) && l.queue != [] && l.queue[0].Data?
    ensures var m := Take(l, false); Shaped(m) && OnlyMarks(m) && Standing(m) && Announced(m) && Ended(m)
  {
    var m, n := Take(l, false), MaxSeq(l.db.table);
    assert IsMark(l.queue[0]);
    InsertMarks(l.db.table, l.queue[0].write.batch);
    assert HeadGoesAfter(l, n);
    AppendEnds(l, n);
    RowStands(l, n);
    RowAnnounces(l, n);
    assert forall i :: 0 <= i < |m.queue| ==> m.queue[i] == l.queue[i + 1];
  }

  /** Taking an operation that carries no write leaves the run's rows alone or
      removes all of them. */
  lemma {:induction false} PassedOverKeeps(l: Ledger)
    requires LedgerInv(l) && l.queue != [] && (l.queue[0].Barrier? || (l.queue[0].ClearTerminal? && SaysRunning(l.db)))
    ensures LedgerInv(Take(l, false))
  {
    var m := Take(l, false);
    PopKeepsEnded(l, m);
    if l.numbered {
      PopKeepsOrder(l, m);
      PopKeepsUnique(l, m, Saved);
      PopKeepsCover(l, m, Saved);
    } else {
      assert forall i :: 0 <= i < |m.queue| ==> m.queue[i] == l.queue[i + 1];
    }
  }

  lemma {:induction false} ClearedKeeps(l: Ledger)
    requires LedgerInv(l) && l.queue != [] && l.queue[0].ClearTerminal? && !SaysRunning(l.db)
    ensures LedgerInv(Take(l, false))
  {
    var m := Take(l, false);
    PopKeepsEnded(l, m);
    if l.numbered {
      PopKeepsOrder(l, m);
      PopKeepsUnique(l, m, Saved);
      PopKeepsCover(l, m, Saved);
    } else {
      assert forall i :: 0 <= i < |m.queue| ==> m.queue[i] == l.queue[i + 1];
    }
  }

  lemma {:induction false} DeletionKeeps(l: Ledger)
    requires LedgerInv(l) && l.queue != [] && (l.queue[0].DeleteRows? || l.queue[0].DeleteRow?)
    ensures LedgerInv(Take(l, false))
  {
    var m := Take(l, false);
    assert forall i :: 1 <= i < |l.queue| ==> l.queue[i] == m.queue[if l.queue[0].DeleteRow? then i - 1 else i];
    assert NoData(l.queue, 0) && NoData(m.queue, 0) && !l.live;
  }

  /** Every step of the writer keeps the invariant. */
  lemma {:induction false} TakeKeeps(l: Ledger, fails: bool)
    requires LedgerInv(l) && l.queue != []
    ensures LedgerInv(Take(l, fails))
  {
    if fails {
      LossIsTaken(l);
    } else if l.queue[0].Data? {
      DataIsTaken(l);
    } else if l.queue[0].Barrier? || (l.queue[0].ClearTerminal? && SaysRunning(l.db)) {
      PassedOverKeeps(l);
    } else if l.queue[0].ClearTerminal? {
      ClearedKeeps(l);
    } else {
      DeletionKeeps(l);
    }
  }

  lemma {:induction false} LossIsTaken(l: Ledger)
    requires LedgerInv(l) && l.queue != []
    ensures LedgerInv(Take(l, true))
  {
    if l.numbered {
      LossKeepsCount(l);
      LossKeepsTheRest(l);
    } else {
      var m := Take(l, true);
      PopKeepsEnded(l, m);
      assert l.queue[0].Data? ==> IsMark(l.queue[0]);
      assert m.saves == l.saves;
      assert forall i :: 0 <= i < |m.queue| ==> m.queue[i] == l.queue[i + 1];
    }
  }

  lemma {:induction false} DataIsTaken(l: Ledger)
    requires LedgerInv(l) && l.queue != [] && l.queue[0].Data?
    ensures LedgerInv(Take(l, false))
  {
    if !l.numbered {
      MarkIsTaken(l);
    } else if IsSave(l.queue[0]) {
      SaveKeepsCount(l);
      SaveKeepsTheRest(l);
    } else {
      NumberedAppendKeeps(l);
    }
  }

  // ---------------------------------------------------------------- memory

  lemma {:induction false} DriftKeepsCover(l: Ledger, m: Ledger)
    requires Shaped(l) && ToBeAnnounced(l) && m == l.(len := m.len, live := m.live) && (l.reserved ==> m.live && m.len == l.len)
    ensures ToBeAnnounced(m)
  {
    forall i | 0 <= i < |m.queue| && IsLaunch(m.queue[i]) ensures LostOrCovered(m, i, m.tags[i]) {
      CoveredStays(l, m, i, l.tags[i]);
    }
    if m.reserved { CoveredStays(l, m, |l.queue|, l.len + 1); }
  }

  lemma {:induction false} DriftKeepsOrder(l: Ledger, m: Ledger)
    requires Shaped(l) && Ordered(l) && Unique(l) && m == l.(len := m.len, live := m.live) && m.len >= l.len
    ensures Shaped(m) && Ordered(m) && Unique(m)
  {
  }

  /** Memory changed without a write: a section found that it no longer owns the
      turn, or the run was dropped, with its sentinel in memory only. */
  lemma {:induction false} DriftKeeps(l: Ledger, m: Ledger)
    requires LedgerInv(l) && m == l.(len := m.len, reserved := m.reserved, live := m.live)
    requires m.live ==> l.live
    requires l.numbered ==> m.len >= l.len && m.reserved == l.reserved && (l.reserved ==> m.live && m.len == l.len)
    ensures LedgerInv(m)
  {
    if l.numbered {
      DriftKeepsOrder(l, m);
      DriftKeepsCover(l, m);
    }
  }

  /** A log read back with nothing of the run queued: memory numbers on from it. */
  lemma {:induction false} AdoptKeeps(l: Ledger, m: Ledger, log: seq<RunEvent>)
    requires LedgerInv(l) && !l.numbered && NoData(l.queue, 0) && Holds(l.db.table, log)
    requires m == l.(numbered := true, len := |log|, reserved := false)
    ensures LedgerInv(m)
  {
  }

  /** Dropped by a clear, in one transaction with the rows of every other run
      that is over. */
  lemma {:induction false} DropKeeps(l: Ledger, d: DurableRun, len: nat)
    requires LedgerInv(l) && l.queue == [] && (d == l.db || d == DurableRun(None, map[])) && len >= l.len && !l.reserved
    ensures LedgerInv((if d == l.db then l else Emptied(l, d)).(len := len, live := false))
  {
  }

  lemma {:induction false} ReopenKeeps(l: Ledger, repair: seq<Op>, live: bool)
    requires LedgerInv(l) && |repair| <= 1
    requires forall i :: 0 <= i < |repair| ==> repair[i].Data? && IsMark(repair[i]) && WriteShape(repair[i].write) && !Seals(repair[i])
    requires l.db.row.Some? && (live <==> !l.db.row.value.status.Stale?) && (repair != [] ==> live)
    ensures LedgerInv(Reopened(l, repair, live))
  {
  }

  lemma {:induction false} OpeningHolds(attached: bool, accepted: bool, row: Row)
    requires row.status.Running?
    ensures LedgerInv(Opening(attached, accepted, row))
  {
    var empty := Ledger(DurableRun(None, map[]), [], [], map[], None, false, 0, attached, false, true);
    assert LedgerInv(empty);
    if attached { ReserveKeeps(empty, row, accepted); }
  }

  /** A new run is reserved, its first row offered, if there is a store. */
  function Opening(attached: bool, accepted: bool, row: Row): Ledger {
    var empty := Ledger(DurableRun(None, map[]), [], [], map[], None, false, 0, attached, false, true);
    if attached then Reserve(empty, row, accepted) else empty
  }

  // ---------------------------------------------------------------- all together

  /** Everything that happens to a ledger. */
  datatype Action =
    | Reserving(saved: Row, accepted: bool)
    | Appending(events: seq<StreamEvent>, row: Option<Row>, accepted: bool, live: bool)
    | Marking(op: Op, live: bool)
    | Pushing(op: Op)
    | Taking(fails: bool)
    | Drifting(len: nat, waiting: bool, live: bool)
    | Adopting(log: seq<RunEvent>)
    | Evicting(len: nat, accepted: bool)
    | Clearing(d: DurableRun, len: nat)
    | Reopening(repair: seq<Op>, live: bool)

  ghost predicate Can(l: Ledger, a: Action) {
    match a
    case Reserving(row, _) => l.numbered && l.live && !l.reserved && row.status.Running?
    case Appending(events, row, _, live) => l.numbered && l.live && Section(events, row, l.reserved, live)
    case Marking(op, live) => !l.numbered && l.live && op.Data? && IsMark(op) && WriteShape(op.write) && (Seals(op) ==> !live)
    case Pushing(op) => op.Barrier? || op.ClearTerminal?
    case Taking(_) => l.queue != [] && |l.tags| == |l.queue|
    case Drifting(len, waiting, live) =>
      && (live ==> l.live)
      && (l.numbered ==> len >= l.len && waiting == l.reserved && (l.reserved ==> live && len == l.len))
    case Adopting(log) => !l.numbered && NoData(l.queue, 0) && Holds(l.db.table, log)
    case Evicting(len, _) => len >= l.len && !l.reserved
    case Clearing(d, len) => l.queue == [] && (d == l.db || d == DurableRun(None, map[])) && len >= l.len && !l.reserved
    case Reopening(repair, live) =>
      && |repair| <= 1
      && (forall i :: 0 <= i < |repair| ==>
            repair[i].Data? && IsMark(repair[i]) && WriteShape(repair[i].write) && !Seals(repair[i]))
      && l.db.row.Some? && (live <==> !l.db.row.value.status.Stale?) && (repair != [] ==> live)
  }

  ghost function Do(l: Ledger, a: Action): Ledger
    requires Can(l, a)
  {
    match a
    case Reserving(row, accepted) => Reserve(l, row, accepted)
    case Appending(events, row, accepted, live) => Append(l, events, row, accepted, live)
    case Marking(op, live) => Mark(l, op, live)
    case Pushing(op) => Push(l, op)
    case Taking(fails) => Take(l, fails)
    case Drifting(len, waiting, live) => l.(len := len, reserved := waiting, live := live)
    case Adopting(log) => l.(numbered := true, len := |log|, reserved := false)
    case Evicting(len, accepted) =>
      var gone := l.(len := len, live := false);
      if accepted then Push(gone, DeleteRows) else gone
    case Clearing(d, len) => (if d == l.db then l else Emptied(l, d)).(len := len, live := false)
    case Reopening(repair, live) => Reopened(l, repair, live)
  }

  lemma {:induction false} EvictionKeeps(l: Ledger, len: nat, accepted: bool)
    requires LedgerInv(l) && len >= l.len && !l.reserved
    ensures LedgerInv(Do(l, Evicting(len, accepted)))
  {
    var gone := l.(len := len, live := false);
    DriftKeeps(l, gone);
    if accepted { PushKeeps(gone, DeleteRows); }
  }

  /** Whatever happens to a ledger keeps its invariant. */
  lemma {:induction false} ActionKeeps(l: Ledger, a: Action)
    requires LedgerInv(l) && Can(l, a)
    ensures LedgerInv(Do(l, a))
  {
    match a
    case Reserving(row, accepted) => ReserveKeeps(l, row, accepted);
    case Appending(events, row, accepted, live) => AppendKeeps(l, events, row, accepted, live);
    case Marking(op, live) => MarkKeeps(l, op, live);
    case Pushing(op) => PushKeeps(l, op);
    case Taking(fails) => TakeKeeps(l, fails);
    case Drifting(len, waiting, live) => DriftKeeps(l, l.(len := len, reserved := waiting, live := live));
    case Adopting(log) => AdoptKeeps(l, l.(numbered := true, len := |log|, reserved := false), log);
    case Evicting(len, accepted) => EvictionKeeps(l, len, accepted);
    case Clearing(d, len) => DropKeeps(l, d, len);
    case Reopening(repair, live) => ReopenKeeps(l, repair, live);
  }

  /** One action leads from the one ledger to the other. */
  ghost predicate Follows(l: Ledger, m: Ledger) {
    l == m || exists a :: Can(l, a) && m == Do(l, a)
  }

  lemma {:induction false} FollowingKeeps(l: Ledger, m: Ledger)
    requires LedgerInv(l) && Follows(l, m)
    ensures LedgerInv(m)
  {
    if l != m {
      var a :| Can(l, a) && m == Do(l, a);
      ActionKeeps(l, a);
    }
  }

  lemma {:induction false} ActionFollows(l: Ledger, a: Action)
    requires Can(l, a)
    ensures Follows(l, Do(l, a))
  {
  }
}
