/** The inductive invariant of one investigation, and what it means. */
module RunSafety {
  import opened Wrappers
  import opened RunEvents
  import opened RunSpec
  import opened DurableLog
  import opened RunProtocol
  import opened RunMemory
  import opened RunGrammar
  import opened RunDurability

  // ---------------------------------------------------------------- hydration

  ghost predicate OnlyBarriers(queue: seq<Op>) {
    forall i :: 0 <= i < |queue| ==> queue[i].Barrier?
  }

  /** An append that leaves the sequence numbers to the store. */
  ghost predicate Unnumbered(op: Op) {
    op.Data? && op.write.AppendRows? && forall e :: e in op.write.batch ==> e.num == 0
  }

  ghost predicate OnlyAppends(queue: seq<Op>) {
    forall i :: 0 <= i < |queue| ==> queue[i].Barrier? || Unnumbered(queue[i])
  }

  predicate PastItsBarrier(load: Load) { !load.Waiting? && load.drained }

  /** Reads in flight for a run whose log is still only in the store. */
  ghost predicate LoadInv(s: System) {
    && (!s.clearing.NotClearing? ==> s.mem.hydrated)
    && (!s.mem.hydrated && s.mem.attached ==>
          && OnlyAppends(s.queue)
          && (s.mem.live && s.queue != [] ==> OnlyBarriers(s.queue[1..]))
          && (forall t :: t in s.loads && PastItsBarrier(s.loads[t]) ==> LoadIsCurrent(s, s.loads[t])))
  }

  /** What a read that went through its barrier may still rely on. */
  ghost predicate LoadIsCurrent(s: System, load: Load)
    requires PastItsBarrier(load)
  {
    && (s.mem.live ==> OnlyBarriers(s.queue))
    && (s.mem.live && load.Fetched? && load.log.Some? ==> LogOf(s.db.table) == load.log)
    && (s.intact && load.Fetched? && load.log.Some? ==>
          LogOf(Drain(s.db, s.queue).table).Some? && load.log.value <= LogOf(Drain(s.db, s.queue).table).value)
  }

  lemma {:induction false} BarriersChangeNothing(d: DurableRun, queue: seq<Op>)
    requires OnlyBarriers(queue)
    ensures Drain(d, queue) == d
    decreases |queue|
  {
    if queue != [] { BarriersChangeNothing(d, queue[1..]); }
  }

  /** Draining appends extends the log that could be read before. */
  lemma {:induction false} AppendsExtend(d: DurableRun, queue: seq<Op>)
    requires OnlyAppends(queue) && LogOf(d.table).Some?
    ensures LogOf(Drain(d, queue).table).Some? && LogOf(d.table).value <= LogOf(Drain(d, queue).table).value
    decreases |queue|
  {
    if queue != [] {
      var op := queue[0];
      if op.Data? {
        var batch := op.write.batch;
        var events := seq(|batch|, i requires 0 <= i < |batch| => batch[i].event);
        forall i | 0 <= i < |batch| ensures batch[i] == RunEvent(0, events[i]) {
          assert batch[i] in batch;
        }
        TableAfterAppend(d.table, LogOf(d.table).value, events, batch, false);
      }
      AppendsExtend(ApplyOp(d, op), queue[1..]);
    }
  }

  // ---------------------------------------------------------------- lost writes

  ghost predicate Listed(batch: seq<RunEvent>, log: seq<RunEvent>) {
    forall e :: e in batch ==> 1 <= e.num <= |log| && log[e.num - 1].event == e.event
  }

  /** Whatever subset of the queue is applied, the table only repeats the log. */
  ghost predicate WithinInv(s: System) {
    s.exact && s.mem.attached && s.mem.hydrated ==>
      && Within(s.db.table, s.mem.events)
      && forall i :: 0 <= i < |s.queue| && s.queue[i].Data? && s.queue[i].write.AppendRows? ==>
           Listed(s.queue[i].write.batch, s.mem.events)
  }

  ghost predicate Inv(s: System) {
    MemoryInv(s) && GrammarInv(s) && DurableInv(s) && LoadInv(s) && WithinInv(s)
  }

  // ---------------------------------------------------------------- the log is kept: turns

  lemma {:induction false} LaunchStepStays(s: System, apply: bool, verify: bool, explain: nat, accepted: bool)
    requires MemoryInv(s) && GrammarInv(s) && DurableInv(s) && Enabled(s, LaunchTurn(apply, verify, explain, accepted))
    ensures var s' := Next(s, LaunchTurn(apply, verify, explain, accepted)); GrammarInv(s') && DurableInv(s')
  {
    var turn := Turn(apply, verify, explain);
    LaunchKeeps(s.mem, s.registered, turn);
    if s.sound { LaunchStays(s.mem, s.registered, turn); }
    LaunchIsFaithful(s.mem, s.registered, turn);
    CommitStaysDurable(s, Launch(s.mem, turn), if Owns(s.mem) then Diagnosing(apply) else Idle, accepted);
  }

  lemma {:induction false} StreamStepStays(s: System, event: StreamEvent, accepted: bool)
    requires MemoryInv(s) && GrammarInv(s) && DurableInv(s) && Enabled(s, AgentEvent(event, accepted))
    ensures var s' := Next(s, AgentEvent(event, accepted)); GrammarInv(s') && DurableInv(s')
  {
    StreamKeeps(s.mem, s.registered, s.phase, event);
    if s.sound { StreamStays(s.mem, s.registered, s.phase, event); }
    StreamIsFaithful(s.mem, s.registered, s.phase, event);
    CommitStaysDurable(s, Stream(s.mem, event), s.phase, accepted);
  }

  lemma {:induction false} FinishStepStays(s: System, result: TurnResult, accepted: bool)
    requires MemoryInv(s) && GrammarInv(s) && DurableInv(s) && Enabled(s, FinishRead(result, accepted))
    ensures var s' := Next(s, FinishRead(result, accepted)); GrammarInv(s') && DurableInv(s')
  {
    FinishTurnKeeps(s.mem, s.registered, result);
    if s.sound { FinishTurnStays(s.mem, s.registered, result); }
    FinishTurnIsFaithful(s.mem, s.registered, result);
    CommitStaysDurable(s, FinishTurn(s.mem, result, false), Idle, accepted);
  }

  lemma {:induction false} BeginStepStays(s: System, accepted: bool)
    requires MemoryInv(s) && GrammarInv(s) && DurableInv(s) && Enabled(s, BeginTurn(accepted))
    ensures GrammarInv(Next(s, BeginTurn(accepted))) && DurableInv(Next(s, BeginTurn(accepted)))
  {
    CommitStaysDurable(s, Begin(s.mem, true).value, Reserved, accepted);
  }

  lemma {:induction false} VerifyStepStays(s: System, failed: bool, outcome: Outcome, accepted: bool)
    requires MemoryInv(s) && GrammarInv(s) && DurableInv(s)
    requires Enabled(s, FinishWrite(failed, outcome, true, accepted)) && !outcome.Failed?
    ensures var s' := Next(s, FinishWrite(failed, outcome, true, accepted)); GrammarInv(s') && DurableInv(s')
  {
    var terminal := ApplyTerminal(failed, outcome, true);
    FinishApplyAndVerifyKeeps(s.mem, s.registered, terminal);
    if s.sound { FinishWriteStays(s.mem, s.registered, failed, outcome, true); }
    FinishWriteIsFaithful(s.mem, s.registered, failed, outcome, true);
    CommitStaysDurable(s, FinishApplyAndVerify(s.mem, terminal), if Owns(s.mem) then Diagnosing(false) else Idle, accepted);
  }

  lemma {:induction false} CloseApplyStepStays(s: System, failed: bool, outcome: Outcome, sameContext: bool, accepted: bool)
    requires MemoryInv(s) && GrammarInv(s) && DurableInv(s)
    requires Enabled(s, FinishWrite(failed, outcome, sameContext, accepted)) && !AfterApply(failed, outcome, sameContext).0
    ensures var s' := Next(s, FinishWrite(failed, outcome, sameContext, accepted)); GrammarInv(s') && DurableInv(s')
  {
    var terminal := AfterApply(failed, outcome, sameContext).1;
    FinishApplyKeeps(s.mem, s.registered, terminal);
    if s.sound { FinishWriteStays(s.mem, s.registered, failed, outcome, sameContext); }
    FinishWriteIsFaithful(s.mem, s.registered, failed, outcome, sameContext);
    CommitStaysDurable(s, FinishApply(s.mem, terminal), Idle, accepted);
  }

  lemma {:induction false} StopStepStays(s: System, accepted: bool)
    requires MemoryInv(s) && GrammarInv(s) && DurableInv(s) && Enabled(s, StopRun(accepted))
    ensures GrammarInv(Next(s, StopRun(accepted))) && DurableInv(Next(s, StopRun(accepted)))
  {
    InterruptKeeps(s.mem, s.registered, s.phase);
    if s.sound { InterruptStays(s.mem, s.registered, s.phase); }
    InterruptIsFaithful(s.mem, s.registered, s.phase);
    CommitStaysDurable(s, Interrupt(s.mem), s.phase, accepted);
  }

  lemma {:induction false} ContextStepStays(s: System, accepted: bool)
    requires MemoryInv(s) && GrammarInv(s) && DurableInv(s) && Enabled(s, ContextSwitch(accepted))
    ensures GrammarInv(Next(s, ContextSwitch(accepted))) && DurableInv(Next(s, ContextSwitch(accepted)))
  {
    MarkStaleKeeps(s.mem, s.registered, s.phase);
    if s.sound { MarkStaleStays(s.mem, s.registered, s.phase); }
    MarkStaleIsFaithful(s.mem, s.registered, s.phase);
    CommitStaysDurable(s, MarkStale(s.mem), s.phase, accepted);
  }

  lemma {:induction false} EmptyIsRecoverable()
    ensures Recoverable(DurableRun(None, map[]))
  {
    HeldLogIsRead(map[], []);
  }

  lemma {:induction false} EvictStepStays(s: System, accepted: bool)
    requires MemoryInv(s) && GrammarInv(s) && DurableInv(s) && Enabled(s, Evict(accepted))
    ensures GrammarInv(Next(s, Evict(accepted))) && DurableInv(Next(s, Evict(accepted)))
  {
    DropKeeps(s.mem, s.phase);
    if s.sound { DropStays(s.mem, s.registered, s.phase); }
    if accepted {
      EmptyIsRecoverable();
      DrainOne(s.db, s.queue, DeleteRows);
      if s.intact { CutsOne(s.db, s.queue, DeleteRows); }
    } else {
      assert s.queue + [] == s.queue;
    }
  }

  lemma {:induction false} ClearDropStays(s: System)
    requires MemoryInv(s) && GrammarInv(s) && DurableInv(s) && Enabled(s, ClearDrop)
    ensures GrammarInv(Next(s, ClearDrop)) && DurableInv(Next(s, ClearDrop))
  {
    DropKeeps(s.mem, s.phase);
    if s.sound { DropStays(s.mem, s.registered, s.phase); }
    if s.intact && s.mem.attached {
      EmptyIsRecoverable();
      assert RecoverableCuts(DurableRun(None, map[]), []);
      assert Drain(s.db, s.queue) == s.db;
    }
  }

  // ---------------------------------------------------------------- the log is kept: the store

  lemma {:induction false} PoppedStaysDurable(d: DurableRun, queue: seq<Op>)
    requires queue != [] && RecoverableCuts(d, queue)
    ensures RecoverableCuts(ApplyOp(d, queue[0]), queue[1..])
    ensures Drain(ApplyOp(d, queue[0]), queue[1..]) == Drain(d, queue)
  {
  }

  /** A crash between the two statements of a deletion finds no event rows. */
  lemma {:induction false} HalfDeletionStaysDurable(d: DurableRun, rest: seq<Op>)
    requires RecoverableCuts(d, [DeleteRows] + rest)
    ensures RecoverableCuts(d.(table := map[]), [DeleteRow] + rest)
    ensures Drain(d.(table := map[]), [DeleteRow] + rest) == Drain(d, [DeleteRows] + rest)
  {
    assert ([DeleteRows] + rest)[1..] == rest && ([DeleteRow] + rest)[1..] == rest;
    HeldLogIsRead(map[], []);
  }

  lemma {:induction false} WriterKeepsTheDatabase(s: System)
    requires s.queue != [] && RecoverableCuts(s.db, s.queue)
    ensures var s' := Written(s, false);
            RecoverableCuts(s'.db, s'.queue) && Drain(s'.db, s'.queue) == Drain(s.db, s.queue)
  {
    WrittenDatabase(s);
    if s.queue[0].DeleteRows? {
      assert s.queue == [DeleteRows] + s.queue[1..];
      HalfDeletionStaysDurable(s.db, s.queue[1..]);
    } else {
      PoppedStaysDurable(s.db, s.queue);
    }
  }

  lemma {:induction false} WriterStepStays(s: System, fails: bool)
    requires DurableInv(s) && s.queue != []
    ensures DurableInv(Written(s, fails))
  {
    if Written(s, fails).intact {
      assert !fails;
      WriterKeepsTheDatabase(s);
    }
  }

  lemma {:induction false} ClearRequestStays(s: System)
    requires DurableInv(s) && GrammarInv(s) && s.mem.ChannelsOpen() && Enabled(s, ClearRequest)
    ensures DurableInv(Next(s, ClearRequest)) && GrammarInv(Next(s, ClearRequest))
  {
    if Next(s, ClearRequest).intact && !s.closed {
      DrainOne(s.db, s.queue, ClearTerminal);
      DrainedIsRecoverable(s.db, s.queue);
      CutsOne(s.db, s.queue, ClearTerminal);
    }
  }

  lemma {:induction false} LoadBeginStays(s: System, token: nat)
    requires DurableInv(s) && GrammarInv(s) && s.mem.ChannelsOpen() && Enabled(s, LoadBegin(token))
    ensures DurableInv(Next(s, LoadBegin(token))) && GrammarInv(Next(s, LoadBegin(token)))
  {
    if s.intact && !s.closed {
      DrainOne(s.db, s.queue, Barrier(token));
      DrainedIsRecoverable(s.db, s.queue);
      CutsOne(s.db, s.queue, Barrier(token));
    }
  }

  /** A restart repairs an interrupted run: the marker closes the open turn. */
  lemma {:induction false} RepairClosesTheTurn(log: seq<RunEvent>, read: Option<seq<RunEvent>>)
    requires WellFormed(log) && !Mode(log).Sealed? && (read.Some? ==> read.value == log)
    ensures Mode(log + Number(|log|, [RestartMarker(read)])).Quiet?
  {
    ScanFindsTheOpenApply(log);
    OneMoreAdvances(log, RestartMarker(read));
  }

  /** The one write of a repair leaves a recoverable run, and so does its loss. */
  lemma {:induction false} RepairIsRecoverable(d: DurableRun, read: Option<seq<RunEvent>>, row: Row)
    requires Recoverable(d) && d.row.Some? && d.row.value.status.Running?
    requires read.Some? ==> read == LogOf(d.table)
    ensures var w := AppendRows([RunEvent(0, RestartMarker(read))], Some(row));
            var d' := Drain(d, [Data(w)]);
            d' == ApplyWrite(d, w) && d'.row == Some(row) &&
            LogOf(d'.table).Some? && Mode(LogOf(d'.table).value).Quiet?
  {
    var log := LogOf(d.table).value;
    var marker := RestartMarker(read);
    var w := AppendRows([RunEvent(0, marker)], Some(row));
    TableAfterAppend(d.table, log, [marker], w.batch, false);
    RepairClosesTheTurn(log, read);
    assert Drain(ApplyWrite(d, w), []) == ApplyWrite(d, w);
  }

  lemma {:induction false} RestartStays(s: System, readable: bool, dropSession: bool, accepted: bool)
    requires DurableInv(s) && s.db.row.Some?
    ensures var s' := Restarted(s, readable, dropSession, accepted); DurableInv(s') && GrammarInv(s')
  {
    var s' := Restarted(s, readable, dropSession, accepted);
    if s'.intact && s.db.row.value.status.Running? {
      var read := if readable then LogOf(s.db.table) else None;
      var w := AppendRows([RunEvent(0, RestartMarker(read))], Some(s'.mem.Summary()));
      assert s'.queue == [Data(w)];
      RepairIsRecoverable(s.db, read, s'.mem.Summary());
      assert RecoverableCuts(ApplyWrite(s.db, w), []);
    }
  }

  // ---------------------------------------------------------------- the log is kept: installing

  lemma {:induction false} InstallIsExact(s: System, load: Load)
    requires Inv(s) && s.intact && load.Fetched? && load.log.Some? && load.drained
    requires !s.mem.hydrated && s.mem.attached && LoadIsCurrent(s, load)
    requires s.mem.live || (load.log.value != [] && load.log.value[|load.log.value| - 1].event.Closed?)
    ensures LogOf(Drain(s.db, s.queue).table) == load.log
    ensures s.mem.live ==> Mode(load.log.value).Quiet?
    ensures !s.mem.live ==> Mode(load.log.value).Sealed?
  {
    if s.mem.live {
      BarriersChangeNothing(s.db, s.queue);
    } else {
      DrainedIsRecoverable(s.db, s.queue);
      var full, log := LogOf(Drain(s.db, s.queue).table).value, load.log.value;
      assert full[|log| - 1] == log[|log| - 1];
      ClosedOnlyAtTheEnd(full, |log| - 1);
      assert log == full[..|log|] == full;
    }
  }

  lemma {:induction false} InstalledStays(s: System, load: Load)
    requires Inv(s) && load.Fetched?
    requires !s.mem.hydrated && s.mem.attached && load.drained ==> LoadIsCurrent(s, load)
    ensures DurableInv(Installed(s, load)) && GrammarInv(Installed(s, load))
  {
    if load.log.Some? && Install(s.mem, load.log.value) != s.mem && s.intact && load.drained {
      InstallIsExact(s, load);
    }
  }
}
