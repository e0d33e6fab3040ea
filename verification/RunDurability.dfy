/** The write queue and the database behind a run. */
module RunDurability {
  import opened Wrappers
  import opened RunEvents
  import opened RunSpec
  import opened DurableLog
  import opened RunProtocol
  import opened RunMemory
  import opened RunGrammar

  /** A database a restart can repair: a contiguous log inside the grammar,
      whose open turn, if any, is announced by a running status. */
  ghost predicate Recoverable(d: DurableRun) {
    && LogOf(d.table).Some?
    && var log := LogOf(d.table).value;
       && WellFormed(log)
       && (Mode(log).Open? ==> d.row.Some? && d.row.value.status.Running?)
       && (Mode(log).Sealed? ==> d.row.Some? && d.row.value.status.Stale?)
       && (d.row.None? ==> log == [])
  }

  /** Recoverable at every point at which a crash may cut the queue. */
  ghost predicate RecoverableCuts(d: DurableRun, queue: seq<Op>)
    decreases |queue|
  {
    Recoverable(d) && (queue != [] ==> RecoverableCuts(ApplyOp(d, queue[0]), queue[1..]))
  }

  lemma {:induction false} DrainOne(d: DurableRun, queue: seq<Op>, op: Op)
    ensures Drain(d, queue + [op]) == ApplyOp(Drain(d, queue), op)
    decreases |queue|
  {
    if queue == [] {
      assert Drain(ApplyOp(d, op), []) == ApplyOp(d, op);
      assert (queue + [op])[1..] == [];
    } else {
      assert (queue + [op])[1..] == queue[1..] + [op];
      DrainOne(ApplyOp(d, queue[0]), queue[1..], op);
    }
  }

  lemma {:induction false} CutsOne(d: DurableRun, queue: seq<Op>, op: Op)
    requires RecoverableCuts(d, queue) && Recoverable(Drain(d, queue + [op]))
    ensures RecoverableCuts(d, queue + [op])
    decreases |queue|
  {
    if queue == [] {
      assert (queue + [op])[1..] == [];
      assert Drain(d, queue + [op]) == Drain(ApplyOp(d, op), []) == ApplyOp(d, op);
    } else {
      assert (queue + [op])[1..] == queue[1..] + [op];
      CutsOne(ApplyOp(d, queue[0]), queue[1..], op);
    }
  }

  lemma {:induction false} DrainedIsRecoverable(d: DurableRun, queue: seq<Op>)
    requires RecoverableCuts(d, queue)
    ensures Recoverable(Drain(d, queue))
    decreases |queue|
  {
    if queue != [] {
      DrainedIsRecoverable(ApplyOp(d, queue[0]), queue[1..]);
    }
  }

  /** Once drained, the database says what memory says. */
  ghost predicate Agrees(s: System) {
    s.mem.attached ==>
      var final := Drain(s.db, s.queue);
      && final.row.Some? && final.row.value.status == s.mem.status
      && LogOf(final.table).Some?
      && (s.mem.hydrated ==> LogOf(final.table).value == s.mem.events)
      && (!s.mem.hydrated && s.mem.live ==> Mode(LogOf(final.table).value).Quiet?)
  }

  ghost predicate DurableInv(s: System) {
    s.intact ==> s.sound && RecoverableCuts(s.db, s.queue) && Agrees(s)
  }

  ghost predicate GrammarInv(s: System) { s.sound ==> InGrammar(s.mem, s.phase) }

  // ---------------------------------------------------------------- writes

  /** The write a section enqueues, and how it relates memory before and after. */
  ghost predicate Mirrors(before: RunState, w: Write, after: RunState) {
    match w
    case SaveRow(row) => before.hydrated && row.status == after.status && after.events == before.events && after.hydrated == before.hydrated
    case AppendRows(batch, summary) =>
      && (if summary.Some? then summary.value.status == after.status else before.status == after.status)
      && after.hydrated == before.hydrated
      && exists events: seq<StreamEvent> :: MirrorsLog(before, batch, events, after)
  }

  ghost predicate MirrorsLog(before: RunState, batch: seq<RunEvent>, events: seq<StreamEvent>, after: RunState) {
    if before.hydrated
    then Carries(batch, events, |before.events|, true) && after.events == before.events + Number(|before.events|, events)
    else Carries(batch, events, 0, false) && !after.live && |events| == 2 &&
         events[0].Error? && !events[0].scheduled && events[1].Closed?
  }

  /** A log in memory that is inside the grammar makes a recoverable database. */
  lemma {:induction false} MemoryIsRecoverable(d: DurableRun, r: RunState, phase: Phase)
    requires LogOf(d.table) == Some(r.events) && d.row.Some? && d.row.value.status == r.status
    requires r.hydrated && r.attached && Coherent(r, phase, true) && InGrammar(r, phase)
    ensures Recoverable(d)
  {
  }

  lemma {:induction false} TableAfterAppend(table: Table, log: seq<RunEvent>, events: seq<StreamEvent>, batch: seq<RunEvent>, numbered: bool)
    requires LogOf(table) == Some(log)
    requires Carries(batch, events, if numbered then |log| else 0, numbered)
    ensures LogOf(InsertBatch(table, batch)) == Some(log + Number(|log|, events))
  {
    ReadLogIsHeld(table);
    if !numbered {
      assert forall i :: 0 <= i < |batch| ==> batch[i] == RunEvent(0, events[i]);
    }
    BatchExtends(table, log, events, batch, numbered);
    HeldLogIsRead(InsertBatch(table, batch), log + Number(|log|, events));
  }

  /** One mirrored write keeps the drained database recoverable and in agreement. */
  lemma {:induction false} MirroredWriteDrains(d: DurableRun, before: RunState, w: Write, after: RunState, phase: Phase)
    requires LogOf(d.table).Some? && d.row.Some? && d.row.value.status == before.status
    requires before.hydrated ==> LogOf(d.table).value == before.events
    requires !before.hydrated ==> Mode(LogOf(d.table).value).Quiet?
    requires Mirrors(before, w, after)
    requires after.attached && Coherent(after, phase, true) && InGrammar(after, phase)
    requires !after.hydrated ==> after.status.Stale?
    ensures var d' := ApplyWrite(d, w);
            Recoverable(d') && d'.row.Some? && d'.row.value.status == after.status &&
            (after.hydrated ==> LogOf(d'.table).value == after.events)
  {
    var d' := ApplyWrite(d, w);
    var log := LogOf(d.table).value;
    if w.SaveRow? {
      MemoryIsRecoverable(d', after, phase);
    } else {
      var events :| MirrorsLog(before, w.batch, events, after);
      TableAfterAppend(d.table, log, events, w.batch, before.hydrated);
      if before.hydrated {
        MemoryIsRecoverable(d', after, phase);
      } else {
        assert events == [events[0], events[1]];
        TwoMoreAdvance(log, events[0], events[1]);
      }
    }
  }

  /** A section's effect: nothing of consequence, or one mirrored write. */
  ghost predicate Faithful(before: RunState, e: Effect) {
    if e.writes == []
    then !before.attached ||
         (e.run.status == before.status && e.run.events == before.events &&
          e.run.hydrated == before.hydrated && e.run.live == before.live)
    else |e.writes| == 1 && before.live && Mirrors(before, e.writes[0], e.run) &&
         (!e.run.hydrated ==> e.run.status.Stale?)
  }

  lemma {:induction false} CommitStaysDurable(s: System, e: Effect, phase: Phase, accepted: bool)
    requires MemoryInv(s) && DurableInv(s)
    requires Faithful(s.mem, e) && e.run.attached == s.mem.attached && (!s.mem.attached ==> e.writes == [])
    requires RunInv(e.run, phase, s.registered) && (s.sound ==> InGrammar(e.run, phase))
    ensures DurableInv(Commit(s, e, phase, accepted))
  {
    var s' := Commit(s, e, phase, accepted);
    if s'.intact {
      if e.writes == [] {
        assert s'.queue == s.queue;
      } else {
        var op := Data(e.writes[0]);
        assert s'.queue == s.queue + [op];
        DrainOne(s.db, s.queue, op);
        DrainedIsRecoverable(s.db, s.queue);
        MirroredWriteDrains(Drain(s.db, s.queue), s.mem, e.writes[0], e.run, phase);
        CutsOne(s.db, s.queue, op);
      }
    }
  }

  // ---------------------------------------------------------------- each section is faithful

  lemma {:induction false} AppendIsFaithful(before: RunState, changed: RunState, events: seq<StreamEvent>, persistRow: bool)
    requires before.hydrated && before.attached && before.live && events != []
    requires changed.ChannelsOpen()
    requires changed == before.(status := changed.status, session := changed.session)
    requires !persistRow ==> changed.status == before.status
    ensures var e := AppendEvents(changed, events, persistRow);
            |e.writes| == 1 && Mirrors(before, e.writes[0], e.run)
  {
    var e := AppendEvents(changed, events, persistRow);
    assert MirrorsLog(before, e.writes[0].batch, events, e.run);
  }

  /** Only the log and the status matter to the database. */
  lemma {:induction false} HydratedMirrors(before: RunState, w: Write, a: RunState, b: RunState)
    requires before.hydrated && Mirrors(before, w, a)
    requires a.status == b.status && a.events == b.events && a.hydrated == b.hydrated
    ensures Mirrors(before, w, b)
  {
    if w.AppendRows? {
      var events :| MirrorsLog(before, w.batch, events, a);
      assert MirrorsLog(before, w.batch, events, b);
    }
  }

  lemma {:induction false} LaunchIsFaithful(r: RunState, registered: bool, turn: StreamEvent)
    requires RunInv(r, Reserved, registered) && turn.Turn?
    ensures Faithful(r, Launch(r, turn))
  {
    if Owns(r) && r.attached { AppendIsFaithful(r, r, [turn], false); }
  }

  lemma {:induction false} StreamIsFaithful(r: RunState, registered: bool, phase: Phase, event: StreamEvent)
    requires RunInv(r, phase, registered) && event.Progress()
    ensures Faithful(r, Stream(r, event))
  {
    if Owns(r) && r.attached { AppendIsFaithful(r, r, [event], false); }
  }

  lemma {:induction false} FinishTurnIsFaithful(r: RunState, registered: bool, result: TurnResult)
    requires RunInv(r, Diagnosing(false), registered)
    ensures Faithful(r, FinishTurn(r, result, false))
  {
    if Owns(r) && r.attached {
      var session := if result.session.Some? then result.session else r.session;
      var changed := if result.failed then r.(status := Errored) else r.(status := Finished, session := session);
      var terminal := if result.failed then Error(NoOutcome, false) else Done(NoOutcome, false);
      AppendIsFaithful(r, changed, [terminal], true);
      var e := AppendOne(changed, terminal);
      HydratedMirrors(r, e.writes[0], e.run, FinishTurn(r, result, false).run);
    }
  }

  lemma {:induction false} FinishWriteIsFaithful(r: RunState, registered: bool, failed: bool, outcome: Outcome, sameContext: bool)
    requires RunInv(r, Diagnosing(true), registered)
    ensures var (verify, terminal) := AfterApply(failed, outcome, sameContext);
            Faithful(r, if verify then FinishApplyAndVerify(r, terminal) else FinishApply(r, terminal))
  {
    var (verify, terminal) := AfterApply(failed, outcome, sameContext);
    if Owns(r) && r.attached {
      if verify {
        AppendIsFaithful(r, r, [terminal, Turn(false, true, 0)], true);
      } else {
        AppendIsFaithful(r, r.(status := Errored), [terminal], true);
        var e := AppendOne(r.(status := Errored), terminal);
        HydratedMirrors(r, e.writes[0], e.run, FinishApply(r, terminal).run);
      }
    }
  }

  lemma {:induction false} InterruptIsFaithful(r: RunState, registered: bool, phase: Phase)
    requires RunInv(r, phase, registered)
    ensures Faithful(r, Interrupt(r))
  {
    if Owns(r) && r.attached {
      AppendIsFaithful(r, r.(status := Stopped), [Error(InterruptionOutcome(r), false)], true);
    }
  }

  lemma {:induction false} MarkStaleIsFaithful(r: RunState, registered: bool, phase: Phase)
    requires RunInv(r, phase, registered)
    ensures Faithful(r, MarkStale(r))
  {
    if r.live && r.attached {
      var marker := Error(InterruptionOutcome(r), false);
      var e := MarkStale(r);
      if r.hydrated {
        var stale := r.(status := Stale);
        AppendIsFaithful(r, stale, [marker, Closed], true);
        var appended := AppendEvents(stale, [marker, Closed], true);
        HydratedMirrors(r, appended.writes[0], appended.run, e.run);
      } else {
        assert MirrorsLog(r, e.writes[0].batch, [marker, Closed], e.run);
      }
    }
  }
}
