/** The invariant of one investigation is inductive, and what it means for
    every run of the system. */
module RunInvariant {
  import opened Wrappers
  import opened RunEvents
  import opened RunSpec
  import opened DurableLog
  import opened RunProtocol
  import opened RunMemory
  import opened RunGrammar
  import opened RunDurability
  import opened RunSafety

  // ---------------------------------------------------------------- hydrating reads

  lemma {:induction false} BarrierKeepsLoads(s: System, token: nat, load: Load)
    requires LoadInv(s) && !s.mem.hydrated && s.mem.attached && PastItsBarrier(load) && LoadIsCurrent(s, load)
    ensures LoadIsCurrent(s.(queue := s.queue + [Barrier(token)]), load)
  {
    DrainOne(s.db, s.queue, Barrier(token));
  }

  lemma {:induction false} LoadBeginKeepsLoads(s: System, token: nat)
    requires MemoryInv(s) && LoadInv(s) && Enabled(s, LoadBegin(token))
    ensures LoadInv(Next(s, LoadBegin(token)))
  {
    var s' := Next(s, LoadBegin(token));
    if !s.closed {
      assert s.queue != [] ==> s'.queue[1..] == s.queue[1..] + [Barrier(token)];
      forall t | t in s'.loads && PastItsBarrier(s'.loads[t]) ensures LoadIsCurrent(s', s'.loads[t]) {
        assert t in s.loads && s'.loads[t] == s.loads[t];
        BarrierKeepsLoads(s, token, s.loads[t]);
        assert LoadIsCurrent(s.(queue := s.queue + [Barrier(token)]), s.loads[t]);
      }
    } else {
      forall t | t in s'.loads && PastItsBarrier(s'.loads[t]) ensures LoadIsCurrent(s', s'.loads[t]) {
        assert t in s.loads && s'.loads[t] == s.loads[t];
        assert LoadIsCurrent(s, s.loads[t]);
      }
    }
  }

  lemma {:induction false} LoadFetchKeepsLoads(s: System, token: nat, readable: bool)
    requires MemoryInv(s) && LoadInv(s) && Enabled(s, LoadFetch(token, readable))
    ensures LoadInv(Next(s, LoadFetch(token, readable)))
  {
    var s' := Next(s, LoadFetch(token, readable));
    if !s.mem.hydrated && s.mem.attached {
      forall t | t in s'.loads && PastItsBarrier(s'.loads[t]) ensures LoadIsCurrent(s', s'.loads[t]) {
        assert LoadIsCurrent(s, s.loads[t]);
        if t == token && s'.loads[t].log.Some? {
          AppendsExtend(s.db, s.queue);
        }
      }
    }
  }

  lemma {:induction false} WriterKeepsLoads(s: System, fails: bool)
    requires MemoryInv(s) && DurableInv(s) && LoadInv(s) && Enabled(s, WriterStep(fails))
    ensures LoadInv(Next(s, WriterStep(fails)))
  {
    var s' := Written(s, fails);
    if !s.mem.hydrated && s.mem.attached {
      assert !s.queue[0].DeleteRows?;
      assert s'.queue == s.queue[1..];
      forall i | 0 <= i < |s'.queue| ensures s'.queue[i].Barrier? || Unnumbered(s'.queue[i]) {
        assert s'.queue[i] == s.queue[i + 1];
      }
      if !fails { WrittenDatabase(s); PoppedDrains(s.db, s.queue); }
      forall t | t in s'.loads && PastItsBarrier(s'.loads[t]) ensures LoadIsCurrent(s', s'.loads[t]) {
        if s'.loads[t] == s.loads[t] {
          assert LoadIsCurrent(s, s.loads[t]);
        }
      }
    }
  }

  lemma {:induction false} PoppedDrains(d: DurableRun, queue: seq<Op>)
    requires queue != []
    ensures Drain(ApplyOp(d, queue[0]), queue[1..]) == Drain(d, queue)
  {
  }

  /** Marking an unhydrated run stale appends a numberless pair. */
  lemma {:induction false} StaleKeepsLoads(s: System, accepted: bool)
    requires MemoryInv(s) && DurableInv(s) && LoadInv(s) && Enabled(s, ContextSwitch(accepted))
    ensures LoadInv(Next(s, ContextSwitch(accepted)))
  {
    var s' := Next(s, ContextSwitch(accepted));
    if !s'.mem.hydrated && s'.mem.attached && s'.queue != s.queue {
      var op := s'.queue[|s.queue|];
      assert s'.queue == s.queue + [op];
      assert Unnumbered(op);
      if s.intact {
        DrainedIsRecoverable(s.db, s.queue);
        assert OnlyAppends([op]);
        AppendsExtend(Drain(s.db, s.queue), [op]);
        DrainOne(s.db, s.queue, op);
        assert Drain(Drain(s.db, s.queue), [op]) == ApplyOp(Drain(s.db, s.queue), op) by {
          assert Drain(ApplyOp(Drain(s.db, s.queue), op), []) == ApplyOp(Drain(s.db, s.queue), op);
        }
      }
      forall t | t in s'.loads && PastItsBarrier(s'.loads[t]) ensures LoadIsCurrent(s', s'.loads[t]) {
        assert LoadIsCurrent(s, s.loads[t]);
      }
    } else if !s'.mem.hydrated && s'.mem.attached {
      forall t | t in s'.loads && PastItsBarrier(s'.loads[t]) ensures LoadIsCurrent(s', s'.loads[t]) {
        assert LoadIsCurrent(s, s.loads[t]);
      }
    }
  }

  lemma {:induction false} InstallKeepsLoads(s: System, token: nat)
    requires MemoryInv(s) && LoadInv(s) && Enabled(s, LoadInstall(token))
    ensures LoadInv(Next(s, LoadInstall(token)))
  {
    var s' := Next(s, LoadInstall(token));
    if !s'.mem.hydrated && s'.mem.attached {
      forall t | t in s'.loads && PastItsBarrier(s'.loads[t]) ensures LoadIsCurrent(s', s'.loads[t]) {
        assert LoadIsCurrent(s, s.loads[t]);
      }
    }
  }

  /** Once the log is in memory it stays there until the process ends. */
  lemma {:induction false} HydrationStays(s: System, step: Step)
    requires s.mem.ChannelsOpen() && Enabled(s, step) && !step.Restart? && s.mem.hydrated
    ensures Next(s, step).mem.hydrated
  {
    if step.WriterStep? || step.LoadBegin? || step.LoadFetch? || step.LoadInstall? || step.CloseStore? || step.ClearKeep? || step.ClearRequest? {
    } else if step.AddSubscriber? || step.CancelSubscriber? || step.TakeEvent? {
    } else if step.Evict? || step.ClearDrop? {
    } else if step.FinishWrite? {
    } else {
    }
  }

  /** No other step touches an unhydrated run, its reads or its queue. */
  lemma {:induction false} OtherStepsLeaveUnhydrated(s: System, step: Step)
    requires RunInv(s.mem, s.phase, s.registered) && Enabled(s, step) && !s.mem.hydrated
    requires !step.LoadBegin? && !step.LoadFetch? && !step.LoadInstall? && !step.WriterStep? && !step.ContextSwitch?
    requires !step.Restart? && !step.ClearRequest?
    ensures var s' := Next(s, step);
            s'.clearing == s.clearing &&
            (s'.mem.attached ==>
               s.mem.attached && s'.queue == s.queue && s'.db == s.db && s'.loads == s.loads &&
               s'.mem.live == s.mem.live && s'.mem.hydrated == s.mem.hydrated && s'.intact == s.intact)
  {
    match step {
      case Evict(accepted) =>
      case ClearDrop =>
      case StopRun(accepted) =>
      case AddSubscriber(afterSeq) =>
      case CancelSubscriber(id) =>
      case TakeEvent(id) =>
      case _ =>
    }
  }

  lemma {:induction false} UntouchedLoads(s: System, t: System)
    requires LoadInv(s) && !s.mem.hydrated && t.clearing == s.clearing
    requires t.mem.attached ==>
               s.mem.attached && t.queue == s.queue && t.db == s.db && t.loads == s.loads &&
               t.mem.live == s.mem.live && t.mem.hydrated == s.mem.hydrated && t.intact == s.intact
    ensures LoadInv(t)
  {
    forall k | t.mem.attached && k in t.loads && PastItsBarrier(t.loads[k]) ensures LoadIsCurrent(t, t.loads[k]) {
      assert LoadIsCurrent(s, s.loads[k]);
    }
  }

  lemma {:induction false} HydratedKeepsLoads(s: System, step: Step)
    requires s.mem.ChannelsOpen() && Enabled(s, step) && s.mem.hydrated && !step.Restart?
    ensures LoadInv(Next(s, step))
  {
    HydrationStays(s, step);
  }

  lemma {:induction false} OtherStepsKeepLoads(s: System, step: Step)
    requires MemoryInv(s) && LoadInv(s) && Enabled(s, step)
    requires !step.LoadBegin? && !step.LoadFetch? && !step.LoadInstall? && !step.WriterStep? && !step.ContextSwitch?
    ensures LoadInv(Next(s, step))
  {
    if step.Restart? {
      assert Next(s, step).loads == map[];
    } else if s.mem.hydrated {
      HydratedKeepsLoads(s, step);
    } else {
      OtherStepsLeaveUnhydrated(s, step);
      UntouchedLoads(s, Next(s, step));
    }
  }

  lemma {:induction false} LoadInvariantStep(s: System, step: Step)
    requires MemoryInv(s) && DurableInv(s) && LoadInv(s) && Enabled(s, step)
    ensures LoadInv(Next(s, step))
  {
    match step
    case LoadBegin(token) => LoadBeginKeepsLoads(s, token);
    case LoadFetch(token, readable) => LoadFetchKeepsLoads(s, token, readable);
    case LoadInstall(token) => InstallKeepsLoads(s, token);
    case WriterStep(fails) => WriterKeepsLoads(s, fails);
    case ContextSwitch(accepted) => StaleKeepsLoads(s, accepted);
    case _ => OtherStepsKeepLoads(s, step);
  }

  // ---------------------------------------------------------------- lost writes

  lemma {:induction false} ListedGrows(batch: seq<RunEvent>, log: seq<RunEvent>, more: seq<RunEvent>)
    requires Listed(batch, log)
    ensures Listed(batch, log + more)
  {
  }

  /** Every queued append repeats the log. */
  ghost predicate AllListed(queue: seq<Op>, log: seq<RunEvent>) {
    forall i :: 0 <= i < |queue| && queue[i].Data? && queue[i].write.AppendRows? ==> Listed(queue[i].write.batch, log)
  }

  lemma {:induction false} AllListedGrows(queue: seq<Op>, log: seq<RunEvent>, more: seq<RunEvent>)
    requires AllListed(queue, log)
    ensures AllListed(queue, log + more)
  {
    forall i | 0 <= i < |queue| && queue[i].Data? && queue[i].write.AppendRows?
      ensures Listed(queue[i].write.batch, log + more)
    {
      ListedGrows(queue[i].write.batch, log, more);
    }
  }

  lemma {:induction false} MirroredIsListed(before: RunState, w: Write, after: RunState)
    requires before.hydrated && Mirrors(before, w, after)
    ensures exists more :: after.events == before.events + more && (w.AppendRows? ==> Listed(w.batch, before.events + more))
  {
    if w.AppendRows? {
      var events :| MirrorsLog(before, w.batch, events, after);
      assert Listed(w.batch, before.events + Number(|before.events|, events));
    } else {
      assert after.events == before.events + [];
    }
  }

  lemma {:induction false} CommitStaysWithin(s: System, e: Effect, phase: Phase, accepted: bool)
    requires WithinInv(s) && Faithful(s.mem, e) && e.run.attached == s.mem.attached
    requires e.run.hydrated == s.mem.hydrated
    ensures WithinInv(Commit(s, e, phase, accepted))
  {
    var s' := Commit(s, e, phase, accepted);
    if s'.exact && s'.mem.attached && s'.mem.hydrated && e.writes != [] {
      MirroredIsListed(s.mem, e.writes[0], e.run);
      var more :| e.run.events == s.mem.events + more && (e.writes[0].AppendRows? ==> Listed(e.writes[0].batch, s.mem.events + more));
      AllListedGrows(s.queue, s.mem.events, more);
      assert AllListed(s'.queue, s'.mem.events);
    }
  }

  lemma {:induction false} TurnStepStaysWithin(s: System, step: Step)
    requires MemoryInv(s) && WithinInv(s) && Enabled(s, step)
    requires step.BeginTurn? || step.LaunchTurn? || step.AgentEvent? || step.FinishRead? || step.StopRun? || step.ContextSwitch?
    ensures WithinInv(Next(s, step))
  {
    match step
    case BeginTurn(accepted) => CommitStaysWithin(s, Begin(s.mem, true).value, Reserved, accepted);
    case LaunchTurn(apply, verify, explain, accepted) =>
      var turn := Turn(apply, verify, explain);
      LaunchIsFaithful(s.mem, s.registered, turn);
      CommitStaysWithin(s, Launch(s.mem, turn), if Owns(s.mem) then Diagnosing(apply) else Idle, accepted);
    case AgentEvent(event, accepted) =>
      StreamIsFaithful(s.mem, s.registered, s.phase, event);
      CommitStaysWithin(s, Stream(s.mem, event), s.phase, accepted);
    case FinishRead(result, accepted) =>
      FinishTurnIsFaithful(s.mem, s.registered, result);
      CommitStaysWithin(s, FinishTurn(s.mem, result, false), Idle, accepted);
    case StopRun(accepted) =>
      InterruptIsFaithful(s.mem, s.registered, s.phase);
      CommitStaysWithin(s, Interrupt(s.mem), s.phase, accepted);
    case ContextSwitch(accepted) =>
      MarkStaleIsFaithful(s.mem, s.registered, s.phase);
      CommitStaysWithin(s, MarkStale(s.mem), s.phase, accepted);
  }

  lemma {:induction false} FinishWriteStaysWithin(s: System, step: Step)
    requires MemoryInv(s) && WithinInv(s) && Enabled(s, step) && step.FinishWrite?
    ensures WithinInv(Next(s, step))
  {
    var FinishWrite(failed, outcome, sameContext, accepted) := step;
    var (verify, terminal) := AfterApply(failed, outcome, sameContext);
    FinishWriteIsFaithful(s.mem, s.registered, failed, outcome, sameContext);
    if verify {
      CommitStaysWithin(s, FinishApplyAndVerify(s.mem, terminal), if Owns(s.mem) then Diagnosing(false) else Idle, accepted);
    } else {
      CommitStaysWithin(s, FinishApply(s.mem, terminal), Idle, accepted);
    }
  }

  lemma {:induction false} WriterStaysWithin(s: System, fails: bool)
    requires WithinInv(s) && s.queue != []
    ensures WithinInv(Written(s, fails))
  {
    var s' := Written(s, fails);
    if s.exact && s.mem.attached && s.mem.hydrated {
      assert forall i :: 0 <= i < |s.queue[1..]| ==> s.queue[1..][i] == s.queue[i + 1];
      var op := s.queue[0];
      if op.Data? && op.write.AppendRows? {
        assert Listed(op.write.batch, s.mem.events);
        BatchStaysWithin(s.db.table, s.mem.events, op.write.batch);
      }
    }
  }

  lemma {:induction false} InstallStaysWithin(s: System, token: nat)
    requires MemoryInv(s) && LoadInv(s) && WithinInv(s) && Enabled(s, LoadInstall(token))
    ensures WithinInv(Next(s, LoadInstall(token)))
  {
    var s' := Next(s, LoadInstall(token));
    if s'.mem != s.mem && s'.exact {
      assert LoadIsCurrent(s, s.loads[token]);
      ReadLogIsHeld(s.db.table);
    }
  }

  lemma {:induction false} WithinInvariantStep(s: System, step: Step)
    requires MemoryInv(s) && LoadInv(s) && WithinInv(s) && Enabled(s, step)
    ensures WithinInv(Next(s, step))
  {
    if step.BeginTurn? || step.LaunchTurn? || step.AgentEvent? || step.FinishRead? || step.StopRun? || step.ContextSwitch? {
      TurnStepStaysWithin(s, step);
    } else if step.FinishWrite? {
      FinishWriteStaysWithin(s, step);
    } else if step.WriterStep? {
      WriterStaysWithin(s, step.fails);
    } else if step.LoadInstall? {
      InstallStaysWithin(s, step.token);
    } else {
      OtherStepStaysWithin(s, step);
    }
  }

  lemma {:induction false} DropStaysWithin(s: System, step: Step)
    requires s.mem.ChannelsOpen() && Enabled(s, step) && (step.Evict? || step.ClearDrop?)
    ensures WithinInv(Next(s, step))
  {
    assert !Next(s, step).mem.attached;
  }

  lemma {:induction false} PushStaysWithin(s: System, step: Step)
    requires s.mem.ChannelsOpen() && WithinInv(s) && Enabled(s, step) && (step.ClearRequest? || step.LoadBegin?)
    ensures WithinInv(Next(s, step))
  {
    assert AllListed(Next(s, step).queue, s.mem.events) <== AllListed(s.queue, s.mem.events);
  }

  lemma {:induction false} OtherStepStaysWithin(s: System, step: Step)
    requires MemoryInv(s) && WithinInv(s) && Enabled(s, step)
    requires step.Evict? || step.ClearDrop? || step.ClearKeep? || step.ClearRequest? || step.LoadBegin? || step.LoadFetch? || step.AddSubscriber? || step.CancelSubscriber? || step.TakeEvent? || step.CloseStore? || step.Restart?
    ensures WithinInv(Next(s, step))
  {
    if step.Evict? || step.ClearDrop? {
      DropStaysWithin(s, step);
    } else if step.ClearRequest? || step.LoadBegin? {
      PushStaysWithin(s, step);
    } else if step.Restart? {
      assert !Next(s, step).exact;
    } else {
      QuietStepsLeaveTheLog(s, step);
    }
  }

  // ---------------------------------------------------------------- the whole invariant

  lemma {:induction false} SectionStepStays(s: System, step: Step)
    requires Inv(s) && Enabled(s, step)
    requires step.BeginTurn? || step.LaunchTurn? || step.AgentEvent? || step.FinishRead? || step.FinishWrite? || step.StopRun? || step.ContextSwitch?
    ensures GrammarInv(Next(s, step)) && DurableInv(Next(s, step))
  {
    match step
    case BeginTurn(accepted) => BeginStepStays(s, accepted);
    case LaunchTurn(apply, verify, explain, accepted) => LaunchStepStays(s, apply, verify, explain, accepted);
    case AgentEvent(event, accepted) => StreamStepStays(s, event, accepted);
    case FinishRead(result, accepted) => FinishStepStays(s, result, accepted);
    case FinishWrite(failed, outcome, sameContext, accepted) =>
      if AfterApply(failed, outcome, sameContext).0 {
        VerifyStepStays(s, failed, outcome, accepted);
      } else {
        CloseApplyStepStays(s, failed, outcome, sameContext, accepted);
      }
    case StopRun(accepted) => StopStepStays(s, accepted);
    case ContextSwitch(accepted) => ContextStepStays(s, accepted);
  }

  lemma {:induction false} LogStepStays(s: System, step: Step)
    requires Inv(s) && Enabled(s, step)
    ensures GrammarInv(Next(s, step)) && DurableInv(Next(s, step))
  {
    match step
    case Evict(accepted) => EvictStepStays(s, accepted);
    case ClearDrop => ClearDropStays(s);
    case WriterStep(fails) => WriterStepStays(s, fails);
    case ClearRequest => ClearRequestStays(s);
    case LoadBegin(token) => LoadBeginStays(s, token);
    case LoadInstall(token) => InstallStepStays(s, token);
    case Restart(readable, dropSession, accepted) => RestartStays(s, readable, dropSession, accepted);
    case _ =>
      if step.ClearKeep? || step.LoadFetch? || step.AddSubscriber? || step.CancelSubscriber? || step.TakeEvent? || step.CloseStore? {
        QuietStepStays(s, step);
      } else {
        SectionStepStays(s, step);
      }
  }

  lemma {:induction false} InstallStepStays(s: System, token: nat)
    requires Inv(s) && Enabled(s, LoadInstall(token))
    ensures GrammarInv(Next(s, LoadInstall(token))) && DurableInv(Next(s, LoadInstall(token)))
  {
    InstalledStays(s, s.loads[token]);
  }

  /** What a step leaves alone that touches neither the log nor the store. */
  ghost predicate SameLog(s: System, t: System) {
    && t.db == s.db && t.queue == s.queue && t.intact == s.intact && t.sound == s.sound && t.phase == s.phase
    && t.mem == s.mem.(subs := t.mem.subs, retired := t.mem.retired, nextSub := t.mem.nextSub)
  }

  lemma {:induction false} QuietStepsLeaveTheLog(s: System, step: Step)
    requires s.mem.ChannelsOpen() && Enabled(s, step)
    requires step.ClearKeep? || step.LoadFetch? || step.AddSubscriber? || step.CancelSubscriber? || step.TakeEvent? || step.CloseStore?
    ensures SameLog(s, Next(s, step))
  {
    match step {
      case AddSubscriber(_) =>
      case CancelSubscriber(_) =>
      case TakeEvent(_) =>
      case _ =>
    }
  }

  lemma {:induction false} SameLogStays(s: System, t: System)
    requires GrammarInv(s) && DurableInv(s) && SameLog(s, t)
    ensures GrammarInv(t) && DurableInv(t)
  {
  }

  lemma {:induction false} QuietStepStays(s: System, step: Step)
    requires Inv(s) && Enabled(s, step)
    requires step.ClearKeep? || step.LoadFetch? || step.AddSubscriber? || step.CancelSubscriber? || step.TakeEvent? || step.CloseStore?
    ensures GrammarInv(Next(s, step)) && DurableInv(Next(s, step))
  {
    QuietStepsLeaveTheLog(s, step);
    SameLogStays(s, Next(s, step));
  }

  /** Every step of every thread, of the writer and of a restart keeps the invariant. */
  lemma {:induction false} InvariantStep(s: System, step: Step)
    requires Inv(s) && Enabled(s, step)
    ensures Inv(Next(s, step))
  {
    MemoryInvariantStep(s, step);
    LogStepStays(s, step);
    LoadInvariantStep(s, step);
    WithinInvariantStep(s, step);
  }

  lemma {:induction false} InitialInvariant(attached: bool, accepted: bool)
    ensures Inv(Initial(attached, accepted))
  {
    var s := Initial(attached, accepted);
    EmptyIsRecoverable();
    if accepted && attached {
      var op := Data(SaveRow(s.mem.Summary()));
      assert s.queue == [] + [op];
      DrainOne(s.db, [], op);
      HeldLogIsRead(map[], []);
      CutsOne(s.db, [], op);
    }
  }

  /** A run of the system: enabled steps, one after the other. */
  ghost predicate Leads(s: System, steps: seq<Step>, t: System)
    decreases |steps|
  {
    if steps == [] then s == t
    else s.mem.ChannelsOpen() && Enabled(s, steps[0]) && Leads(Next(s, steps[0]), steps[1..], t)
  }

  ghost predicate Reachable(t: System) {
    exists attached: bool, accepted: bool, steps: seq<Step> :: Leads(Initial(attached, accepted), steps, t)
  }

  lemma {:induction false} InvariantAlong(s: System, steps: seq<Step>, t: System)
    requires Inv(s) && Leads(s, steps, t)
    ensures Inv(t)
    decreases |steps|
  {
    if steps != [] {
      InvariantStep(s, steps[0]);
      InvariantAlong(Next(s, steps[0]), steps[1..], t);
    }
  }

  lemma {:induction false} ReachableInvariant(t: System)
    requires Reachable(t)
    ensures Inv(t)
  {
    var attached: bool, accepted: bool, steps: seq<Step> :| Leads(Initial(attached, accepted), steps, t);
    InitialInvariant(attached, accepted);
    InvariantAlong(Initial(attached, accepted), steps, t);
  }
}
