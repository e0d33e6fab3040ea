/** What every step keeps true of a run in memory, whatever the store does:
    its subscribers see gap-free stretches of its log, and its status, its
    reservation and its finalization agree. */
module RunMemory {
  import opened Wrappers
  import opened RunEvents
  import opened RunSpec
  import opened DurableLog
  import opened RunProtocol

  /** An open subscription has been handed everything from its start. */
  ghost predicate Following(c: Channel, log: seq<RunEvent>) {
    c.open && c.joined <= |log| && c.delivered == log[c.From()..] && c.buffered <= CHANNEL_CAPACITY
  }

  /** A closed one stopped somewhere: it was cut off, never skipped ahead. */
  ghost predicate CutOff(c: Channel, log: seq<RunEvent>) {
    !c.open && c.joined <= |log| && c.From() + |c.delivered| <= |log| &&
    c.delivered == log[c.From()..c.From() + |c.delivered|] && c.buffered <= CHANNEL_CAPACITY
  }

  ghost predicate Served(r: RunState, log: seq<RunEvent>) {
    && (forall id :: id in r.subs ==> Following(r.subs[id], log) && id < r.nextSub)
    && (forall id :: id in r.retired ==> CutOff(r.retired[id], log) && id < r.nextSub)
    && r.subs.Keys !! r.retired.Keys
  }

  lemma {:induction false} SendFollows(c: Channel, log: seq<RunEvent>, e: RunEvent)
    requires Following(c, log)
    ensures c.HasRoom() ==> Following(c.Send(e), log + [e])
    ensures !c.HasRoom() ==> CutOff(c.Close(), log + [e])
  {
    assert (log + [e])[c.From()..] == log[c.From()..] + [e];
    assert (log + [e])[c.From()..c.From() + |c.delivered|] == log[c.From()..];
  }

  lemma {:induction false} CutOffStays(c: Channel, log: seq<RunEvent>, e: RunEvent)
    requires CutOff(c, log)
    ensures CutOff(c, log + [e])
  {
    var k := c.From() + |c.delivered|;
    assert (log + [e])[c.From()..k] == log[c.From()..k];
  }

  lemma {:induction false} PublishOneServes(r: RunState, log: seq<RunEvent>, e: RunEvent)
    requires r.ChannelsOpen() && Served(r, log)
    ensures Served(PublishOne(r, e), log + [e])
  {
    var p := PublishOne(r, e);
    forall id | id in p.subs ensures Following(p.subs[id], log + [e]) && id < p.nextSub {
      SendFollows(r.subs[id], log, e);
    }
    forall id | id in p.retired ensures CutOff(p.retired[id], log + [e]) && id < p.nextSub {
      if id in r.subs {
        SendFollows(r.subs[id], log, e);
      } else {
        CutOffStays(r.retired[id], log, e);
      }
    }
  }

  lemma {:induction false} PublishServes(r: RunState, n: nat, batch: seq<RunEvent>)
    requires r.ChannelsOpen() && n <= |r.events| && batch == r.events[n..]
    requires Served(r, r.events[..n])
    ensures Served(Publish(r, batch), r.events)
    decreases |batch|
  {
    if batch == [] {
      assert r.events[..n] == r.events;
    } else {
      PublishOneServes(r, r.events[..n], batch[0]);
      assert r.events[..n] + [batch[0]] == r.events[..n + 1];
      PublishServes(PublishOne(r, batch[0]), n + 1, batch[1..]);
    }
  }

  lemma {:induction false} AppendServes(r: RunState, events: seq<StreamEvent>, persistRow: bool)
    requires r.ChannelsOpen() && Served(r, r.events) && Numbered(r.events)
    ensures var p := AppendEvents(r, events, persistRow).run; Served(p, p.events) && Numbered(p.events)
  {
    var batch := Number(|r.events|, events);
    var logged := r.(events := r.events + batch);
    assert logged.events[..|r.events|] == r.events;
    PublishServes(logged, |r.events|, batch);
  }

  lemma {:induction false} CloseAllServes(r: RunState)
    requires r.ChannelsOpen() && Served(r, r.events)
    ensures Served(CloseAll(r), r.events)
  {
    forall id | id in r.subs ensures CutOff(r.subs[id].Close(), r.events) {
      assert r.events[r.subs[id].From()..] == r.events[r.subs[id].From()..r.subs[id].From() + |r.subs[id].delivered|];
    }
  }

  lemma {:induction false} SentinelServes(c: Channel, log: seq<RunEvent>, e: RunEvent)
    requires Following(c, log)
    ensures CutOff(c.SendIfRoom(e).Close(), log + [e])
  {
    var log' := log + [e];
    assert log'[c.From()..|log|] == log[c.From()..];
    assert log'[c.From()..] == log[c.From()..] + [e];
  }

  lemma {:induction false} FinalizeServes(r: RunState)
    requires r.ChannelsOpen() && Served(r, r.events) && Numbered(r.events)
    ensures var p := Finalize(r).run; Served(p, p.events) && Numbered(p.events)
  {
    if r.live {
      var sentinel := RunEvent(|r.events| + 1, Closed);
      var p := Finalize(r).run;
      forall id | id in p.retired ensures CutOff(p.retired[id], p.events) && id < p.nextSub {
        if id in r.subs {
          SentinelServes(r.subs[id], r.events, sentinel);
        } else {
          CutOffStays(r.retired[id], r.events, sentinel);
        }
      }
    }
  }

  /** The backlog is the log from the subscriber's start onwards, for every
      sequence number a client may send. */
  lemma {:induction false} BacklogIsSuffix(log: seq<RunEvent>, afterSeq: int)
    requires Numbered(log)
    ensures Backlog(log, afterSeq) == log[StartIndex(log, afterSeq)..]
  {
    if log != [] {
      var init := log[..|log| - 1];
      BacklogIsSuffix(init, afterSeq);
      if log[|log| - 1].num > afterSeq {
        assert log[StartIndex(log, afterSeq)..] == init[StartIndex(init, afterSeq)..] + [log[|log| - 1]];
      }
    }
  }

  lemma {:induction false} SubscribeServes(r: RunState, afterSeq: int)
    requires r.ChannelsOpen() && Served(r, r.events) && Numbered(r.events)
    ensures Served(Subscribe(r, afterSeq), r.events)
  {
    BacklogIsSuffix(r.events, afterSeq);
  }

  lemma {:induction false} UnsubscribeServes(r: RunState, id: nat)
    requires r.ChannelsOpen() && Served(r, r.events)
    ensures Served(Unsubscribe(r, id), r.events)
  {
    if id in r.subs {
      assert r.events[r.subs[id].From()..] == r.events[r.subs[id].From()..r.subs[id].From() + |r.subs[id].delivered|];
    }
  }

  /** Status, reservation, finalization and hydration agree. */
  ghost predicate Coherent(r: RunState, phase: Phase, registered: bool) {
    && (r.inFlight <==> !phase.Idle?)
    && (r.status.Running? ==> r.live && r.inFlight)
    && (r.inFlight ==> r.hydrated)
    && (r.inFlight ==> r.status.Running? || r.status.Stopped? || r.status.Stale?)
    && (r.status.Stale? ==> !r.live)
    && (r.attached ==> registered)
    && (!r.live ==> r.status.Stale? || !registered)
    && (!registered ==> !r.live && !r.status.Running?)
    && (registered && !r.attached ==> r.hydrated)
    && (r.session.Some? ==> !r.session.value.writeEnabled)
    && (!r.hydrated ==> r.subs == map[] && r.retired == map[] && (r.attached ==> r.events == []))
  }

  ghost predicate RunInv(r: RunState, phase: Phase, registered: bool) {
    && r.ChannelsOpen()
    && Numbered(r.events)
    && Served(r, r.events)
    && Coherent(r, phase, registered)
  }

  /** Sessions that can write are never persisted as the one to resume. */
  ghost predicate ReadOnlyRow(row: Row) { row.session.Some? ==> !row.session.value.writeEnabled }

  ghost predicate ReadOnlyWrite(w: Write) {
    match w
    case SaveRow(row) => ReadOnlyRow(row)
    case AppendRows(_, summary) => summary.Some? ==> ReadOnlyRow(summary.value)
  }

  ghost predicate ReadOnlyWrites(writes: seq<Write>) {
    forall i :: 0 <= i < |writes| ==> ReadOnlyWrite(writes[i])
  }

  ghost predicate ReadOnlyRows(s: System) {
    && (s.db.row.Some? ==> ReadOnlyRow(s.db.row.value))
    && (forall i :: 0 <= i < |s.queue| && s.queue[i].Data? ==> ReadOnlyWrite(s.queue[i].write))
  }

  ghost predicate FetchedAreNumbered(loads: map<nat, Load>) {
    forall t :: t in loads && loads[t].Fetched? && loads[t].log.Some? ==> Numbered(loads[t].log.value)
  }

  ghost predicate MemoryInv(s: System) {
    && RunInv(s.mem, s.phase, s.registered)
    && ReadOnlyRows(s)
    && FetchedAreNumbered(s.loads)
  }

  // ---------------------------------------------------------------- one section each

  lemma {:induction false} LaunchKeeps(r: RunState, registered: bool, turn: StreamEvent)
    requires RunInv(r, Reserved, registered) && turn.Turn?
    ensures RunInv(Launch(r, turn).run, if Owns(r) then Diagnosing(turn.apply) else Idle, registered)
    ensures ReadOnlyWrites(Launch(r, turn).writes)
  {
    AppendServes(r, [turn], false);
  }

  lemma {:induction false} StreamKeeps(r: RunState, registered: bool, phase: Phase, event: StreamEvent)
    requires RunInv(r, phase, registered)
    ensures RunInv(Stream(r, event).run, phase, registered)
    ensures ReadOnlyWrites(Stream(r, event).writes)
  {
    AppendServes(r, [event], event.Terminal());
  }

  /** A turn that ends: the run is over for now and its reservation released. */
  lemma {:induction false} EndingKeeps(r: RunState, registered: bool, ended: RunState, terminal: StreamEvent)
    requires RunInv(r, Diagnosing(false), registered) && Owns(r) && terminal.Terminal()
    requires ended == r.(status := ended.status, session := ended.session)
    requires (ended.status.Errored? || ended.status.Finished?) && (ended.session.Some? ==> !ended.session.value.writeEnabled)
    ensures var e := AppendOne(ended, terminal);
            RunInv(e.run.(inFlight := false), Idle, registered) && ReadOnlyWrites(e.writes)
  {
    AppendServes(ended, [terminal], true);
  }

  lemma {:induction false} FinishTurnKeeps(r: RunState, registered: bool, result: TurnResult)
    requires RunInv(r, Diagnosing(false), registered)
    requires result.session.Some? ==> !result.session.value.writeEnabled
    ensures RunInv(FinishTurn(r, result, false).run, Idle, registered)
    ensures ReadOnlyWrites(FinishTurn(r, result, false).writes)
  {
    if Owns(r) {
      if result.failed {
        EndingKeeps(r, registered, r.(status := Errored), Error(NoOutcome, false));
      } else {
        var session := if result.session.Some? then result.session else r.session;
        EndingKeeps(r, registered, r.(status := Finished, session := session), Done(NoOutcome, false));
      }
    }
  }

  lemma {:induction false} FinishApplyKeeps(r: RunState, registered: bool, terminal: StreamEvent)
    requires RunInv(r, Diagnosing(true), registered)
    ensures RunInv(FinishApply(r, terminal).run, Idle, registered)
    ensures ReadOnlyWrites(FinishApply(r, terminal).writes)
  {
    AppendServes(r.(status := Errored), [terminal], terminal.Terminal());
  }

  lemma {:induction false} FinishApplyAndVerifyKeeps(r: RunState, registered: bool, terminal: StreamEvent)
    requires RunInv(r, Diagnosing(true), registered)
    ensures RunInv(FinishApplyAndVerify(r, terminal).run, if Owns(r) then Diagnosing(false) else Idle, registered)
    ensures ReadOnlyWrites(FinishApplyAndVerify(r, terminal).writes)
  {
    AppendServes(r, [terminal, Turn(false, true, 0)], true);
  }

  lemma {:induction false} InterruptKeeps(r: RunState, registered: bool, phase: Phase)
    requires RunInv(r, phase, registered)
    ensures RunInv(Interrupt(r).run, phase, registered)
    ensures ReadOnlyWrites(Interrupt(r).writes)
  {
    AppendServes(r.(status := Stopped), [Error(InterruptionOutcome(r), false)], true);
  }

  lemma {:induction false} MarkStaleKeeps(r: RunState, registered: bool, phase: Phase)
    requires RunInv(r, phase, registered)
    ensures RunInv(MarkStale(r).run, phase, registered)
    ensures ReadOnlyWrites(MarkStale(r).writes)
  {
    var stale := r.(status := Stale);
    var marker := Error(InterruptionOutcome(r), false);
    AppendServes(stale, [marker, Closed], true);
    CloseAllServes(AppendEvents(stale, [marker, Closed], true).run);
    CloseAllServes(stale);
  }

  lemma {:induction false} DropKeeps(r: RunState, phase: Phase)
    requires RunInv(r, phase, true) && !r.status.Running?
    ensures RunInv(Drop(r), phase, false)
  {
    FinalizeServes(r.(attached := false));
  }

  lemma {:induction false} CommitKeeps(s: System, e: Effect, phase: Phase, accepted: bool)
    requires MemoryInv(s)
    requires RunInv(e.run, phase, s.registered) && ReadOnlyWrites(e.writes)
    ensures MemoryInv(Commit(s, e, phase, accepted))
  {
    var s' := Commit(s, e, phase, accepted);
    forall i | 0 <= i < |s'.queue| && s'.queue[i].Data? ensures ReadOnlyWrite(s'.queue[i].write) {
      if i >= |s.queue| { assert s'.queue[i] == Data(e.writes[i - |s.queue|]); }
    }
  }

  lemma {:induction false} ApplyKeepsRow(d: DurableRun, op: Op)
    requires d.row.Some? ==> ReadOnlyRow(d.row.value)
    requires op.Data? ==> ReadOnlyWrite(op.write)
    ensures ApplyOp(d, op).row.Some? ==> ReadOnlyRow(ApplyOp(d, op).row.value)
  {
  }

  lemma {:induction false} WrittenDatabase(s: System)
    requires s.queue != []
    ensures var s' := Written(s, false);
            if s.queue[0].DeleteRows?
            then s'.db == s.db.(table := map[]) && s'.queue == [DeleteRow] + s.queue[1..]
            else s'.db == ApplyOp(s.db, s.queue[0]) && s'.queue == s.queue[1..]
  {
  }

  lemma {:induction false} WriterKeepsRows(s: System, fails: bool)
    requires ReadOnlyRows(s) && s.queue != []
    ensures ReadOnlyRows(Written(s, fails))
  {
    var s' := Written(s, fails);
    ApplyKeepsRow(s.db, s.queue[0]);
    if fails {
      assert s'.db == s.db && s'.queue == s.queue[1..];
    } else {
      WrittenDatabase(s);
    }
    forall i | 0 <= i < |s'.queue| && s'.queue[i].Data? ensures ReadOnlyWrite(s'.queue[i].write) {
      assert s'.queue[i] == s.queue[if |s'.queue| == |s.queue| then i else i + 1];
    }
  }

  lemma {:induction false} WriterKeeps(s: System, fails: bool)
    requires MemoryInv(s) && s.queue != []
    ensures MemoryInv(Written(s, fails))
  {
    WriterKeepsRows(s, fails);
    var s' := Written(s, fails);
    assert RunInv(s'.mem, s'.phase, s'.registered);
    assert FetchedAreNumbered(s'.loads);
    assert ReadOnlyRows(s');
  }

  lemma {:induction false} RestartKeeps(s: System, readable: bool, dropSession: bool, accepted: bool)
    requires MemoryInv(s) && s.db.row.Some?
    ensures MemoryInv(Restarted(s, readable, dropSession, accepted))
  {
  }

  lemma {:induction false} InstalledKeeps(s: System, load: Load)
    requires MemoryInv(s) && load.Fetched? && (load.log.Some? ==> Numbered(load.log.value))
    ensures MemoryInv(Installed(s, load))
  {
  }

  lemma {:induction false} LoadStepKeeps(s: System, step: Step)
    requires MemoryInv(s) && Enabled(s, step)
    requires step.LoadBegin? || step.LoadFetch? || step.LoadInstall?
    ensures MemoryInv(Next(s, step))
  {
    match step
    case LoadBegin(_) =>
    case LoadFetch(_, _) =>
      if LogOf(s.db.table).Some? { ReadLogIsHeld(s.db.table); }
    case LoadInstall(token) =>
      InstalledKeeps(s.(loads := s.loads - {token}), s.loads[token]);
  }

  /** Steps of the thread that owns the turn. */
  lemma {:induction false} TurnStepKeeps(s: System, step: Step)
    requires MemoryInv(s) && Enabled(s, step)
    requires step.BeginTurn? || step.LaunchTurn? || step.AgentEvent? || step.FinishRead? || step.FinishWrite?
    ensures MemoryInv(Next(s, step))
  {
    match step
    case BeginTurn(accepted) =>
      CommitKeeps(s, Begin(s.mem, true).value, Reserved, accepted);
    case LaunchTurn(apply, verify, explain, accepted) =>
      var turn := Turn(apply, verify, explain);
      LaunchKeeps(s.mem, s.registered, turn);
      CommitKeeps(s, Launch(s.mem, turn), if Owns(s.mem) then Diagnosing(apply) else Idle, accepted);
    case AgentEvent(event, accepted) =>
      StreamKeeps(s.mem, s.registered, s.phase, event);
      CommitKeeps(s, Stream(s.mem, event), s.phase, accepted);
    case FinishRead(result, accepted) =>
      FinishTurnKeeps(s.mem, s.registered, result);
      CommitKeeps(s, FinishTurn(s.mem, result, false), Idle, accepted);
    case FinishWrite(failed, outcome, sameContext, accepted) =>
      var (verify, terminal) := AfterApply(failed, outcome, sameContext);
      FinishApplyAndVerifyKeeps(s.mem, s.registered, terminal);
      FinishApplyKeeps(s.mem, s.registered, terminal);
      if verify {
        CommitKeeps(s, FinishApplyAndVerify(s.mem, terminal), if Owns(s.mem) then Diagnosing(false) else Idle, accepted);
      } else {
        CommitKeeps(s, FinishApply(s.mem, terminal), Idle, accepted);
      }
  }

  /** Steps that end the run's turn, or the run, from outside. */
  lemma {:induction false} OutsideStepKeeps(s: System, step: Step)
    requires MemoryInv(s) && Enabled(s, step)
    requires step.StopRun? || step.ContextSwitch? || step.Evict? || step.ClearDrop?
    ensures MemoryInv(Next(s, step))
  {
    match step
    case StopRun(accepted) =>
      InterruptKeeps(s.mem, s.registered, s.phase);
      CommitKeeps(s, Interrupt(s.mem), s.phase, accepted);
    case ContextSwitch(accepted) =>
      MarkStaleKeeps(s.mem, s.registered, s.phase);
      CommitKeeps(s, MarkStale(s.mem), s.phase, accepted);
    case Evict(_) => DropKeeps(s.mem, s.phase);
    case ClearDrop => DropKeeps(s.mem, s.phase);
  }

  lemma {:induction false} SubscriberStepKeeps(s: System, step: Step)
    requires MemoryInv(s) && Enabled(s, step)
    requires step.AddSubscriber? || step.CancelSubscriber? || step.TakeEvent?
    ensures MemoryInv(Next(s, step))
  {
    match step
    case AddSubscriber(afterSeq) => SubscribeServes(s.mem, afterSeq);
    case CancelSubscriber(id) => UnsubscribeServes(s.mem, id);
    case TakeEvent(_) =>
  }

  lemma {:induction false} StoreStepKeeps(s: System, step: Step)
    requires MemoryInv(s) && Enabled(s, step)
    requires step.ClearKeep? || step.ClearRequest? || step.WriterStep? || step.CloseStore? || step.Restart?
    ensures MemoryInv(Next(s, step))
  {
    match step
    case WriterStep(fails) => WriterKeeps(s, fails);
    case Restart(readable, dropSession, accepted) => RestartKeeps(s, readable, dropSession, accepted);
    case _ =>
  }

  /** Every step keeps the memory invariant. */
  lemma {:induction false} MemoryInvariantStep(s: System, step: Step)
    requires MemoryInv(s) && Enabled(s, step)
    ensures MemoryInv(Next(s, step))
  {
    if step.BeginTurn? || step.LaunchTurn? || step.AgentEvent? || step.FinishRead? || step.FinishWrite? {
      TurnStepKeeps(s, step);
    } else if step.StopRun? || step.ContextSwitch? || step.Evict? || step.ClearDrop? {
      OutsideStepKeeps(s, step);
    } else if step.AddSubscriber? || step.CancelSubscriber? || step.TakeEvent? {
      SubscriberStepKeeps(s, step);
    } else if step.LoadBegin? || step.LoadFetch? || step.LoadInstall? {
      LoadStepKeeps(s, step);
    } else {
      StoreStepKeeps(s, step);
    }
  }
}
