/** The promises of the investigation protocol, for every run of the system,
    and the interleavings in which the code breaks one of them. */
module RunTheorems {
  import opened Wrappers
  import opened RunEvents
  import opened RunSpec
  import opened DurableLog
  import opened RunProtocol
  import opened RunMemory
  import opened RunGrammar
  import opened RunDurability
  import opened RunSafety
  import opened RunInvariant

  // ---------------------------------------------------------------- in memory

  /** The log obeys its grammar and its numbering, and agrees with the run's
      status: a turn is open only while the run is running, the sentinel is
      there exactly when the run is finalized. */
  lemma {:induction false} LogObeysTheGrammar(s: System)
    requires Reachable(s) && s.sound && s.mem.hydrated
    ensures Numbered(s.mem.events) && WellFormed(s.mem.events)
    ensures Mode(s.mem.events).Open? ==> s.mem.status.Running? && s.phase == Diagnosing(Mode(s.mem.events).apply)
    ensures Mode(s.mem.events).Sealed? <==> !s.mem.live
  {
    ReachableInvariant(s);
  }

  /** Within one process nothing can take that away: not lost writes, not a
      closed store, not a clear. */
  lemma {:induction false} OneProcessIsSound(s: System, steps: seq<Step>, t: System)
    requires Inv(s) && s.sound && s.exact && s.mem.hydrated && Leads(s, steps, t)
    requires forall i :: 0 <= i < |steps| ==> !steps[i].Restart?
    ensures t.sound && t.exact && t.mem.hydrated
    decreases |steps|
  {
    if steps != [] {
      var s' := Next(s, steps[0]);
      InvariantStep(s, steps[0]);
      HydrationStays(s, steps[0]);
      FlagsStay(s, steps[0]);
      OneProcessIsSound(s', steps[1..], t);
    }
  }

  lemma {:induction false} SectionsLeaveTheFlags(s: System, step: Step)
    requires s.mem.ChannelsOpen() && Enabled(s, step)
    requires step.BeginTurn? || step.LaunchTurn? || step.AgentEvent? || step.FinishRead? || step.FinishWrite? || step.StopRun? || step.ContextSwitch?
    ensures Next(s, step).sound == s.sound && Next(s, step).exact == s.exact
  {
    match step {
      case FinishWrite(failed, outcome, sameContext, accepted) =>
      case _ =>
    }
  }

  lemma {:induction false} FlagsStay(s: System, step: Step)
    requires s.mem.ChannelsOpen() && Enabled(s, step) && !step.Restart? && s.mem.hydrated
    ensures Next(s, step).sound == s.sound && Next(s, step).exact == s.exact
  {
    if step.BeginTurn? || step.LaunchTurn? || step.AgentEvent? || step.FinishRead? || step.FinishWrite? || step.StopRun? || step.ContextSwitch? {
      SectionsLeaveTheFlags(s, step);
    } else if step.LoadInstall? {
      assert Install(s.mem, s.mem.events) == s.mem;
    } else if step.WriterStep? {
    } else {
    }
  }

  /** In every such log a `done` that closes an apply carries a confirmed
      outcome, and a scheduled verification is the very next event. */
  lemma {:induction false} AppliesCloseHonestly(s: System, i: nat)
    requires Reachable(s) && s.sound && s.mem.hydrated && i < |s.mem.events|
    ensures var e := s.mem.events[i].event;
            && (e.Done? && Mode(s.mem.events[..i]) == Open(true) ==> e.outcome.Confirmed?)
            && (e.Terminal() && e.scheduled ==>
                  Mode(s.mem.events[..i]) == Open(true) && i + 1 < |s.mem.events| &&
                  s.mem.events[i + 1].event.Turn? && s.mem.events[i + 1].event.verify && !s.mem.events[i + 1].event.apply)
  {
    ReachableInvariant(s);
    ApplyClosesHonestly(s.mem.events, i);
  }

  /** And the two reach the database in one transaction, with a row that still
      says running. */
  lemma {:induction false} VerificationSharesTheBatch(r: RunState, terminal: StreamEvent)
    requires r.ChannelsOpen() && Owns(r) && r.attached
    ensures FinishApplyAndVerify(r, terminal).writes ==
            [AppendRows([RunEvent(|r.events| + 1, terminal), RunEvent(|r.events| + 2, Turn(false, true, 0))], Some(r.Summary()))]
    ensures r.Summary().status.Running?
  {
    var batch := Number(|r.events|, [terminal, Turn(false, true, 0)]);
    assert batch == [RunEvent(|r.events| + 1, terminal), RunEvent(|r.events| + 2, Turn(false, true, 0))];
  }

  /** What a subscriber was handed is what follows the sequence number it asked
      to continue after, without a gap. */
  ghost predicate FollowsOn(c: Channel, log: seq<RunEvent>) {
    && c.joined <= |log| && c.delivered <= log[c.From()..]
    && (0 <= c.after <= c.joined ==> c.delivered <= log[c.after..])
  }

  /** Every subscriber holds a gap-free stretch of the log from its afterSeq+1.
      An open one has been handed everything; a slow one was cut off. */
  lemma {:induction false} SubscribersSeeNoGap(s: System)
    requires Reachable(s)
    ensures forall id :: id in s.mem.subs ==>
              var c := s.mem.subs[id];
              c.open && FollowsOn(c, s.mem.events) && c.delivered == s.mem.events[c.From()..]
    ensures forall id :: id in s.mem.retired ==> !s.mem.retired[id].open && FollowsOn(s.mem.retired[id], s.mem.events)
  {
    ReachableInvariant(s);
    forall id | id in s.mem.retired ensures FollowsOn(s.mem.retired[id], s.mem.events) {
      assert CutOff(s.mem.retired[id], s.mem.events);
      var c := s.mem.retired[id];
      assert s.mem.events[c.From()..][..|c.delivered|] == s.mem.events[c.From()..c.From() + |c.delivered|];
    }
  }

  /** The session an apply turn opened is never the one follow-ups resume, in
      memory or in the database. */
  lemma {:induction false} WriteSessionsAreNeverResumed(s: System)
    requires Reachable(s)
    ensures s.mem.session.Some? ==> !s.mem.session.value.writeEnabled
    ensures s.db.row.Some? && s.db.row.value.session.Some? ==> !s.db.row.value.session.value.writeEnabled
  {
    ReachableInvariant(s);
  }

  /** A registered run is stale exactly when its subscriber map is gone. */
  lemma {:induction false} StaleMeansFinalized(s: System)
    requires Reachable(s) && s.registered
    ensures s.mem.status.Stale? <==> !s.mem.live
  {
    ReachableInvariant(s);
  }

  // ---------------------------------------------------------------- in the database

  /** With no write lost, memory and the drained database hold the same log and
      the same status. */
  lemma {:induction false} HydratedLogIsTheDurableLog(s: System)
    requires Reachable(s) && s.intact && s.mem.attached && s.mem.hydrated
    ensures LogOf(Drain(s.db, s.queue).table) == Some(s.mem.events)
    ensures Drain(s.db, s.queue).row.Some? && Drain(s.db, s.queue).row.value.status == s.mem.status
  {
    ReachableInvariant(s);
  }

  /** With any batches lost, what can be read back is a prefix of the log or is
      refused. */
  lemma {:induction false} LostWritesYieldAPrefix(s: System)
    requires Reachable(s) && s.exact && s.mem.attached && s.mem.hydrated
    ensures LogOf(s.db.table).Some? ==> LogOf(s.db.table).value <= s.mem.events
  {
    ReachableInvariant(s);
    ReadingYieldsAPrefix(s.db.table, s.mem.events);
  }

  /** Wherever a crash cuts the queue, an open turn is announced by a running status. */
  lemma {:induction false} OpenTurnImpliesRunningRow(s: System)
    requires Reachable(s) && s.intact
    ensures LogOf(s.db.table).Some? && WellFormed(LogOf(s.db.table).value)
    ensures Mode(LogOf(s.db.table).value).Open? ==> s.db.row.Some? && s.db.row.value.status.Running?
  {
    ReachableInvariant(s);
  }

  // ---------------------------------------------------------------- clearing history

  /** ClearHistory spares the durable copy of a run it keeps exactly when that
      run is still running as the delete is queued. */
  lemma {:induction false} ClearSparesExactlyTheStillRunning(s: System)
    requires Reachable(s) && s.intact && s.clearing.Kept? && s.registered && !s.closed
    requires s.mem.ChannelsOpen() && Enabled(s, ClearRequest)
    ensures Agrees(Next(s, ClearRequest)) <==> s.mem.status.Running?
  {
    ReachableInvariant(s);
    DrainOne(s.db, s.queue, ClearTerminal);
  }

  // ---------------------------------------------------------------- where a promise fails

  lemma {:induction false} ReachesOneMore(s: System, steps: seq<Step>, t: System, step: Step)
    requires Leads(s, steps, t) && t.mem.ChannelsOpen() && Enabled(t, step)
    ensures Leads(s, steps + [step], Next(t, step))
    decreases |steps|
  {
    if steps == [] {
      assert ([step])[1..] == [];
    } else {
      assert (steps + [step])[1..] == steps[1..] + [step];
      ReachesOneMore(Next(s, steps[0]), steps[1..], t, step);
    }
  }

  lemma {:induction false} StepReaches(t: System, step: Step)
    requires Reachable(t) && t.mem.ChannelsOpen() && Enabled(t, step)
    ensures Reachable(Next(t, step)) && Next(t, step).mem.ChannelsOpen()
  {
    var attached: bool, accepted: bool, steps: seq<Step> :| Leads(Initial(attached, accepted), steps, t);
    ReachesOneMore(Initial(attached, accepted), steps, t, step);
    ReachableInvariant(t);
    InvariantStep(t, step);
  }

  lemma {:induction false} StartReaches()
    ensures Reachable(Initial(true, true)) && Initial(true, true).mem.ChannelsOpen()
  {
    assert Leads(Initial(true, true), [], Initial(true, true));
  }

  lemma {:induction false} UnwatchedAppend(r: RunState, events: seq<StreamEvent>, persistRow: bool)
    requires r.subs == map[] && r.retired == map[]
    ensures AppendEvents(r, events, persistRow).run == r.(events := r.events + Number(|r.events|, events))
  {
    var batch := Number(|r.events|, events);
    UnwatchedPublish(r.(events := r.events + batch), batch);
  }

  lemma {:induction false} UnwatchedPublish(r: RunState, batch: seq<RunEvent>)
    requires r.subs == map[] && r.retired == map[]
    ensures Publish(r, batch) == r
    decreases |batch|
  {
    if batch != [] {
      assert PublishOne(r, batch[0]) == r;
      UnwatchedPublish(r, batch[1..]);
    }
  }

  function FirstTurn(): RunEvent { RunEvent(1, Turn(false, false, 0)) }

  lemma {:induction false} OneTurnTable()
    ensures LogOf(map[1 := Intact(Turn(false, false, 0))]) == Some([FirstTurn()])
    ensures Mode([FirstTurn()]) == Open(false)
  {
    HeldLogIsRead(map[1 := Intact(Turn(false, false, 0))], [FirstTurn()]);
    ModeOfExtension([], FirstTurn());
    assert [] + [FirstTurn()] == [FirstTurn()];
  }

  lemma {:induction false} ReopenedTable(table: Table)
    requires table == map[1 := Intact(Turn(false, false, 0)), 2 := Intact(Done(NoOutcome, false)), 3 := Intact(Turn(false, false, 0))]
    ensures LogOf(table).Some? && Mode(LogOf(table).value).Open?
  {
    var e2, e3 := RunEvent(2, Done(NoOutcome, false)), RunEvent(3, Turn(false, false, 0));
    OneTurnTable();
    ModeOfExtension([FirstTurn()], e2);
    ModeOfExtension([FirstTurn()] + [e2], e3);
    assert [FirstTurn(), e2, e3] == [FirstTurn()] + [e2] + [e3];
    HeldLogIsRead(table, [FirstTurn(), e2, e3]);
  }

  lemma {:induction false} StartSaved() returns (s: System)
    ensures Reachable(s) && s.mem.ChannelsOpen()
    ensures s == Initial(true, true).(queue := [], db := DurableRun(Some(Row(Running, None)), map[]))
  {
    StartReaches();
    var s0 := Initial(true, true);
    assert s0.queue == [Data(SaveRow(Row(Running, None)))];
    StepReaches(s0, WriterStep(false));
    s := Next(s0, WriterStep(false));
  }

  lemma {:induction false} TurnLaunched(s: System) returns (t: System)
    requires Reachable(s) && s.mem.ChannelsOpen() && s.phase.Reserved? && !s.closed && s.queue == []
    requires s.mem == RunState(Running, None, [], true, true, true, map[], map[], 0, true)
    ensures Reachable(t) && t.mem.ChannelsOpen()
    ensures t == s.(mem := s.mem.(events := [FirstTurn()]), phase := Diagnosing(false), queue := [Data(AppendRows([FirstTurn()], None))])
  {
    StepReaches(s, LaunchTurn(false, false, 0, true));
    t := Next(s, LaunchTurn(false, false, 0, true));
    UnwatchedAppend(s.mem, [Turn(false, false, 0)], false);
    assert Number(0, [Turn(false, false, 0)]) == [FirstTurn()];
  }

  /** A run whose first turn has been recorded, in memory and in the database. */
  lemma {:induction false} TurnRecorded() returns (s: System)
    ensures Reachable(s) && s.mem.ChannelsOpen()
    ensures s.intact && s.registered && !s.closed && s.queue == [] && s.clearing.NotClearing? && s.loads == map[]
    ensures s.phase == Diagnosing(false)
    ensures s.db.table == map[1 := Intact(Turn(false, false, 0))]
    ensures s.db.row.Some? && s.db.row.value == s.mem.Summary()
    ensures s.mem == RunState(Running, None, [RunEvent(1, Turn(false, false, 0))], true, true, true, map[], map[], 0, true)
  {
    var s1 := StartSaved();
    var s2 := TurnLaunched(s1);
    StepReaches(s2, WriterStep(false));
    s := Next(s2, WriterStep(false));
  }

  /** The same run, its turn finished and everything written. */
  lemma {:induction false} TurnFinished(s: System, session: Option<Session>) returns (t: System)
    requires Reachable(s) && s.mem.ChannelsOpen() && !s.closed && s.phase == Diagnosing(false)
    requires s.mem == RunState(Running, None, [RunEvent(1, Turn(false, false, 0))], true, true, true, map[], map[], 0, true)
    requires session.Some? ==> !session.value.writeEnabled
    ensures Reachable(t) && t.mem.ChannelsOpen()
    ensures t == s.(mem := t.mem, phase := Idle, queue := t.queue)
    ensures t.mem == s.mem.(status := Finished, session := session, inFlight := false,
                            events := [RunEvent(1, Turn(false, false, 0)), RunEvent(2, Done(NoOutcome, false))])
    ensures t.queue == s.queue + [Data(AppendRows([RunEvent(2, Done(NoOutcome, false))], Some(Row(Finished, session))))]
  {
    var step := FinishRead(TurnResult(false, session), true);
    StepReaches(s, step);
    t := Next(s, step);
    UnwatchedAppend(s.mem.(status := Finished, session := session), [Done(NoOutcome, false)], true);
    assert Number(1, [Done(NoOutcome, false)]) == [RunEvent(2, Done(NoOutcome, false))];
  }

  const READER := Session("s", false)

  /** A run between turns, able to resume. */
  lemma {:induction false} ReadyForMore() returns (t: System)
    ensures Reachable(t) && t.mem.ChannelsOpen() && t.registered && t.clearing.NotClearing? && !t.closed && t.phase.Idle?
    ensures t.mem == RunState(Finished, Some(READER), [FirstTurn(), RunEvent(2, Done(NoOutcome, false))],
                              true, false, true, map[], map[], 0, true)
  {
    var s := TurnRecorded();
    t := TurnFinished(s, Some(READER));
  }

  lemma {:induction false} FollowUpReserved(s: System) returns (t: System)
    requires Reachable(s) && s.mem.ChannelsOpen() && s.registered && s.clearing.NotClearing? && !s.closed
    requires s.mem.hydrated && !s.mem.inFlight && !s.mem.status.Stale? && s.mem.session.Some?
    ensures Reachable(t) && t.mem.ChannelsOpen() && t.phase.Reserved?
    ensures t == s.(mem := s.mem.(inFlight := true, status := Running), phase := Reserved, queue := t.queue)
  {
    StepReaches(s, BeginTurn(true));
    t := Next(s, BeginTurn(true));
  }

  /** An apply turn of that run that changed nothing. */
  lemma {:induction false} ApplyFailed(s: System) returns (t: System)
    requires Reachable(s) && s.mem.ChannelsOpen() && s.registered && s.clearing.NotClearing? && !s.closed && s.phase.Reserved?
    requires s.mem == RunState(Running, Some(READER), [FirstTurn(), RunEvent(2, Done(NoOutcome, false))],
                               true, true, true, map[], map[], 0, true)
    ensures Reachable(t) && t.mem.ChannelsOpen() && t.registered && t.clearing.NotClearing? && !t.closed
    ensures t.mem == RunState(Errored, Some(READER),
                              [FirstTurn(), RunEvent(2, Done(NoOutcome, false)), RunEvent(3, Turn(true, false, 0)), RunEvent(4, Error(Failed, false))],
                              true, false, true, map[], map[], 0, true)
  {
    var launch := LaunchTurn(true, false, 0, true);
    StepReaches(s, launch);
    var s1 := Next(s, launch);
    UnwatchedAppend(s.mem, [Turn(true, false, 0)], false);
    assert Number(2, [Turn(true, false, 0)]) == [RunEvent(3, Turn(true, false, 0))];
    var finish := FinishWrite(false, Failed, true, true);
    StepReaches(s1, finish);
    t := Next(s1, finish);
    UnwatchedAppend(s1.mem.(status := Errored), [Error(Failed, false)], true);
    assert Number(3, [Error(Failed, false)]) == [RunEvent(4, Error(Failed, false))];
  }

  /** Stop between reserving a follow-up and launching it: the marker still
      speaks of the apply turn before and calls an outcome unknown that the log
      has just declared failed. */
  lemma {:induction false} StopBeforeLaunchMisattributes() returns (s: System, t: System)
    ensures s.mem.ChannelsOpen() && Enabled(s, StopRun(true)) && t == Next(s, StopRun(true)) && Reachable(t)
    ensures s.phase.Reserved? && Mode(s.mem.events).Quiet? && |s.mem.events| == 4 && s.mem.events[3].event == Error(Failed, false)
    ensures t.mem.events == s.mem.events + [RunEvent(5, Error(Unknown, false))]
  {
    var s0 := ReadyForMore();
    var s1 := FollowUpReserved(s0);
    var s2 := ApplyFailed(s1);
    s := FollowUpReserved(s2);
    StepReaches(s, StopRun(true));
    t := Next(s, StopRun(true));
    FailedApplyLog(s.mem.events);
    UnwatchedAppend(s.mem.(status := Stopped), [Error(Unknown, false)], true);
    assert Number(4, [Error(Unknown, false)]) == [RunEvent(5, Error(Unknown, false))];
  }

  lemma {:induction false} FailedApplyLog(log: seq<RunEvent>)
    requires log == [FirstTurn(), RunEvent(2, Done(NoOutcome, false)), RunEvent(3, Turn(true, false, 0)), RunEvent(4, Error(Failed, false))]
    ensures Mode(log).Quiet? && LastTurnApplies(log)
  {
    var e2, e3, e4 := RunEvent(2, Done(NoOutcome, false)), RunEvent(3, Turn(true, false, 0)), RunEvent(4, Error(Failed, false));
    OneTurnTable();
    ModeOfExtension([FirstTurn()], e2);
    ModeOfExtension([FirstTurn()] + [e2], e3);
    ModeOfExtension([FirstTurn()] + [e2] + [e3], e4);
    assert log == [FirstTurn()] + [e2] + [e3] + [e4];
    assert log[..3] == [FirstTurn()] + [e2] + [e3];
    assert LastTurn(log[..3]) == Some(Turn(true, false, 0));
  }

  /** ClearHistory keeps a running run, but if its turn ends before the delete
      is queued, the kept run's rows are deleted: memory still lists it with
      its transcript while the database holds nothing of it. */
  lemma {:induction false} ClearLosesAKeptRun() returns (t: System)
    ensures Reachable(t) && t.registered && t.mem.attached && t.mem.hydrated && t.queue == []
    ensures |t.mem.events| == 2 && t.db == DurableRun(None, map[])
  {
    var s0 := TurnRecorded();
    StepReaches(s0, ClearKeep);
    var s1 := Next(s0, ClearKeep);
    var s2 := TurnFinished(s1, None);
    StepReaches(s2, ClearRequest);
    var s3 := Next(s2, ClearRequest);
    t := AppendThenClear(s3);
  }

  lemma {:induction false} AppendThenClear(s: System) returns (t: System)
    requires Reachable(s) && s.mem.ChannelsOpen() && |s.queue| == 2 && s.queue[1].ClearTerminal?
    requires s.queue[0].Data? && s.queue[0].write.AppendRows?
    requires s.queue[0].write.summary.Some? && !s.queue[0].write.summary.value.status.Running?
    ensures Reachable(t) && t.registered == s.registered && t.mem == s.mem && t.queue == []
    ensures t.db == DurableRun(None, map[])
  {
    StepReaches(s, WriterStep(false));
    var s1 := Next(s, WriterStep(false));
    assert s1.queue == [ClearTerminal];
    StepReaches(s1, WriterStep(false));
    t := Next(s1, WriterStep(false));
  }

  /** A run found open after a restart, whose repair is still queued. */
  lemma {:induction false} InterruptedAndReloaded() returns (t: System)
    ensures Reachable(t) && t.mem.ChannelsOpen() && t.intact && !t.closed && t.loads == map[]
    ensures t.mem == RunState(Errored, None, [], false, false, true, map[], map[], 0, true)
    ensures t.phase.Idle? && t.db.table == map[1 := Intact(Turn(false, false, 0))] && |t.queue| == 1 && t.queue[0].Data?
  {
    var s := TurnRecorded();
    StepReaches(s, Restart(true, false, true));
    t := Next(s, Restart(true, false, true));
  }

  lemma {:induction false} Fetches(s: System, log: seq<RunEvent>, drained: bool) returns (t: System)
    requires Reachable(s) && s.mem.ChannelsOpen()
    requires s.loads == map[0 := Ready(drained)] && LogOf(s.db.table) == Some(log)
    ensures Reachable(t) && t.mem.ChannelsOpen() && t == s.(loads := map[0 := Fetched(Some(log), drained)])
  {
    StepReaches(s, LoadFetch(0, true));
    t := Next(s, LoadFetch(0, true));
  }

  lemma {:induction false} Installs(s: System, log: seq<RunEvent>, drained: bool) returns (t: System)
    requires Reachable(s) && s.mem.ChannelsOpen() && !s.mem.hydrated && s.mem.live && s.mem.attached
    requires s.loads == map[0 := Fetched(Some(log), drained)]
    ensures Reachable(t) && t.mem.ChannelsOpen()
    ensures t == s.(mem := s.mem.(events := log, hydrated := true), loads := map[],
                    intact := s.intact && drained, sound := s.intact && drained, exact := drained)
  {
    StepReaches(s, LoadInstall(0));
    t := Next(s, LoadInstall(0));
    assert map[0 := Fetched(Some(log), drained)] - {0} == map[];
  }

  /** A read that is due runs and installs what it finds. */
  lemma {:induction false} ReadAndInstalled(s: System, log: seq<RunEvent>, drained: bool) returns (t: System)
    requires Reachable(s) && s.mem.ChannelsOpen() && !s.mem.hydrated && s.mem.live && s.mem.attached
    requires s.loads == map[0 := Ready(drained)] && LogOf(s.db.table) == Some(log)
    ensures Reachable(t) && t.mem.ChannelsOpen()
    ensures t == s.(mem := s.mem.(events := log, hydrated := true), loads := map[],
                    intact := s.intact && drained, sound := s.intact && drained, exact := drained)
  {
    var s1 := Fetches(s, log, drained);
    t := Installs(s1, log, drained);
  }

  /** A hydrating read that finds the store already closed runs no barrier: it
      can install a transcript whose last turn is still open although the run
      is over and its closing marker is queued. */
  lemma {:induction false} ClosedStoreHydratesTooEarly() returns (t: System)
    ensures Reachable(t) && t.mem.hydrated && t.mem.attached
    ensures t.mem.events == [RunEvent(1, Turn(false, false, 0))] && !t.mem.status.Running?
    ensures !InGrammar(t.mem, t.phase) && !t.intact
  {
    var s0 := InterruptedAndReloaded();
    StepReaches(s0, CloseStore);
    var s1 := Next(s0, CloseStore);
    StepReaches(s1, LoadBegin(0));
    var s2 := Next(s1, LoadBegin(0));
    OneTurnTable();
    t := ReadAndInstalled(s2, [FirstTurn()], false);
  }

  /** With a drained read and no lost write, hydration installs exactly the
      durable log, whatever happened between the read and the install. */
  lemma {:induction false} DrainedHydrationIsExact(s: System, token: nat)
    requires Reachable(s) && s.intact && token in s.loads && s.loads[token].Fetched? && s.loads[token].drained
    requires s.mem.ChannelsOpen() && Enabled(s, LoadInstall(token)) && !s.mem.hydrated
    ensures var s' := Next(s, LoadInstall(token));
            s'.mem.hydrated ==> LogOf(Drain(s.db, s.queue).table) == Some(s'.mem.events) && s'.intact && s'.sound
  {
    ReachableInvariant(s);
    var s' := Next(s, LoadInstall(token));
    if s'.mem.hydrated {
      assert LoadIsCurrent(s, s.loads[token]);
      InstallIsExact(s, s.loads[token]);
    }
  }

  lemma {:induction false} FinishedAndWritten() returns (t: System)
    ensures Reachable(t) && t.mem.ChannelsOpen() && t.registered && t.clearing.NotClearing? && !t.closed
    ensures t.queue == [] && t.phase.Idle?
    ensures t.mem == RunState(Finished, Some(Session("s", false)), [FirstTurn(), RunEvent(2, Done(NoOutcome, false))],
                              true, false, true, map[], map[], 0, true)
    ensures t.db == DurableRun(Some(t.mem.Summary()),
                               map[1 := Intact(Turn(false, false, 0)), 2 := Intact(Done(NoOutcome, false))])
  {
    var s0 := TurnRecorded();
    var s1 := TurnFinished(s0, Some(Session("s", false)));
    StepReaches(s1, WriterStep(false));
    t := Next(s1, WriterStep(false));
  }

  lemma {:induction false} ReopenedUnsaved(s: System) returns (t: System)
    requires Reachable(s) && s.mem.ChannelsOpen() && s.registered && s.clearing.NotClearing? && !s.closed
    requires s.queue == [] && s.phase.Idle? && s.mem.status != Stale
    requires s.mem == RunState(s.mem.status, Some(READER), [FirstTurn(), RunEvent(2, Done(NoOutcome, false))],
                               true, false, true, map[], map[], 0, true)
    ensures Enabled(s, BeginTurn(false)) && Next(s, BeginTurn(false)).mem.ChannelsOpen()
    ensures Enabled(Next(s, BeginTurn(false)), LaunchTurn(false, false, 0, true))
    ensures t == Next(Next(s, BeginTurn(false)), LaunchTurn(false, false, 0, true))
    ensures Reachable(t) && t.mem.ChannelsOpen() && !t.intact && t.db == s.db
    ensures t.queue == [Data(AppendRows([RunEvent(3, Turn(false, false, 0))], None))]
  {
    StepReaches(s, BeginTurn(false));
    var s1 := Next(s, BeginTurn(false));
    StepReaches(s1, LaunchTurn(false, false, 0, true));
    t := Next(s1, LaunchTurn(false, false, 0, true));
    assert Number(2, [Turn(false, false, 0)]) == [RunEvent(3, Turn(false, false, 0))];
  }

  lemma {:induction false} ReopeningWritten(s: System) returns (t: System)
    requires Reachable(s) && s.mem.ChannelsOpen() && s.queue == [Data(AppendRows([RunEvent(3, Turn(false, false, 0))], None))]
    requires s.db.table == map[1 := Intact(Turn(false, false, 0)), 2 := Intact(Done(NoOutcome, false))]
    ensures Reachable(t) && t == Next(s, WriterStep(false)) && t.intact == s.intact && t.db.row == s.db.row
    ensures LogOf(t.db.table).Some? && Mode(LogOf(t.db.table).value).Open?
  {
    StepReaches(s, WriterStep(false));
    t := Next(s, WriterStep(false));
    assert t.db.table == s.db.table[3 := Intact(Turn(false, false, 0))];
    ReopenedTable(t.db.table);
  }

  /** Recovery reads the status column, so it depends on the running status
      being saved: if that one write is refused, a crash can leave an open turn
      that no restart repairs. */
  lemma {:induction false} RefusedSaveLeavesAnOpenTurn() returns (t: System)
    ensures Reachable(t) && !t.intact
    ensures LogOf(t.db.table).Some? && Mode(LogOf(t.db.table).value).Open?
    ensures t.db.row.Some? && !t.db.row.value.status.Running?
  {
    var s0 := FinishedAndWritten();
    var s1 := ReopenedUnsaved(s0);
    t := ReopeningWritten(s1);
  }

  /** A run that reserved another turn and had that saved. */
  lemma {:induction false} ReservationSaved() returns (t: System)
    ensures Reachable(t) && t.mem.ChannelsOpen()
    ensures t.db == DurableRun(Some(Row(Running, Some(READER))), map[1 := Intact(Turn(false, false, 0)), 2 := Intact(Done(NoOutcome, false))])
  {
    var s0 := FinishedAndWritten();
    StepReaches(s0, BeginTurn(true));
    var s1 := Next(s0, BeginTurn(true));
    assert s1.queue == [Data(SaveRow(Row(Running, Some(READER))))];
    StepReaches(s1, WriterStep(false));
    t := Next(s1, WriterStep(false));
  }

  /** A run left saying running between two turns, its repair lost, its log read back. */
  lemma {:induction false} LeftRunning() returns (t: System)
    ensures Reachable(t) && t.mem.ChannelsOpen() && t.registered && t.clearing.NotClearing? && !t.closed && t.phase.Idle? && t.queue == []
    ensures t.mem == RunState(Errored, Some(READER), [FirstTurn(), RunEvent(2, Done(NoOutcome, false))], true, false, true, map[], map[], 0, true)
    ensures t.db == DurableRun(Some(Row(Running, Some(READER))), map[1 := Intact(Turn(false, false, 0)), 2 := Intact(Done(NoOutcome, false))])
  {
    var s := ReservationSaved();
    StepReaches(s, Restart(true, false, false));
    t := LogReadBack(Next(s, Restart(true, false, false)));
  }

  lemma {:induction false} BarrierPassed(s: System) returns (t: System)
    requires Reachable(s) && s.mem.ChannelsOpen() && !s.mem.hydrated && s.mem.attached && !s.closed && s.queue == [] && s.loads == map[]
    ensures Reachable(t) && t.mem.ChannelsOpen() && t == s.(loads := map[0 := Ready(true)])
  {
    StepReaches(s, LoadBegin(0));
    var s1 := Next(s, LoadBegin(0));
    assert s1.queue == [Barrier(0)];
    StepReaches(s1, WriterStep(false));
    t := Next(s1, WriterStep(false));
  }

  lemma {:induction false} LogReadBack(s: System) returns (t: System)
    requires Reachable(s) && s.mem.ChannelsOpen() && !s.mem.hydrated && s.mem.live && s.mem.attached && s.mem.events == []
    requires !s.closed && s.queue == [] && s.loads == map[]
    requires s.db.table == map[1 := Intact(Turn(false, false, 0)), 2 := Intact(Done(NoOutcome, false))]
    ensures Reachable(t) && t.mem.ChannelsOpen()
    ensures t == s.(mem := s.mem.(events := [FirstTurn(), RunEvent(2, Done(NoOutcome, false))], hydrated := true),
                    intact := t.intact, sound := t.sound, exact := t.exact)
  {
    HeldLogIsRead(s.db.table, [FirstTurn(), RunEvent(2, Done(NoOutcome, false))]);
    var s1 := BarrierPassed(s);
    t := ReadAndInstalled(s1, [FirstTurn(), RunEvent(2, Done(NoOutcome, false))], true);
  }

  lemma {:induction false} ThreeStepsLead(s0: System, a: Step, s1: System, b: Step, s2: System, c: Step, s3: System)
    requires s0.mem.ChannelsOpen() && Enabled(s0, a) && s1 == Next(s0, a)
    requires s1.mem.ChannelsOpen() && Enabled(s1, b) && s2 == Next(s1, b)
    requires s2.mem.ChannelsOpen() && Enabled(s2, c) && s3 == Next(s2, c)
    ensures Leads(s0, [a, b, c], s3)
  {
    assert Leads(s0, [], s0);
    ReachesOneMore(s0, [], s0, a);
    ReachesOneMore(s0, [] + [a], s1, b);
    ReachesOneMore(s0, [] + [a] + [b], s2, c);
    assert [] + [a] + [b] + [c] == [a, b, c];
  }

  lemma {:induction false} FinishedLogIsQuiet(log: seq<RunEvent>)
    requires log == [FirstTurn(), RunEvent(2, Done(NoOutcome, false))]
    ensures Mode(log).Quiet?
  {
    OneTurnTable();
    ModeOfExtension([FirstTurn()], RunEvent(2, Done(NoOutcome, false)));
    assert log == [FirstTurn()] + [RunEvent(2, Done(NoOutcome, false))];
  }

  /** A lost save need not hide its turn: here the row that an earlier process
      left running, its repair lost, stands in for it. */
  lemma {:induction false} LeftoverRowStandsIn() returns (s: System, t: System)
    ensures Reachable(s) && s.phase.Idle? && Mode(s.mem.events).Quiet? && s.queue == []
    ensures Leads(s, [BeginTurn(false), LaunchTurn(false, false, 0, true), WriterStep(false)], t)
    ensures LogOf(t.db.table).Some? && Mode(LogOf(t.db.table).value).Open?
    ensures t.db.row.Some? && t.db.row.value.status.Running?
  {
    s := LeftRunning();
    FinishedLogIsQuiet(s.mem.events);
    var s2 := ReopenedUnsaved(s);
    var s1 := Next(s, BeginTurn(false));
    t := ReopeningWritten(s2);
    ThreeStepsLead(s, BeginTurn(false), s1, LaunchTurn(false, false, 0, true), s2, WriterStep(false), t);
  }
}
