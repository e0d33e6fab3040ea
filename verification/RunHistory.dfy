/** Runs of the protocol with the notes a caller of the store could keep: which
    saves were lost, which row was written last, which reads came too early. */
module RunHistory {
  import opened Wrappers
  import opened RunEvents
  import opened RunSpec
  import opened DurableLog
  import opened RunProtocol
  import opened RunMemory
  import opened RunGrammar
  import opened RunDurability
  import opened RunSafety
  import opened RunInvariant
  import L = RunLedger

  datatype History = History(
    sys: System,
    stored: bool,                // the manager has a store
    tags: seq<nat>,
    saves: map<nat, L.Fate>,
    wrote: Option<nat>,
    leftover: bool,
    behind: set<nat>)            // reads that ran while an append of the run was queued

  predicate Awaiting(s: System) { s.phase.Reserved? && s.mem.status.Running? }

  function LedgerOf(h: History): L.Ledger {
    var s := h.sys;
    L.Ledger(s.db, s.queue, h.tags, h.saves, h.wrote, h.leftover,
             |s.mem.events|, s.mem.hydrated && s.exact, Awaiting(s), s.mem.live)
  }

  // ---------------------------------------------------------------- keeping notes

  /** Steps that run one of the run's own sections. */
  predicate IsSection(step: Step) {
    step.BeginTurn? || step.LaunchTurn? || step.AgentEvent? || step.FinishRead? || step.FinishWrite? || step.StopRun? || step.ContextSwitch?
  }

  function SectionEffect(s: System, step: Step): Effect
    requires s.mem.ChannelsOpen() && Enabled(s, step) && IsSection(step)
  {
    match step
    case BeginTurn(_) => Begin(s.mem, true).value
    case LaunchTurn(apply, verify, explain, _) => Launch(s.mem, Turn(apply, verify, explain))
    case AgentEvent(event, _) => Stream(s.mem, event)
    case FinishRead(result, _) => FinishTurn(s.mem, result, false)
    case FinishWrite(failed, outcome, sameContext, _) =>
      var (verify, terminal) := AfterApply(failed, outcome, sameContext);
      if verify then FinishApplyAndVerify(s.mem, terminal) else FinishApply(s.mem, terminal)
    case StopRun(_) => Interrupt(s.mem)
    case ContextSwitch(_) => MarkStale(s.mem)
  }

  function SectionPhase(s: System, step: Step): Phase
    requires s.mem.ChannelsOpen() && Enabled(s, step) && IsSection(step)
  {
    match step
    case BeginTurn(_) => Reserved
    case LaunchTurn(apply, _, _, _) => if Owns(s.mem) then Diagnosing(apply) else Idle
    case FinishRead(_, _) => Idle
    case FinishWrite(failed, outcome, sameContext, _) =>
      if AfterApply(failed, outcome, sameContext).0 && Owns(s.mem) then Diagnosing(false) else Idle
    case _ => s.phase
  }

  lemma {:induction false} SectionCommits(s: System, step: Step)
    requires s.mem.ChannelsOpen() && Enabled(s, step) && IsSection(step)
    ensures Next(s, step) == Commit(s, SectionEffect(s, step), SectionPhase(s, step), step.accepted)
  {
    match step {
      case FinishWrite(failed, outcome, sameContext, accepted) =>
      case _ =>
    }
  }

  predicate HasAppend(queue: seq<Op>) { exists i :: 0 <= i < |queue| && L.IsAppend(queue[i]) }

  /** The turn a step announces: one it reserves, or the verification that
      follows an apply. */
  function AnnouncedBy(s: System, step: Step, s': System): Option<nat> {
    if step.BeginTurn? then Some(|s.mem.events| + 1)
    else if step.FinishWrite? && |s'.mem.events| == |s.mem.events| + 2 then Some(|s.mem.events| + 2)
    else None
  }

  function Tagged(tags: seq<nat>, before: nat, s': System): seq<nat> {
    if |s'.queue| > before then tags + [|s'.mem.events|]
    else if |s'.queue| < before && tags != [] then tags[1..]
    else tags
  }

  function SavesAfter(h: History, step: Step, s': System): map<nat, L.Fate>
    requires |h.tags| == |h.sys.queue| && (step.WriterStep? ==> h.sys.queue != [])
  {
    var (s, key) := (h.sys, AnnouncedBy(h.sys, step, s'));
    if step.Restart? then L.Forgotten(h.saves)
    else if step.WriterStep? then L.Take(LedgerOf(h), step.fails).saves
    else if key.Some? && s.mem.hydrated && s.exact && (step.BeginTurn? || step.FinishWrite?)
    then h.saves[key.value := if step.accepted then L.Pending else L.Lost]
    else h.saves
  }

  function Behind(h: History, step: Step): set<nat>
    requires step.WriterStep? ==> h.sys.queue != []
  {
    match step
    case LoadFetch(token, readable) =>
      if HasAppend(h.sys.queue) then h.behind + {token} else h.behind - {token}
    case LoadBegin(token) => h.behind - {token}
    case LoadInstall(token) => h.behind - {token}
    case WriterStep(fails) => if fails && L.IsAppend(h.sys.queue[0]) then {} else h.behind
    case Restart(_, _, _) => {}
    case _ => h.behind
  }

  /** The notes once the step has led to `s'`. */
  function Note(h: History, step: Step, s': System): History
    requires |h.tags| == |h.sys.queue| && (step.WriterStep? ==> h.sys.queue != [])
  {
    var (wrote, leftover) :=
      if step.Restart? then (None, L.SaysRunning(h.sys.db))
      else if step.WriterStep? then (L.Take(LedgerOf(h), step.fails).wrote, L.Take(LedgerOf(h), step.fails).leftover)
      else if s'.db != h.sys.db then (None, false) // a clear took the rows
      else (h.wrote, h.leftover);
    History(s', h.stored,
            if step.Restart? then seq(|s'.queue|, _ => 0) else Tagged(h.tags, |h.sys.queue|, s'),
            SavesAfter(h, step, s'), wrote, leftover, Behind(h, step))
  }

  function After(h: History, step: Step): History
    requires h.sys.mem.ChannelsOpen() && Enabled(h.sys, step) && |h.tags| == |h.sys.queue|
  {
    Note(h, step, Next(h.sys, step))
  }

  function Opened(stored: bool, accepted: bool): History {
    var s := Initial(stored, accepted);
    var l := L.Opening(stored, accepted, s.mem.Summary());
    History(s, stored, l.tags, l.saves, l.wrote, l.leftover, {})
  }

  // ---------------------------------------------------------------- invariant

  /** A log read past a closed queue is never written on. */
  ghost predicate Locked(s: System) {
    && (s.registered ==> s.mem.attached)
    && (s.mem.hydrated && !s.exact && s.mem.live ==> s.closed)
    && (forall t :: t in s.loads && !s.loads[t].Waiting? && !s.loads[t].drained ==> s.closed)
  }

  /** Without a store there is nothing to note. */
  ghost predicate Storeless(h: History) {
    !h.sys.mem.attached && h.sys.queue == [] && h.tags == [] && h.sys.db == DurableRun(None, map[])
  }

  ghost predicate HistoryInv(h: History) {
    Inv(h.sys) && if h.stored then L.LedgerInv(LedgerOf(h)) && Locked(h.sys) else Storeless(h)
  }

  // ---------------------------------------------------------------- sections

  /** A section that writes nothing leaves the log alone and releases, at most,
      a reservation that could no longer be launched. */
  lemma {:induction false} QuietSection(s: System, step: Step)
    requires RunInv(s.mem, s.phase, s.registered) && Enabled(s, step) && IsSection(step)
    requires (s.mem.live ==> s.mem.attached) && SectionEffect(s, step).writes == []
    ensures SectionEffect(s, step).run == s.mem.(inFlight := SectionEffect(s, step).run.inFlight)
    ensures Awaiting(Next(s, step)) == Awaiting(s)
  {
    SectionCommits(s, step);
    match step {
      case FinishRead(result, accepted) =>
      case FinishWrite(failed, outcome, sameContext, accepted) =>
      case ContextSwitch(accepted) =>
      case _ =>
    }
  }

  /** Any other section but a reservation appends what it records. */
  ghost predicate Appends(r: RunState, e: Effect, reserved: bool, events: seq<StreamEvent>, row: Option<Row>) {
    && e.writes == [AppendRows(Number(|r.events|, events), row)]
    && |e.run.events| == |r.events| + |events| && L.Section(events, row, reserved, e.run.live)
  }

  /** Only the end of an apply announces a turn, and then by its second event. */
  predicate Announces(step: Step, events: seq<StreamEvent>, row: Option<Row>) {
    step.FinishWrite? && |events| == 2 <==> row.Some? && row.value.status.Running?
  }

  ghost predicate Writes(s: System, step: Step, e: Effect) {
    exists events, row :: Appends(s.mem, e, Awaiting(s), events, row) && Announces(step, events, row)
  }

  lemma {:induction false} LaunchWrites(s: System, step: Step, turn: StreamEvent)
    requires s.mem.ChannelsOpen() && Launch(s.mem, turn).writes != [] && turn.Turn? && s.phase.Reserved? && step.LaunchTurn?
    ensures Writes(s, step, Launch(s.mem, turn))
  {
    assert Appends(s.mem, Launch(s.mem, turn), Awaiting(s), [turn], None);
    assert Announces(step, [turn], None);
  }

  lemma {:induction false} StreamWrites(s: System, step: Step, event: StreamEvent)
    requires s.mem.ChannelsOpen() && Stream(s.mem, event).writes != [] && event.Progress() && !s.phase.Reserved? && step.AgentEvent?
    ensures Writes(s, step, Stream(s.mem, event))
  {
    assert Appends(s.mem, Stream(s.mem, event), Awaiting(s), [event], None);
    assert Announces(step, [event], None);
  }

  lemma {:induction false} FinishWrites(s: System, step: Step, result: TurnResult)
    requires s.mem.ChannelsOpen() && FinishTurn(s.mem, result, false).writes != [] && step.FinishRead?
    ensures Writes(s, step, FinishTurn(s.mem, result, false))
    ensures !FinishTurn(s.mem, result, false).run.status.Running?
  {
    var session := if result.session.Some? then result.session else s.mem.session;
    var terminal := if result.failed then Error(NoOutcome, false) else Done(NoOutcome, false);
    var row := if result.failed then Row(Errored, s.mem.session) else Row(Finished, session);
    assert Appends(s.mem, FinishTurn(s.mem, result, false), Awaiting(s), [terminal], Some(row));
    assert Announces(step, [terminal], Some(row));
  }

  lemma {:induction false} ApplyWrites(s: System, step: Step, failed: bool, outcome: Outcome, sameContext: bool)
    requires s.mem.ChannelsOpen() && !s.phase.Reserved? && step.FinishWrite?
    ensures var (verify, terminal) := AfterApply(failed, outcome, sameContext);
            var e := if verify then FinishApplyAndVerify(s.mem, terminal) else FinishApply(s.mem, terminal);
            e.writes != [] ==> Writes(s, step, e)
  {
    var (verify, terminal) := AfterApply(failed, outcome, sameContext);
    if Owns(s.mem) && s.mem.attached {
      if verify {
        var events, row := [terminal, Turn(false, true, 0)], Some(s.mem.Summary());
        assert Appends(s.mem, FinishApplyAndVerify(s.mem, terminal), Awaiting(s), events, row);
        assert Announces(step, events, row);
      } else {
        var row := Some(Row(Errored, s.mem.session));
        assert Appends(s.mem, FinishApply(s.mem, terminal), Awaiting(s), [terminal], row);
        assert Announces(step, [terminal], row);
      }
    }
  }

  lemma {:induction false} StopWrites(s: System, step: Step)
    requires s.mem.ChannelsOpen() && Interrupt(s.mem).writes != [] && step.StopRun?
    ensures Writes(s, step, Interrupt(s.mem))
    ensures !Interrupt(s.mem).run.status.Running?
  {
    var marker, row := Error(InterruptionOutcome(s.mem), false), Some(Row(Stopped, s.mem.session));
    assert Appends(s.mem, Interrupt(s.mem), Awaiting(s), [marker], row);
    assert Announces(step, [marker], row);
  }

  lemma {:induction false} StaleWrites(s: System, step: Step)
    requires s.mem.ChannelsOpen() && MarkStale(s.mem).writes != [] && s.mem.hydrated && step.ContextSwitch?
    ensures Writes(s, step, MarkStale(s.mem))
    ensures !MarkStale(s.mem).run.status.Running?
  {
    var events, row := [Error(InterruptionOutcome(s.mem), false), Closed], Some(Row(Stale, s.mem.session));
    assert Appends(s.mem, MarkStale(s.mem), Awaiting(s), events, row);
    assert Announces(step, events, row);
  }

  lemma {:induction false} WritingSection(s: System, step: Step)
    requires RunInv(s.mem, s.phase, s.registered) && s.mem.hydrated && Enabled(s, step) && IsSection(step) && !step.BeginTurn?
    requires SectionEffect(s, step).writes != []
    ensures Writes(s, step, SectionEffect(s, step)) && !Awaiting(Next(s, step)) && s.mem.live
  {
    SectionCommits(s, step);
    match step {
      case LaunchTurn(apply, verify, explain, accepted) => LaunchWrites(s, step, Turn(apply, verify, explain));
      case AgentEvent(event, accepted) => StreamWrites(s, step, event);
      case FinishRead(result, accepted) => FinishWrites(s, step, result);
      case FinishWrite(failed, outcome, sameContext, accepted) => ApplyWrites(s, step, failed, outcome, sameContext);
      case StopRun(accepted) => StopWrites(s, step);
      case ContextSwitch(accepted) => StaleWrites(s, step);
    }
  }

  // ---------------------------------------------------------------- every step is an action of the ledger

  /** A section has run: memory is what the section made of it, and its write,
      if it was accepted, is queued. */
  ghost predicate Ran(s: System, e: Effect, accepted: bool, s': System) {
    && |e.writes| <= 1 && s'.db == s.db && s'.exact == s.exact && s'.mem == e.run
    && s'.queue == (if accepted && e.writes != [] then s.queue + [Data(e.writes[0])] else s.queue)
    && e.run.hydrated == s.mem.hydrated && (e.run.live ==> s.mem.live)
  }

  lemma {:induction false} SectionKeepsHydration(s: System, step: Step)
    requires s.mem.ChannelsOpen() && Enabled(s, step) && IsSection(step)
    ensures SectionEffect(s, step).run.hydrated == s.mem.hydrated
    ensures SectionEffect(s, step).run.live ==> s.mem.live
  {
    match step {
      case FinishWrite(failed, outcome, sameContext, accepted) =>
      case _ =>
    }
  }

  lemma {:induction false} SectionRuns(s: System, step: Step)
    requires s.mem.ChannelsOpen() && Enabled(s, step) && IsSection(step) && |SectionEffect(s, step).writes| <= 1
    ensures Ran(s, SectionEffect(s, step), step.accepted, Next(s, step))
  {
    var e := SectionEffect(s, step);
    SectionCommits(s, step);
    SectionKeepsHydration(s, step);
    if e.writes != [] { assert Wrap(e.writes) == [Data(e.writes[0])]; }
  }

  lemma {:induction false} ReservingIsNoted(h: History, step: Step, e: Effect, s': System)
    requires |h.tags| == |h.sys.queue| && step.BeginTurn? && Ran(h.sys, e, step.accepted, s')
    requires h.sys.mem.hydrated && h.sys.exact && h.sys.mem.live && Awaiting(s')
    requires e.writes == [SaveRow(e.run.Summary())] && e.run.events == h.sys.mem.events && e.run.live
    ensures LedgerOf(Note(h, step, s')) == L.Reserve(LedgerOf(h), e.run.Summary(), step.accepted)
  {
  }

  lemma {:induction false} AppendingIsNoted(h: History, step: Step, e: Effect, s': System, events: seq<StreamEvent>, row: Option<Row>)
    requires |h.tags| == |h.sys.queue| && IsSection(step) && !step.BeginTurn? && Ran(h.sys, e, step.accepted, s')
    requires h.sys.mem.hydrated && h.sys.exact && h.sys.mem.live && !Awaiting(s')
    requires Appends(h.sys.mem, e, Awaiting(h.sys), events, row)
    requires Announces(step, events, row)
    ensures LedgerOf(Note(h, step, s')) == L.Append(LedgerOf(h), events, row, step.accepted, e.run.live)
  {
  }

  lemma {:induction false} QuietIsNoted(h: History, step: Step, s': System)
    requires |h.tags| == |h.sys.queue| && !step.WriterStep? && !step.Restart? && !step.BeginTurn?
    requires s'.db == h.sys.db && s'.queue == h.sys.queue && s'.exact == h.sys.exact
    requires s'.mem.events == h.sys.mem.events && s'.mem.live == h.sys.mem.live && s'.mem.hydrated == h.sys.mem.hydrated
    requires Awaiting(s') == Awaiting(h.sys)
    ensures LedgerOf(Note(h, step, s')) == LedgerOf(h)
  {
  }

  /** A log that was read past a closed queue: every further write is refused. */
  lemma {:induction false} RefusedIsNoted(h: History, step: Step, e: Effect, s': System)
    requires |h.tags| == |h.sys.queue| && IsSection(step) && Ran(h.sys, e, false, s') && !(h.sys.mem.hydrated && h.sys.exact)
    ensures LedgerOf(Note(h, step, s')) ==
            LedgerOf(h).(len := |e.run.events|, reserved := Awaiting(s'), live := e.run.live)
  {
  }

  lemma {:induction false} MarkingIsNoted(h: History, step: Step, e: Effect, s': System)
    requires |h.tags| == |h.sys.queue| && step.ContextSwitch? && Ran(h.sys, e, true, s') && e.writes != []
    requires !h.sys.mem.hydrated && !e.run.live && |e.run.events| == |h.sys.mem.events| && Awaiting(s') == Awaiting(h.sys)
    ensures LedgerOf(Note(h, step, s')) == L.Mark(LedgerOf(h), Data(e.writes[0]), false)
  {
  }

  lemma {:induction false} SectionWritesOnce(s: System, step: Step)
    requires RunInv(s.mem, s.phase, s.registered) && Enabled(s, step) && IsSection(step)
    ensures |SectionEffect(s, step).writes| <= 1
    ensures !s.mem.live && !step.BeginTurn? ==> SectionEffect(s, step).writes == []
    ensures !s.mem.hydrated ==> SectionEffect(s, step).writes == [] || step.ContextSwitch?
    ensures step.BeginTurn? ==> s.mem.hydrated && s.mem.live
  {
    match step {
      case FinishRead(result, accepted) =>
      case FinishWrite(failed, outcome, sameContext, accepted) =>
      case ContextSwitch(accepted) =>
      case _ =>
    }
  }

  lemma {:induction false} StaleMarks(s: System)
    requires RunInv(s.mem, s.phase, s.registered) && !s.mem.hydrated && MarkStale(s.mem).writes != []
    ensures var e := MarkStale(s.mem);
            && L.IsMark(Data(e.writes[0])) && L.WriteShape(e.writes[0]) && s.mem.live && !e.run.live
            && e.run.events == s.mem.events && !e.run.status.Running? && !Awaiting(s)
  {
  }

  lemma {:induction false} WriteIsNoted(h: History, step: Step, e: Effect, s': System)
    requires |h.tags| == |h.sys.queue| && IsSection(step) && !step.BeginTurn? && Ran(h.sys, e, step.accepted, s')
    requires h.sys.mem.hydrated && h.sys.exact && h.sys.mem.live && !Awaiting(s') && Writes(h.sys, step, e)
    ensures L.Follows(LedgerOf(h), LedgerOf(Note(h, step, s')))
  {
    var events, row :| Appends(h.sys.mem, e, Awaiting(h.sys), events, row) && Announces(step, events, row);
    AppendingIsNoted(h, step, e, s', events, row);
    L.ActionFollows(LedgerOf(h), L.Appending(events, row, step.accepted, e.run.live));
  }

  lemma {:induction false} SectionIsNoted(h: History, step: Step)
    requires RunInv(h.sys.mem, h.sys.phase, h.sys.registered) && Locked(h.sys) && |h.tags| == |h.sys.queue|
    requires Enabled(h.sys, step) && IsSection(step)
    ensures L.Follows(LedgerOf(h), LedgerOf(Note(h, step, Next(h.sys, step))))
  {
    var s, l, e, s' := h.sys, LedgerOf(h), SectionEffect(h.sys, step), Next(h.sys, step);
    SectionWritesOnce(s, step);
    SectionRuns(s, step);
    if e.writes == [] {
      QuietSection(s, step);
      QuietIsNoted(h, step, s');
    } else if s.mem.hydrated && s.exact {
      if step.BeginTurn? {
        ReservingIsNoted(h, step, e, s');
        L.ActionFollows(l, L.Reserving(e.run.Summary(), step.accepted));
      } else {
        WritingSection(s, step);
        WriteIsNoted(h, step, e, s');
      }
    } else if !step.accepted {
      RefusedIsNoted(h, step, e, s');
      L.ActionFollows(l, L.Drifting(|e.run.events|, Awaiting(s'), e.run.live));
    } else {
      StaleMarks(s);
      MarkingIsNoted(h, step, e, s');
      L.ActionFollows(l, L.Marking(Data(e.writes[0]), false));
    }
  }

  lemma {:induction false} DroppingLengthens(r: RunState)
    requires r.ChannelsOpen()
    ensures |Drop(r).events| >= |r.events| && !Drop(r).live && Drop(r).status == r.status && Drop(r).hydrated == r.hydrated
  {
  }

  lemma {:induction false} EvictionIsNoted(h: History, accepted: bool, s': System)
    requires |h.tags| == |h.sys.queue| && h.sys.mem.ChannelsOpen() && !h.sys.mem.status.Running?
    requires s' == h.sys.(mem := Drop(h.sys.mem), registered := s'.registered, intact := s'.intact,
                          queue := h.sys.queue + (if accepted then [DeleteRows] else []))
    ensures L.Follows(LedgerOf(h), LedgerOf(Note(h, Evict(accepted), s')))
  {
    DroppingLengthens(h.sys.mem);
    L.ActionFollows(LedgerOf(h), L.Evicting(|s'.mem.events|, accepted));
    assert !accepted ==> h.sys.queue + [] == h.sys.queue;
    assert LedgerOf(Note(h, Evict(accepted), s')) == L.Do(LedgerOf(h), L.Evicting(|s'.mem.events|, accepted));
  }

  lemma {:induction false} ClearDropIsNoted(h: History, s': System)
    requires |h.tags| == |h.sys.queue| && h.sys.mem.ChannelsOpen() && !h.sys.mem.status.Running? && h.sys.queue == []
    requires s' == h.sys.(mem := Drop(h.sys.mem), registered := s'.registered, db := ApplyOp(h.sys.db, ClearTerminal))
    ensures L.Follows(LedgerOf(h), LedgerOf(Note(h, ClearDrop, s')))
  {
    DroppingLengthens(h.sys.mem);
    L.ActionFollows(LedgerOf(h), L.Clearing(s'.db, |s'.mem.events|));
    assert LedgerOf(Note(h, ClearDrop, s')) == L.Do(LedgerOf(h), L.Clearing(s'.db, |s'.mem.events|));
  }

  /** Installing a log that was read past its barrier, for a run still live. */
  lemma {:induction false} AdoptionIsNoted(h: History, token: nat, s': System, log: seq<RunEvent>)
    requires |h.tags| == |h.sys.queue| && s'.db == h.sys.db && s'.queue == h.sys.queue
    requires !h.sys.mem.hydrated && s'.mem.hydrated && s'.exact && s'.mem.events == log && s'.mem.live == h.sys.mem.live
    requires !Awaiting(s') && OnlyBarriers(h.sys.queue) && LogOf(h.sys.db.table) == Some(log)
    ensures L.Follows(LedgerOf(h), LedgerOf(Note(h, LoadInstall(token), s')))
  {
    ReadLogIsHeld(h.sys.db.table);
    L.ActionFollows(LedgerOf(h), L.Adopting(log));
    assert LedgerOf(Note(h, LoadInstall(token), s')) == L.Do(LedgerOf(h), L.Adopting(log));
  }

  /** Installing any other. */
  lemma {:induction false} EarlyReadIsNoted(h: History, token: nat, s': System)
    requires |h.tags| == |h.sys.queue| && s'.db == h.sys.db && s'.queue == h.sys.queue
    requires !h.sys.mem.hydrated && !s'.exact && s'.mem.live == h.sys.mem.live
    ensures L.Follows(LedgerOf(h), LedgerOf(Note(h, LoadInstall(token), s')))
  {
    var a := L.Drifting(|s'.mem.events|, Awaiting(s'), s'.mem.live);
    L.ActionFollows(LedgerOf(h), a);
    assert LedgerOf(Note(h, LoadInstall(token), s')) == L.Do(LedgerOf(h), a);
  }

  /** What installing a read log does to the rest of the system. */
  lemma {:induction false} InstallCases(s: System, token: nat)
    requires s.mem.ChannelsOpen() && Enabled(s, LoadInstall(token))
    ensures var (s', load) := (Next(s, LoadInstall(token)), s.loads[token]);
            && s'.db == s.db && s'.queue == s.queue && s'.phase == s.phase && s'.registered == s.registered && s'.closed == s.closed
            && s'.mem == s.mem.(events := s'.mem.events, hydrated := s'.mem.hydrated)
            && (s'.mem == s.mem ==> s'.exact == s.exact)
            && (s'.mem != s.mem ==>
                  && load.log.Some? && s'.mem.events == load.log.value && !s.mem.hydrated && s.mem.attached && s'.mem.hydrated
                  && s'.exact == (s.mem.live && load.drained))
  {
  }

  lemma {:induction false} InstallingIsNoted(h: History, token: nat)
    requires RunInv(h.sys.mem, h.sys.phase, h.sys.registered) && LoadInv(h.sys) && |h.tags| == |h.sys.queue|
    requires Enabled(h.sys, LoadInstall(token))
    ensures L.Follows(LedgerOf(h), LedgerOf(Note(h, LoadInstall(token), Next(h.sys, LoadInstall(token)))))
  {
    var s, s' := h.sys, Next(h.sys, LoadInstall(token));
    var load := s.loads[token];
    InstallCases(s, token);
    if s'.mem == s.mem {
      QuietIsNoted(h, LoadInstall(token), s');
    } else if s'.exact {
      assert LoadIsCurrent(s, load);
      AdoptionIsNoted(h, token, s', load.log.value);
    } else {
      EarlyReadIsNoted(h, token, s');
    }
  }

  lemma {:induction false} RestartIsNoted(h: History, step: Step)
    requires |h.tags| == |h.sys.queue| && step.Restart? && h.sys.db.row.Some?
    ensures L.Follows(LedgerOf(h), LedgerOf(Note(h, step, Restarted(h.sys, step.readable, step.dropSession, step.accepted))))
  {
    var s' := Restarted(h.sys, step.readable, step.dropSession, step.accepted);
    L.ActionFollows(LedgerOf(h), L.Reopening(s'.queue, s'.mem.live));
    assert LedgerOf(Note(h, step, s')) == L.Do(LedgerOf(h), L.Reopening(s'.queue, s'.mem.live));
  }

  lemma {:induction false} PushIsNoted(h: History, step: Step, s': System, op: Op)
    requires |h.tags| == |h.sys.queue| && (step.ClearRequest? || step.LoadBegin?) && (op.ClearTerminal? || op.Barrier?)
    requires s'.db == h.sys.db && s'.exact == h.sys.exact && s'.mem == h.sys.mem && s'.phase == h.sys.phase && s'.queue == h.sys.queue + [op]
    ensures L.Follows(LedgerOf(h), LedgerOf(Note(h, step, s')))
  {
    L.ActionFollows(LedgerOf(h), L.Pushing(op));
    assert LedgerOf(Note(h, step, s')) == L.Do(LedgerOf(h), L.Pushing(op));
  }

  /** The writer of the protocol is the writer of the ledger. */
  lemma {:induction false} SameWriter(s: System, l: L.Ledger, fails: bool)
    requires s.queue != [] && |l.tags| == |s.queue| && l.db == s.db && l.queue == s.queue
    ensures L.Take(l, fails).db == Written(s, fails).db && L.Take(l, fails).queue == Written(s, fails).queue
  {
    if fails {
      FailedDatabase(s);
    } else {
      WrittenDatabase(s);
      TakenDatabase(l);
    }
  }

  lemma {:induction false} FailedDatabase(s: System)
    requires s.queue != []
    ensures Written(s, true).db == s.db && Written(s, true).queue == s.queue[1..]
  {
  }

  lemma {:induction false} TakenDatabase(l: L.Ledger)
    requires l.queue != [] && |l.tags| == |l.queue|
    ensures var m := L.Take(l, false);
            if l.queue[0].DeleteRows?
            then m.db == l.db.(table := map[]) && m.queue == [DeleteRow] + l.queue[1..]
            else m.db == ApplyOp(l.db, l.queue[0]) && m.queue == l.queue[1..]
  {
    match l.queue[0] {
      case Data(w) =>
      case ClearTerminal =>
      case _ =>
    }
  }

  lemma {:induction false} TakenTags(l: L.Ledger, fails: bool)
    requires l.queue != [] && |l.tags| == |l.queue|
    ensures var m := L.Take(l, fails);
            && m.tags == (if |m.queue| < |l.queue| then l.tags[1..] else l.tags) && |m.queue| <= |l.queue|
            && m == l.(db := m.db, queue := m.queue, tags := m.tags, saves := m.saves, wrote := m.wrote, leftover := m.leftover)
  {
    if !fails {
      match l.queue[0] {
        case Data(w) =>
        case ClearTerminal =>
        case _ =>
      }
    }
  }

  lemma {:induction false} WriterIsNoted(h: History, fails: bool, s': System)
    requires |h.tags| == |h.sys.queue| && h.sys.queue != []
    requires s'.db == L.Take(LedgerOf(h), fails).db && s'.queue == L.Take(LedgerOf(h), fails).queue
    requires s'.mem == h.sys.mem && s'.phase == h.sys.phase && s'.exact == h.sys.exact
    ensures LedgerOf(Note(h, WriterStep(fails), s')) == L.Take(LedgerOf(h), fails)
  {
    TakenTags(LedgerOf(h), fails);
  }

  lemma {:induction false} WriterStepIsNoted(h: History, fails: bool)
    requires |h.tags| == |h.sys.queue| && h.sys.queue != []
    ensures L.Follows(LedgerOf(h), LedgerOf(Note(h, WriterStep(fails), Written(h.sys, fails))))
  {
    SameWriter(h.sys, LedgerOf(h), fails);
    WriterIsNoted(h, fails, Written(h.sys, fails));
    L.ActionFollows(LedgerOf(h), L.Taking(fails));
  }

  lemma {:induction false} QuietStepIsNoted(h: History, step: Step)
    requires h.sys.mem.ChannelsOpen() && |h.tags| == |h.sys.queue| && Enabled(h.sys, step)
    requires step.ClearKeep? || step.LoadFetch? || step.AddSubscriber? || step.CancelSubscriber? || step.TakeEvent? || step.CloseStore?
    ensures LedgerOf(Note(h, step, Next(h.sys, step))) == LedgerOf(h)
  {
    QuietStepsLeaveTheLog(h.sys, step);
    assert Next(h.sys, step).exact == h.sys.exact;
    QuietIsNoted(h, step, Next(h.sys, step));
  }

  /** Every step of the protocol is an action of the ledger. */
  lemma {:induction false} StepIsNoted(h: History, step: Step)
    requires RunInv(h.sys.mem, h.sys.phase, h.sys.registered) && LoadInv(h.sys) && Locked(h.sys) && |h.tags| == |h.sys.queue|
    requires Enabled(h.sys, step)
    ensures L.Follows(LedgerOf(h), LedgerOf(After(h, step)))
  {
    if IsSection(step) {
      SectionIsNoted(h, step);
    } else if step.LoadInstall? {
      InstallingIsNoted(h, step.token);
    } else if step.Evict? || step.ClearDrop? || step.WriterStep? || step.Restart? || step.ClearRequest? || step.LoadBegin? {
      StoreStepIsNoted(h, step);
    } else {
      QuietStepIsNoted(h, step);
    }
  }

  lemma {:induction false} StoreStepIsNoted(h: History, step: Step)
    requires h.sys.mem.ChannelsOpen() && Locked(h.sys) && |h.tags| == |h.sys.queue| && Enabled(h.sys, step)
    requires step.Evict? || step.ClearDrop? || step.WriterStep? || step.Restart? || step.ClearRequest? || step.LoadBegin?
    ensures L.Follows(LedgerOf(h), LedgerOf(Note(h, step, Next(h.sys, step))))
  {
    var s' := Next(h.sys, step);
    match step {
      case Evict(accepted) => EvictionIsNoted(h, accepted, s');
      case ClearDrop => ClearDropIsNoted(h, s');
      case WriterStep(fails) => WriterStepIsNoted(h, fails);
      case Restart(readable, dropSession, accepted) => RestartIsNoted(h, step);
      case ClearRequest => if h.sys.closed { QuietIsNoted(h, step, s'); } else { PushIsNoted(h, step, s', ClearTerminal); }
      case LoadBegin(token) => if h.sys.closed { QuietIsNoted(h, step, s'); } else { PushIsNoted(h, step, s', Barrier(token)); }
    }
  }

  // ---------------------------------------------------------------- histories

  lemma {:induction false} LockedSection(s: System, step: Step)
    requires s.mem.ChannelsOpen() && Locked(s) && Enabled(s, step) && IsSection(step)
    ensures Locked(Next(s, step))
  {
    SectionCommits(s, step);
    SectionKeepsHydration(s, step);
    SectionKeepsAttachment(s, step);
  }

  lemma {:induction false} SectionKeepsAttachment(s: System, step: Step)
    requires s.mem.ChannelsOpen() && Enabled(s, step) && IsSection(step)
    ensures SectionEffect(s, step).run.attached == s.mem.attached
  {
    match step {
      case FinishWrite(failed, outcome, sameContext, accepted) =>
      case _ =>
    }
  }

  lemma {:induction false} LockedStep(s: System, step: Step)
    requires s.mem.ChannelsOpen() && Locked(s) && Enabled(s, step)
    ensures Locked(Next(s, step))
  {
    if IsSection(step) {
      LockedSection(s, step);
    } else if step.LoadInstall? {
      InstallCases(s, step.token);
    } else if step.WriterStep? || step.LoadBegin? || step.LoadFetch? {
    } else if step.Evict? || step.ClearDrop? {
      DroppingLengthens(s.mem);
    } else if step.AddSubscriber? || step.CancelSubscriber? || step.TakeEvent? {
    } else {
    }
  }

  lemma {:induction false} StorelessSection(h: History, step: Step)
    requires RunInv(h.sys.mem, h.sys.phase, h.sys.registered) && Storeless(h) && Enabled(h.sys, step) && IsSection(step)
    ensures Storeless(After(h, step))
  {
    SectionKeepsAttachment(h.sys, step);
    UnattachedWritesNothing(h.sys, step);
    SectionRuns(h.sys, step);
  }

  lemma {:induction false} UnattachedWritesNothing(s: System, step: Step)
    requires RunInv(s.mem, s.phase, s.registered) && !s.mem.attached && Enabled(s, step) && IsSection(step)
    ensures SectionEffect(s, step).writes == []
  {
    match step {
      case FinishWrite(failed, outcome, sameContext, accepted) =>
      case _ =>
    }
  }

  lemma {:induction false} StorelessStep(h: History, step: Step)
    requires RunInv(h.sys.mem, h.sys.phase, h.sys.registered) && Storeless(h) && Enabled(h.sys, step)
    ensures Storeless(After(h, step))
  {
    if IsSection(step) {
      StorelessSection(h, step);
    } else if step.LoadInstall? {
      InstallCases(h.sys, step.token);
    } else if step.Evict? || step.ClearDrop? {
      StorelessDrop(h, step);
    } else if step.AddSubscriber? || step.CancelSubscriber? || step.TakeEvent? {
    } else {
    }
  }

  lemma {:induction false} StorelessDrop(h: History, step: Step)
    requires h.sys.mem.ChannelsOpen() && Storeless(h) && Enabled(h.sys, step) && (step.Evict? || step.ClearDrop?)
    ensures Storeless(After(h, step))
  {
    assert !Drop(h.sys.mem).attached;
  }

  /** Every step keeps the system and its notes. */
  lemma {:induction false} HistoryStep(h: History, step: Step)
    requires HistoryInv(h) && Enabled(h.sys, step)
    ensures |h.tags| == |h.sys.queue| && HistoryInv(After(h, step))
  {
    InvariantStep(h.sys, step);
    if h.stored {
      StepIsNoted(h, step);
      L.FollowingKeeps(LedgerOf(h), LedgerOf(After(h, step)));
      LockedStep(h.sys, step);
    } else {
      StorelessStep(h, step);
    }
  }

  ghost predicate Told(h: History, steps: seq<Step>, t: History)
    decreases |steps|
  {
    if steps == [] then h == t
    else
      && h.sys.mem.ChannelsOpen() && Enabled(h.sys, steps[0]) && |h.tags| == |h.sys.queue|
      && Told(After(h, steps[0]), steps[1..], t)
  }

  /** A run of the system from its start, crashes and restarts included. */
  ghost predicate Recorded(t: History) {
    exists stored: bool, accepted: bool, steps: seq<Step> :: Told(Opened(stored, accepted), steps, t)
  }

  lemma {:induction false} OpenedLedger(accepted: bool)
    ensures LedgerOf(Opened(true, accepted)) == L.Opening(true, accepted, Initial(true, accepted).mem.Summary())
  {
    assert Wrap([SaveRow(Row(Running, None))]) == [Data(SaveRow(Row(Running, None)))];
  }

  lemma {:induction false} OpenedHolds(stored: bool, accepted: bool)
    ensures HistoryInv(Opened(stored, accepted)) && Opened(stored, accepted).sys == Initial(stored, accepted)
  {
    InitialInvariant(stored, accepted);
    if stored {
      OpenedLedger(accepted);
      L.OpeningHolds(stored, accepted, Initial(stored, accepted).mem.Summary());
    }
  }

  lemma {:induction false} ToldKeeps(h: History, steps: seq<Step>, t: History)
    requires HistoryInv(h) && Told(h, steps, t)
    ensures HistoryInv(t)
    decreases |steps|
  {
    if steps != [] {
      HistoryStep(h, steps[0]);
      ToldKeeps(After(h, steps[0]), steps[1..], t);
    }
  }

  lemma {:induction false} RecordedHolds(t: History)
    requires Recorded(t)
    ensures HistoryInv(t)
  {
    var stored: bool, accepted: bool, steps: seq<Step> :| Told(Opened(stored, accepted), steps, t);
    OpenedHolds(stored, accepted);
    ToldKeeps(Opened(stored, accepted), steps, t);
  }

  lemma {:induction false} RunsAreTold(h: History, steps: seq<Step>, s: System) returns (t: History)
    requires HistoryInv(h) && Leads(h.sys, steps, s)
    ensures Told(h, steps, t) && t.sys == s
    decreases |steps|
  {
    if steps == [] {
      t := h;
    } else {
      HistoryStep(h, steps[0]);
      t := RunsAreTold(After(h, steps[0]), steps[1..], s);
    }
  }

  /** Keeping notes rules nothing out: every reachable state has a record. */
  lemma {:induction false} EveryRunIsRecorded(s: System) returns (h: History)
    requires Reachable(s)
    ensures Recorded(h) && h.sys == s
  {
    var attached: bool, accepted: bool, steps: seq<Step> :| Leads(Initial(attached, accepted), steps, s);
    OpenedHolds(attached, accepted);
    h := RunsAreTold(Opened(attached, accepted), steps, s);
  }
}
