/** One investigation as a concurrent system.

    The state is the run in memory, the thread that owns its active turn, the
    reads that hydrate it, the write queue in front of the history database and
    that database. Each step is one critical section, one queue operation or
    one database operation; a run of the system is any sequence of enabled
    steps, crashes and restarts included. */
module RunProtocol {
  import opened Wrappers
  import opened RunEvents
  import opened RunSpec
  import opened DurableLog

  /** The goroutine that holds the run's reservation. */
  datatype Phase = Idle | Reserved | Diagnosing(apply: bool)

  /** What the writer will do next for this run. Deleting a run is two
      statements, so a crash may fall between DeleteRows and DeleteRow. */
  datatype Op = Data(write: Write) | DeleteRows | DeleteRow | ClearTerminal | Barrier(token: nat)

  /** A hydrating read: waiting for its barrier, past it, or holding a result
      (None when the transcript was unreadable or corrupt). `drained` is false
      when the store was already closed, so that no barrier ran. */
  datatype Load = Waiting | Ready(drained: bool) | Fetched(log: Option<seq<RunEvent>>, drained: bool)

  /** ClearHistory seen from a run it keeps. */
  datatype Clearing = NotClearing | Kept | Requested

  datatype System = System(
    mem: RunState,
    registered: bool,
    phase: Phase,
    db: DurableRun,
    queue: seq<Op>,
    closed: bool,
    loads: map<nat, Load>,
    clearing: Clearing,
    // History flags, read by no step's guard or effect:
    intact: bool,  // no write was lost, no kept row was cleared, no log was read past a closed queue
    sound: bool,   // the log in memory was born live or installed from an intact, drained read
    exact: bool)   // the log in memory was born live or installed live from a drained read

  // ---------------------------------------------------------------- database

  function ApplyOp(d: DurableRun, op: Op): DurableRun {
    match op
    case Data(w) => ApplyWrite(d, w)
    case DeleteRows => DurableRun(None, map[])
    case DeleteRow => d.(row := None)
    case ClearTerminal =>
      if d.row.Some? && d.row.value.status.Running? then d else DurableRun(None, map[])
    case Barrier(_) => d
  }

  function Drain(d: DurableRun, queue: seq<Op>): DurableRun
    decreases |queue|
  {
    if queue == [] then d else Drain(ApplyOp(d, queue[0]), queue[1..])
  }

  // ---------------------------------------------------------------- steps

  datatype Step =
    | BeginTurn(accepted: bool)
    | LaunchTurn(apply: bool, verify: bool, explain: nat, accepted: bool)
    | AgentEvent(event: StreamEvent, accepted: bool)
    | FinishRead(result: TurnResult, accepted: bool)
    | FinishWrite(failed: bool, outcome: Outcome, sameContext: bool, accepted: bool)
    | StopRun(accepted: bool)
    | ContextSwitch(accepted: bool)
    | Evict(accepted: bool)
    | ClearDrop
    | ClearKeep
    | ClearRequest
    | WriterStep(fails: bool)
    | LoadBegin(token: nat)
    | LoadFetch(token: nat, readable: bool)
    | LoadInstall(token: nat)
    | AddSubscriber(afterSeq: int)
    | CancelSubscriber(id: nat)
    | TakeEvent(id: nat)
    | CloseStore
    | Restart(readable: bool, dropSession: bool, accepted: bool)

  /** Commits a section's effect; a write that the queue refuses is lost. */
  function Commit(s: System, e: Effect, phase: Phase, accepted: bool): System {
    s.(mem := e.run, phase := phase,
       queue := s.queue + (if accepted then Wrap(e.writes) else []),
       intact := s.intact && (accepted || e.writes == []))
  }

  function Wrap(writes: seq<Write>): (ops: seq<Op>)
    ensures |ops| == |writes|
    ensures forall i :: 0 <= i < |writes| ==> ops[i] == Data(writes[i])
  {
    seq(|writes|, i requires 0 <= i < |writes| => Data(writes[i]))
  }

  predicate Enabled(s: System, step: Step) {
    match step
    case BeginTurn(accepted) =>
      // addTurn hydrates first and reserves only what the manager still maps.
      s.registered && s.clearing.NotClearing? && s.mem.hydrated &&
      Begin(s.mem, true).Success? && (accepted ==> !s.closed)
    case LaunchTurn(apply, verify, _, accepted) =>
      s.phase.Reserved? && !(apply && verify) && (accepted ==> !s.closed)
    case AgentEvent(event, accepted) =>
      s.phase.Diagnosing? && event.Progress() && (accepted ==> !s.closed)
    case FinishRead(result, accepted) =>
      s.phase == Diagnosing(false) && (accepted ==> !s.closed) &&
      (result.session.Some? ==> !result.session.value.writeEnabled)
    case FinishWrite(_, outcome, _, accepted) =>
      s.phase == Diagnosing(true) && !outcome.NoOutcome? && (accepted ==> !s.closed)
    case StopRun(accepted) => accepted ==> !s.closed
    case ContextSwitch(accepted) => accepted ==> !s.closed
    case Evict(accepted) =>
      s.registered && s.clearing.NotClearing? && !s.mem.status.Running? && (accepted ==> !s.closed && s.mem.attached)
    case ClearDrop =>
      // The run's mutex is held from selection until the transaction has run.
      s.registered && s.clearing.NotClearing? && !s.mem.status.Running? && (s.mem.attached ==> !s.closed && s.queue == [])
    case ClearKeep => s.registered && s.clearing.NotClearing? && s.mem.status.Running? && s.mem.attached
    case ClearRequest => s.clearing.Kept? && s.mem.attached
    case WriterStep(fails) => s.queue != [] && (fails ==> !s.queue[0].Barrier?)
    case LoadBegin(token) => !s.mem.hydrated && s.mem.attached && token !in s.loads
    case LoadFetch(token, _) => token in s.loads && s.loads[token].Ready?
    case LoadInstall(token) => token in s.loads && s.loads[token].Fetched?
    case AddSubscriber(_) => s.mem.hydrated || !s.mem.attached
    case CancelSubscriber(_) => true
    case TakeEvent(_) => true
    case CloseStore => true
    case Restart(_, _, _) => s.db.row.Some?
  }

  /** The transition of an enabled step. The channel precondition is part of
      the invariant, so in every reachable state it holds. */
  function Next(s: System, step: Step): System
    requires s.mem.ChannelsOpen() && Enabled(s, step)
  {
    match step
    case BeginTurn(accepted) => Commit(s, Begin(s.mem, true).value, Reserved, accepted)
    case LaunchTurn(apply, verify, explain, accepted) =>
      Commit(s, Launch(s.mem, Turn(apply, verify, explain)),
             if Owns(s.mem) then Diagnosing(apply) else Idle, accepted)
    case AgentEvent(event, accepted) => Commit(s, Stream(s.mem, event), s.phase, accepted)
    case FinishRead(result, accepted) => Commit(s, FinishTurn(s.mem, result, false), Idle, accepted)
    case FinishWrite(failed, outcome, sameContext, accepted) =>
      var (verify, terminal) := AfterApply(failed, outcome, sameContext);
      if verify
      then Commit(s, FinishApplyAndVerify(s.mem, terminal),
                  if Owns(s.mem) then Diagnosing(false) else Idle, accepted)
      else Commit(s, FinishApply(s.mem, terminal), Idle, accepted)
    case StopRun(accepted) => Commit(s, Interrupt(s.mem), s.phase, accepted)
    case ContextSwitch(accepted) => Commit(s, MarkStale(s.mem), s.phase, accepted)
    case Evict(accepted) =>
      s.(mem := Drop(s.mem), registered := false,
         queue := s.queue + (if accepted then [DeleteRows] else []), intact := s.intact && (accepted || !s.mem.attached))
    case ClearDrop =>
      s.(mem := Drop(s.mem), registered := false, db := if s.mem.attached then ApplyOp(s.db, ClearTerminal) else s.db)
    case ClearKeep => s.(clearing := Kept)
    case ClearRequest =>
      if s.closed then s.(clearing := NotClearing)
      else
        var row := Drain(s.db, s.queue).row;
        s.(clearing := Requested, queue := s.queue + [ClearTerminal],
           intact := s.intact && row.Some? && row.value.status.Running?)
    case WriterStep(fails) => Written(s, fails)
    case LoadBegin(token) =>
      if s.closed then s.(loads := s.loads[token := Ready(false)])
      else s.(loads := s.loads[token := Waiting], queue := s.queue + [Barrier(token)])
    case LoadFetch(token, readable) =>
      s.(loads := s.loads[token := Fetched(if readable then LogOf(s.db.table) else None, s.loads[token].drained)])
    case LoadInstall(token) => Installed(s.(loads := s.loads - {token}), s.loads[token])
    case AddSubscriber(afterSeq) => s.(mem := Subscribe(s.mem, afterSeq))
    case CancelSubscriber(id) => s.(mem := Unsubscribe(s.mem, id))
    case TakeEvent(id) => s.(mem := Receive(s.mem, id))
    case CloseStore => s.(closed := true)
    case Restart(readable, dropSession, accepted) => Restarted(s, readable, dropSession, accepted)
  }

  function Written(s: System, fails: bool): (s': System)
    requires s.queue != []
    ensures s'.mem == s.mem && s'.registered == s.registered && s'.phase == s.phase && s'.closed == s.closed
    ensures s'.sound == s.sound && s'.exact == s.exact && (s'.intact ==> s.intact)
    ensures s'.loads.Keys == s.loads.Keys
    ensures forall t :: t in s'.loads ==> s'.loads[t] == s.loads[t] || s'.loads[t] == Ready(true)
  {
    var op := s.queue[0];
    var popped := s.(queue := s.queue[1..]);
    if fails then popped.(intact := false, clearing := if op.ClearTerminal? then NotClearing else s.clearing)
    else match op
      case Data(_) => popped.(db := ApplyOp(s.db, op))
      case DeleteRows => s.(db := s.db.(table := map[]), queue := [DeleteRow] + s.queue[1..])
      case DeleteRow => popped.(db := ApplyOp(s.db, op))
      case ClearTerminal => popped.(db := ApplyOp(s.db, op), clearing := NotClearing)
      case Barrier(token) =>
        popped.(loads := if token in s.loads && s.loads[token].Waiting? then s.loads[token := Ready(true)] else s.loads)
  }

  function Installed(s: System, load: Load): System
    requires load.Fetched?
  {
    if load.log.None? then s
    else
      var m := Install(s.mem, load.log.value);
      if m == s.mem then s
      else s.(mem := m, intact := s.intact && load.drained, sound := s.intact && load.drained,
              exact := s.mem.live && load.drained)
  }

  /** A crash forgets everything but the database; the next process rebuilds
      the run from its row. */
  function Restarted(s: System, readable: bool, dropSession: bool, accepted: bool): System
    requires s.db.row.Some?
  {
    var e := Loaded(s.db.row.value, if readable then LogOf(s.db.table) else None, dropSession);
    System(e.run, true, Idle, s.db, if accepted then Wrap(e.writes) else [], false, map[], NotClearing,
           s.intact && (accepted || e.writes == []), true, false)
  }

  /** Start registers the run and enqueues its first summary, if the manager
      has a store. */
  function Initial(attached: bool, accepted: bool): System {
    var e := Started(attached);
    System(e.run, true, Reserved, DurableRun(None, map[]), if accepted then Wrap(e.writes) else [], false,
           map[], NotClearing, accepted || !attached, true, true)
  }
}
