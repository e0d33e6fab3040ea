/** What every critical section of one investigation does to that run.

    Each function is one section guarded by the run's mutex: it maps the state
    before to the state after together with the store writes it enqueues. */
module RunSpec {
  import opened Wrappers
  import opened RunEvents

  datatype Status = Running | Finished | Errored | Stopped | Stale

  /** A resumable agent session. A session opened by an apply turn may write. */
  datatype Session = Session(id: string, writeEnabled: bool)

  const CHANNEL_CAPACITY: nat := 256

  /** `value`, moved into 0..limit. */
  function Clamp(value: int, limit: nat): nat {
    if value < 0 then 0 else if value > limit then limit else value
  }

  /** One subscription: the sequence number its client asked to continue after,
      how long the log was when it joined, the events handed to it (its backlog
      first), and how many still sit unread in the channel. */
  datatype Channel = Channel(after: int, joined: nat, delivered: seq<RunEvent>, buffered: nat, open: bool) {
    /** The log index its events start at. */
    function From(): nat { Clamp(after, joined) }

    predicate HasRoom() { buffered < CHANNEL_CAPACITY }

    /** Sending on a closed channel panics, so it is only allowed while open. */
    function Send(e: RunEvent): Channel
      requires open && HasRoom()
    {
      this.(delivered := delivered + [e], buffered := buffered + 1)
    }

    /** Closing a channel twice panics. */
    function Close(): Channel
      requires open
    {
      this.(open := false)
    }

    function SendIfRoom(e: RunEvent): Channel
      requires open
    {
      if HasRoom() then Send(e) else this
    }
  }

  datatype RunState = RunState(
    status: Status,
    session: Option<Session>,
    events: seq<RunEvent>,
    hydrated: bool,             // events holds the whole log
    inFlight: bool,
    live: bool,                 // the subscriber map exists: the run is not finalized
    subs: map<nat, Channel>,
    retired: map<nat, Channel>, // channels already closed, still held by their subscribers
    nextSub: nat,
    attached: bool)             // the run still writes to the store
  {
    predicate ChannelsOpen() { forall id :: id in subs ==> subs[id].open }

    function Summary(): Row { Row(status, session) }

    predicate ActiveApply() { inFlight && LastTurnApplies(events) }
  }

  /** The summary persisted beside the log. */
  datatype Row = Row(status: Status, session: Option<Session>)

  datatype Write = SaveRow(row: Row) | AppendRows(batch: seq<RunEvent>, summary: Option<Row>)

  datatype Effect = Effect(run: RunState, writes: seq<Write>)

  // ---------------------------------------------------------------- publishing

  /** The channels that had room, with `e` in them. */
  function Sent(subs: map<nat, Channel>, e: RunEvent): map<nat, Channel>
    requires forall id :: id in subs ==> subs[id].open
  {
    map id | id in subs && subs[id].HasRoom() :: subs[id].Send(e)
  }

  /** The channels that were full, closed. */
  function Overrun(subs: map<nat, Channel>): map<nat, Channel>
    requires forall id :: id in subs ==> subs[id].open
  {
    map id | id in subs && !subs[id].HasRoom() :: subs[id].Close()
  }

  function PublishOne(r: RunState, e: RunEvent): (p: RunState)
    requires r.ChannelsOpen()
    ensures p.ChannelsOpen()
  {
    r.(subs := Sent(r.subs, e), retired := r.retired + Overrun(r.subs))
  }

  function Publish(r: RunState, batch: seq<RunEvent>): (p: RunState)
    requires r.ChannelsOpen()
    ensures p.ChannelsOpen()
    ensures p == r.(subs := p.subs, retired := p.retired)
    decreases |batch|
  {
    if batch == [] then r else Publish(PublishOne(r, batch[0]), batch[1..])
  }

  function Ended(subs: map<nat, Channel>): map<nat, Channel>
    requires forall id :: id in subs ==> subs[id].open
  {
    map id | id in subs :: subs[id].Close()
  }

  function CloseAll(r: RunState): (p: RunState)
    requires r.ChannelsOpen()
    ensures p.ChannelsOpen()
  {
    r.(live := false, subs := map[],
       retired := r.retired + Ended(r.subs))
  }

  function AppendEvents(r: RunState, events: seq<StreamEvent>, persistRow: bool): (e: Effect)
    requires r.ChannelsOpen()
    ensures e.run.ChannelsOpen()
    ensures e.run == r.(events := e.run.events, subs := e.run.subs, retired := e.run.retired)
    ensures e.run.events == r.events + Number(|r.events|, events)
  {
    var batch := Number(|r.events|, events);
    var logged := r.(events := r.events + batch);
    Effect(
      Publish(logged, batch),
      if r.attached && events != []
      then [AppendRows(batch, if persistRow then Some(r.Summary()) else None)]
      else [])
  }

  function AppendOne(r: RunState, event: StreamEvent): (e: Effect)
    requires r.ChannelsOpen()
    ensures e.run.ChannelsOpen()
    ensures e.run == r.(events := e.run.events, subs := e.run.subs, retired := e.run.retired)
  {
    AppendEvents(r, [event], event.Terminal())
  }

  // ---------------------------------------------------------------- lifecycle

  /** A run created by Start: registered, reserved, its full log in memory. */
  function Started(attached: bool): Effect {
    var r := RunState(Running, None, [], true, true, true, map[], map[], 0, attached);
    Effect(r, if attached then [SaveRow(r.Summary())] else [])
  }

  datatype BeginError = TurnInFlight | StaleRun | NoSession

  /** The per-run half of reserving a turn. */
  function Begin(r: RunState, requireSession: bool): Result<Effect, BeginError> {
    if r.inFlight then Failure(TurnInFlight)
    else if r.status.Stale? then Failure(StaleRun)
    else if requireSession && r.session.None? then Failure(NoSession)
    else
      var reserved := r.(inFlight := true, status := Running);
      Success(Effect(reserved, if r.attached then [SaveRow(reserved.Summary())] else []))
  }

  /** Whether a section that owns the active turn may still write to the log. */
  predicate Owns(r: RunState) { r.inFlight && r.status.Running? && r.live }

  function Launch(r: RunState, turn: StreamEvent): (e: Effect)
    requires r.ChannelsOpen()
    ensures e.run.ChannelsOpen()
    ensures e.run.hydrated == r.hydrated && e.run.attached == r.attached
  {
    if !Owns(r) then Effect(r.(inFlight := false), [])
    else AppendOne(r, turn)
  }

  function Stream(r: RunState, event: StreamEvent): (e: Effect)
    requires r.ChannelsOpen()
    ensures e.run.ChannelsOpen()
    ensures e.run.hydrated == r.hydrated && e.run.attached == r.attached
  {
    if !Owns(r) then Effect(r, []) else AppendOne(r, event)
  }

  datatype TurnResult = TurnResult(failed: bool, session: Option<Session>)

  function FinishTurn(r: RunState, result: TurnResult, apply: bool): (e: Effect)
    requires r.ChannelsOpen()
    ensures e.run.ChannelsOpen()
    ensures e.run.hydrated == r.hydrated && e.run.attached == r.attached
  {
    if r.status.Stopped? || r.status.Stale? || !r.live then Effect(r.(inFlight := false), [])
    else if result.failed then
      var e := AppendOne(r.(status := Errored), Error(NoOutcome, false));
      e.(run := e.run.(inFlight := false))
    else
      var session := if result.session.Some? && !apply then result.session else r.session;
      var e := AppendOne(r.(status := Finished, session := session), Done(NoOutcome, false));
      e.(run := e.run.(inFlight := false))
  }

  /** The apply's terminal event. Only a confirmed mutation reported by a turn
      that ended cleanly closes as done. */
  function ApplyTerminal(failed: bool, outcome: Outcome, scheduled: bool): StreamEvent {
    if outcome.Confirmed? && !failed then Done(outcome, scheduled) else Error(outcome, scheduled)
  }

  /** How an apply turn ends: whether its reservation continues into a
      verification, and the terminal event. A changed cluster context rules the
      verification out and turns the terminal event into an error. */
  function AfterApply(failed: bool, outcome: Outcome, sameContext: bool): (bool, StreamEvent) {
    var needed := !outcome.Failed?;
    if needed && sameContext then (true, ApplyTerminal(failed, outcome, true))
    else if needed then (false, Error(outcome, false))
    else (false, ApplyTerminal(failed, outcome, false))
  }

  function FinishApplyAndVerify(r: RunState, terminal: StreamEvent): (e: Effect)
    requires r.ChannelsOpen()
    ensures e.run.ChannelsOpen()
    ensures e.run.hydrated == r.hydrated && e.run.attached == r.attached
  {
    if !Owns(r) then Effect(r.(inFlight := false), [])
    else AppendEvents(r, [terminal, Turn(false, true, 0)], true)
  }

  function FinishApply(r: RunState, terminal: StreamEvent): (e: Effect)
    requires r.ChannelsOpen()
    ensures e.run.ChannelsOpen()
    ensures e.run.hydrated == r.hydrated && e.run.attached == r.attached
  {
    if !Owns(r) then Effect(r.(inFlight := false), [])
    else
      var e := AppendOne(r.(status := Errored), terminal);
      e.(run := e.run.(inFlight := false))
  }

  function InterruptionOutcome(r: RunState): Outcome {
    if r.ActiveApply() then Unknown else NoOutcome
  }

  /** Stop and Shutdown: the marker and the status change are one section; the
      agent keeps its reservation until it notices the cancellation. */
  function Interrupt(r: RunState): (e: Effect)
    requires r.ChannelsOpen()
    ensures e.run.ChannelsOpen()
    ensures e.run.hydrated == r.hydrated && e.run.attached == r.attached
  {
    if !Owns(r) then Effect(r, [])
    else AppendOne(r.(status := Stopped), Error(InterruptionOutcome(r), false))
  }

  function MarkStale(r: RunState): (e: Effect)
    requires r.ChannelsOpen()
    ensures e.run.ChannelsOpen()
    ensures e.run.hydrated == r.hydrated && e.run.attached == r.attached
  {
    if r.status.Stale? || !r.live then Effect(r, [])
    else
      var stale := r.(status := Stale);
      var marker := Error(InterruptionOutcome(r), false);
      if r.hydrated then
        var e := AppendEvents(stale, [marker, Closed], true);
        e.(run := CloseAll(e.run))
      else
        // Sequence number zero asks the store to continue the log it holds.
        Effect(CloseAll(stale),
               if r.attached
               then [AppendRows([RunEvent(0, marker), RunEvent(0, Closed)], Some(stale.Summary()))]
               else [])
  }

  function Finalize(r: RunState): (e: Effect)
    requires r.ChannelsOpen()
    ensures e.run.ChannelsOpen()
    ensures e.run.hydrated == r.hydrated && e.run.attached == r.attached
  {
    if !r.live then Effect(r, [])
    else
      var sentinel := RunEvent(|r.events| + 1, Closed);
      var told := r.(events := r.events + [sentinel],
                     subs := map id | id in r.subs :: r.subs[id].SendIfRoom(sentinel));
      Effect(CloseAll(told),
             if r.attached && r.hydrated then [AppendRows([sentinel], Some(r.Summary()))] else [])
  }

  /** Eviction and ClearHistory: the rows go away, so the sentinel stays in memory. */
  function Drop(r: RunState): (p: RunState)
    requires r.ChannelsOpen()
    ensures p.ChannelsOpen()
    ensures p.hydrated == r.hydrated
  {
    Finalize(r.(attached := false)).run
  }

  // ---------------------------------------------------------------- subscribers

  function Backlog(log: seq<RunEvent>, afterSeq: int): seq<RunEvent> {
    if log == [] then []
    else
      var init := Backlog(log[..|log| - 1], afterSeq);
      var last := log[|log| - 1];
      if last.num > afterSeq then init + [last] else init
  }

  /** The log index at which a subscription begins. */
  function StartIndex(log: seq<RunEvent>, afterSeq: int): nat { Clamp(afterSeq, |log|) }

  /** A finalized run hands out a channel that is already closed. */
  function NewChannel(r: RunState, afterSeq: int): Channel {
    Channel(afterSeq, |r.events|, Backlog(r.events, afterSeq), 0, r.live)
  }

  function Subscribe(r: RunState, afterSeq: int): (p: RunState)
    requires r.ChannelsOpen()
    ensures p.ChannelsOpen()
    ensures p.hydrated == r.hydrated
  {
    if r.live
    then r.(subs := r.subs[r.nextSub := NewChannel(r, afterSeq)], nextSub := r.nextSub + 1)
    else r
  }

  function Unsubscribe(r: RunState, id: nat): (p: RunState)
    requires r.ChannelsOpen()
    ensures p.ChannelsOpen()
    ensures p.hydrated == r.hydrated
  {
    if id in r.subs
    then r.(subs := r.subs - {id}, retired := r.retired[id := r.subs[id].Close()])
    else r
  }

  /** A subscriber takes one event from its channel. */
  function Receive(r: RunState, id: nat): (p: RunState)
    requires r.ChannelsOpen()
    ensures p.ChannelsOpen()
    ensures p.hydrated == r.hydrated
  {
    if id in r.subs && r.subs[id].buffered > 0
    then r.(subs := r.subs[id := r.subs[id].(buffered := r.subs[id].buffered - 1)])
    else r
  }

  /** The installing half of lazy hydration, given what the store returned. */
  function Install(r: RunState, log: seq<RunEvent>): RunState {
    if r.hydrated || !r.attached then r
    else if !r.live && (log == [] || !log[|log| - 1].event.Closed?) then r
    else r.(events := log, hydrated := true)
  }

  // ---------------------------------------------------------------- recovery

  /** The marker appended to a run that was found running after a restart. */
  function RestartMarker(log: Option<seq<RunEvent>>): StreamEvent {
    if log.None? || OpenTurnWasApply(log.value) then Error(Unknown, false)
    else Error(NoOutcome, false)
  }

  /** A run rebuilt from its row; its log stays in the store. */
  function Loaded(row: Row, log: Option<seq<RunEvent>>, dropSession: bool): Effect {
    var session := if dropSession then None else row.session;
    var r := RunState(row.status, session, [], false, false, true, map[], map[], 0, true);
    if row.status.Running? then
      var repaired := r.(status := Errored);
      Effect(repaired, [AppendRows([RunEvent(0, RestartMarker(log))], Some(repaired.Summary()))])
    else Effect(r.(live := !row.status.Stale?), [])
  }
}
