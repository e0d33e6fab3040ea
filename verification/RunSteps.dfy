/** What each section of a run does to its log, its status, its turn and its
    queue of writes, said of the protocol's steps and of nothing beneath them. */
module RunSteps {
  import opened Wrappers
  import opened RunEvents
  import opened RunSpec
  import opened DurableLog
  import opened RunProtocol

  /** The turn is still owned: nobody interrupted or finalized the run. */
  predicate Owned(r: RunState) { r.inFlight && r.status == Running && r.live }

  /** The log grew by these events, and they were queued as one batch, with the
      run's row as it is now if there is to be one. */
  ghost predicate Wrote(s: System, t: System, events: seq<StreamEvent>, withRow: bool, accepted: bool) {
    var n := |s.mem.events|;
    && s.mem.events <= t.mem.events && |t.mem.events| == n + |events|
    && (forall i :: 0 <= i < |events| ==> t.mem.events[n + i] == RunEvent(n + i + 1, events[i]))
    && t.queue == s.queue + if accepted && s.mem.attached
                            then [Data(AppendRows(t.mem.events[n..], if withRow then Some(Row(t.mem.status, t.mem.session)) else None))]
                            else []
  }

  /** Nothing was logged and nothing is to be written. */
  predicate Silent(s: System, t: System) { t.mem.events == s.mem.events && t.queue == s.queue }

  // ---------------------------------------------------------------- turns

  lemma {:induction false} AppendWrites(s: System, r: RunState, events: seq<StreamEvent>, withRow: bool, phase: Phase, accepted: bool)
    requires r.ChannelsOpen() && events != [] && r.events == s.mem.events && r.attached == s.mem.attached
    ensures Wrote(s, Commit(s, AppendEvents(r, events, withRow), phase, accepted), events, withRow, accepted)
  {
    var e := AppendEvents(r, events, withRow);
    assert e.run.events[|r.events|..] == Number(|r.events|, events);
  }

  /** Reserving makes the run running and saves that. */
  lemma {:induction false} TurnIsReserved(s: System, accepted: bool)
    requires s.mem.ChannelsOpen() && Enabled(s, BeginTurn(accepted))
    ensures !s.mem.inFlight && s.mem.status != Stale && s.mem.session.Some?
    ensures var t := Next(s, BeginTurn(accepted));
            && t.mem == s.mem.(inFlight := true, status := Running) && t.phase == Reserved
            && t.queue == s.queue + if accepted && s.mem.attached then [Data(SaveRow(Row(Running, s.mem.session)))] else []
  {
  }

  /** One event was logged for the turn that is owned. */
  ghost predicate Logged(s: System, t: System, event: StreamEvent, status: Status, withRow: bool, accepted: bool) {
    && Wrote(s, t, [event], withRow, accepted)
    && t.mem.status == status && t.mem.session == s.mem.session && t.mem.live && t.mem.inFlight
  }

  lemma {:induction false} AppendLogs(s: System, event: StreamEvent, status: Status, phase: Phase, accepted: bool)
    requires s.mem.ChannelsOpen() && Owned(s.mem)
    ensures Logged(s, Commit(s, AppendOne(s.mem.(status := status), event), phase, accepted), event, status, event.Terminal(), accepted)
  {
    AppendWrites(s, s.mem.(status := status), [event], event.Terminal(), phase, accepted);
  }

  /** Launching records the turn, unless the reservation was taken away, and
      then only gives it back. */
  lemma {:induction false} TurnIsLaunched(s: System, apply: bool, verify: bool, explain: nat, accepted: bool)
    requires s.mem.ChannelsOpen() && Enabled(s, LaunchTurn(apply, verify, explain, accepted))
    ensures var t := Next(s, LaunchTurn(apply, verify, explain, accepted));
            if Owned(s.mem) then Logged(s, t, Turn(apply, verify, explain), Running, false, accepted) && t.phase == Diagnosing(apply)
            else Silent(s, t) && t.mem == s.mem.(inFlight := false) && t.phase == Idle
  {
    if Owned(s.mem) {
      AppendLogs(s, Turn(apply, verify, explain), Running, Diagnosing(apply), accepted);
      assert s.mem.(status := Running) == s.mem;
    }
  }

  /** What the agent reports is logged while it owns the turn, and never after. */
  lemma {:induction false} ReportIsLogged(s: System, event: StreamEvent, accepted: bool)
    requires s.mem.ChannelsOpen() && Enabled(s, AgentEvent(event, accepted))
    ensures var t := Next(s, AgentEvent(event, accepted));
            t.phase == s.phase && if Owned(s.mem) then Logged(s, t, event, Running, false, accepted) else Silent(s, t) && t.mem == s.mem
  {
    if Owned(s.mem) {
      AppendLogs(s, event, Running, s.phase, accepted);
      assert s.mem.(status := Running) == s.mem;
    }
  }

  /** What a section leaves behind when it ends the turn it owns. */
  ghost predicate EndsTurn(s: System, t: System, event: StreamEvent, status: Status, session: Option<Session>, accepted: bool) {
    && Wrote(s, t, [event], true, accepted)
    && t.mem.status == status && t.mem.session == session && t.mem.live == s.mem.live && !t.mem.inFlight && t.phase == Idle
  }

  lemma {:induction false} AppendEnds(s: System, status: Status, session: Option<Session>, event: StreamEvent, accepted: bool)
    requires s.mem.ChannelsOpen() && event.Terminal()
    ensures var e := AppendOne(s.mem.(status := status, session := session), event);
            EndsTurn(s, Commit(s, e.(run := e.run.(inFlight := false)), Idle, accepted), event, status, session, accepted)
  {
    AppendWrites(s, s.mem.(status := status, session := session), [event], true, Idle, accepted);
  }

  /** A reading turn ends done, or in error if the agent failed; its session is
      kept only if it ended well. */
  lemma {:induction false} ReadTurnEnds(s: System, result: TurnResult, accepted: bool)
    requires s.mem.ChannelsOpen() && Enabled(s, FinishRead(result, accepted))
    requires s.mem.status !in {Stopped, Stale} && s.mem.live
    ensures var t := Next(s, FinishRead(result, accepted));
            if result.failed then EndsTurn(s, t, Error(NoOutcome, false), Errored, s.mem.session, accepted)
            else EndsTurn(s, t, Done(NoOutcome, false), Finished,
                          if result.session.Some? then result.session else s.mem.session, accepted)
  {
    if result.failed {
      AppendEnds(s, Errored, s.mem.session, Error(NoOutcome, false), accepted);
    } else {
      AppendEnds(s, Finished, if result.session.Some? then result.session else s.mem.session, Done(NoOutcome, false), accepted);
    }
  }

  /** Whoever interrupted it has the last word. */
  lemma {:induction false} InterruptedReadYields(s: System, result: TurnResult, accepted: bool)
    requires s.mem.ChannelsOpen() && Enabled(s, FinishRead(result, accepted)) && (s.mem.status in {Stopped, Stale} || !s.mem.live)
    ensures var t := Next(s, FinishRead(result, accepted)); Silent(s, t) && t.mem == s.mem.(inFlight := false) && t.phase == Idle
  {
  }

  /** The terminal event of an apply: it carries the outcome, says done only of a
      confirmed change that the agent reported to the end in an unchanged context,
      and whether a verification follows. */
  predicate ClosesApply(e: StreamEvent, failed: bool, outcome: Outcome, sameContext: bool, verifying: bool) {
    && e.Terminal() && e.outcome == outcome && e.scheduled == verifying
    && (e.Done? <==> outcome == Confirmed && !failed && sameContext)
  }

  /** The turn goes on in the same reservation, with these two events between. */
  ghost predicate GoesOn(s: System, t: System, terminal: StreamEvent, next: StreamEvent, accepted: bool) {
    && Wrote(s, t, [terminal, next], true, accepted)
    && t.mem.status == Running && t.mem.session == s.mem.session && t.mem.live && t.mem.inFlight && t.phase == Diagnosing(false)
  }

  lemma {:induction false} VerificationGoesOn(s: System, terminal: StreamEvent, accepted: bool)
    requires s.mem.ChannelsOpen() && Owned(s.mem)
    ensures GoesOn(s, Commit(s, FinishApplyAndVerify(s.mem, terminal), Diagnosing(false), accepted), terminal, Turn(false, true, 0), accepted)
  {
    AppendWrites(s, s.mem, [terminal, Turn(false, true, 0)], true, Diagnosing(false), accepted);
  }

  /** An apply that may have changed the cluster, for certain or possibly, is
      verified in the same reservation if and only if the context is unchanged;
      every other apply ends the run's turn in error. */
  lemma {:induction false} ApplyIsVerifiedIff(s: System, failed: bool, outcome: Outcome, sameContext: bool, accepted: bool)
    returns (terminal: StreamEvent)
    requires s.mem.ChannelsOpen() && Enabled(s, FinishWrite(failed, outcome, sameContext, accepted)) && Owned(s.mem)
    ensures ClosesApply(terminal, failed, outcome, sameContext, sameContext && (outcome == Confirmed || outcome == Unknown))
    ensures var t := Next(s, FinishWrite(failed, outcome, sameContext, accepted));
            if sameContext && (outcome == Confirmed || outcome == Unknown) then GoesOn(s, t, terminal, Turn(false, true, 0), accepted)
            else EndsTurn(s, t, terminal, Errored, s.mem.session, accepted)
  {
    terminal := AfterApply(failed, outcome, sameContext).1;
    if AfterApply(failed, outcome, sameContext).0 {
      VerificationGoesOn(s, terminal, accepted);
    } else {
      AppendEnds(s, Errored, s.mem.session, terminal, accepted);
    }
  }

  /** What a section does that only gives its reservation back. */
  function Yielding(r: RunState): Effect { Effect(r.(inFlight := false), []) }

  lemma {:induction false} YieldingIsSilent(s: System, accepted: bool)
    ensures var t := Commit(s, Yielding(s.mem), Idle, accepted);
            Silent(s, t) && t.mem == s.mem.(inFlight := false) && t.phase == Idle
  {
  }

  lemma {:induction false} NoVerificationWhenInterrupted(r: RunState, terminal: StreamEvent)
    requires r.ChannelsOpen() && !Owned(r)
    ensures FinishApplyAndVerify(r, terminal) == Yielding(r)
  {
  }

  lemma {:induction false} NoEndWhenInterrupted(r: RunState, terminal: StreamEvent)
    requires r.ChannelsOpen() && !Owned(r)
    ensures FinishApply(r, terminal) == Yielding(r)
  {
  }

  /** An apply that was interrupted only gives its reservation back. */
  lemma {:induction false} InterruptedApplyYields(s: System, failed: bool, outcome: Outcome, sameContext: bool, accepted: bool)
    requires s.mem.ChannelsOpen() && Enabled(s, FinishWrite(failed, outcome, sameContext, accepted)) && !Owned(s.mem)
    ensures var t := Next(s, FinishWrite(failed, outcome, sameContext, accepted));
            Silent(s, t) && t.mem == s.mem.(inFlight := false) && t.phase == Idle
  {
    YieldingIsSilent(s, accepted);
    if AfterApply(failed, outcome, sameContext).0 {
      NoVerificationWhenInterrupted(s.mem, AfterApply(failed, outcome, sameContext).1);
    } else {
      NoEndWhenInterrupted(s.mem, AfterApply(failed, outcome, sameContext).1);
    }
  }

  // ---------------------------------------------------------------- interruptions

  /** Stopping an owned turn logs one error and leaves the reservation to the
      agent; stopping anything else does nothing. */
  lemma {:induction false} TurnIsStopped(s: System, accepted: bool)
    requires s.mem.ChannelsOpen() && Enabled(s, StopRun(accepted))
    ensures var t := Next(s, StopRun(accepted));
            && t.phase == s.phase
            && if Owned(s.mem) then
                 Logged(s, t, Error(if LastTurnApplies(s.mem.events) then Unknown else NoOutcome, false), Stopped, true, accepted)
               else Silent(s, t) && t.mem == s.mem
  {
    if Owned(s.mem) {
      AppendLogs(s, Error(InterruptionOutcome(s.mem), false), Stopped, s.phase, accepted);
    }
  }

  /** Final: stale, and nobody subscribed. */
  predicate GoneStale(s: System, t: System) {
    && t.mem.status == Stale && !t.mem.live && t.mem.subs == map[]
    && t.mem.inFlight == s.mem.inFlight && t.mem.session == s.mem.session && t.phase == s.phase
  }

  lemma {:induction false} HydratedGoesStale(s: System, marker: StreamEvent, accepted: bool)
    requires s.mem.ChannelsOpen()
    ensures var e := AppendEvents(s.mem.(status := Stale), [marker, Closed], true);
            var t := Commit(s, e.(run := CloseAll(e.run)), s.phase, accepted);
            Wrote(s, t, [marker, Closed], true, accepted) && GoneStale(s, t)
  {
    AppendWrites(s, s.mem.(status := Stale), [marker, Closed], true, s.phase, accepted);
  }

  /** What a switch writes about the turn it cuts off, if there is one. */
  function SwitchMarker(r: RunState): StreamEvent {
    Error(if r.inFlight && LastTurnApplies(r.events) then Unknown else NoOutcome, false)
  }

  /** A context switch finalizes a run that is not final yet and closes its log. */
  lemma {:induction false} RunGoesStale(s: System, accepted: bool)
    requires s.mem.ChannelsOpen() && Enabled(s, ContextSwitch(accepted)) && s.mem.status != Stale && s.mem.live && s.mem.hydrated
    ensures Wrote(s, Next(s, ContextSwitch(accepted)), [SwitchMarker(s.mem), Closed], true, accepted)
    ensures GoneStale(s, Next(s, ContextSwitch(accepted)))
  {
    HydratedGoesStale(s, SwitchMarker(s.mem), accepted);
  }

  /** The batch of a run whose log is not in memory is left for the store to
      number; a final run stays as it is. */
  lemma {:induction false} UnreadRunGoesStale(s: System, accepted: bool)
    requires s.mem.ChannelsOpen() && Enabled(s, ContextSwitch(accepted)) && (s.mem.status == Stale || !s.mem.live || !s.mem.hydrated)
    ensures var t := Next(s, ContextSwitch(accepted));
            if s.mem.status == Stale || !s.mem.live then Silent(s, t) && t.mem == s.mem && t.phase == s.phase
            else
              && GoneStale(s, t) && t.mem.events == s.mem.events
              && t.queue == s.queue + if accepted && s.mem.attached
                                      then [Data(AppendRows([RunEvent(0, SwitchMarker(s.mem)), RunEvent(0, Closed)], Some(Row(Stale, s.mem.session))))]
                                      else []
  {
  }

  /** Eviction detaches the run, closes its log in memory alone, and asks the
      store to forget its rows. */
  lemma {:induction false} RunIsEvicted(s: System, accepted: bool)
    requires s.mem.ChannelsOpen() && Enabled(s, Evict(accepted))
    ensures s.mem.status != Running
    ensures var t := Next(s, Evict(accepted));
            && !t.registered && !t.mem.attached && !t.mem.live && t.mem.status == s.mem.status
            && t.mem.events == s.mem.events + (if s.mem.live then [RunEvent(|s.mem.events| + 1, Closed)] else [])
            && t.queue == s.queue + if accepted then [DeleteRows] else []
  {
  }

  /** Finalizing closes the log once, tells whoever has room, and closes every
      channel; a run that still has its store, and its whole log, writes that down. */
  lemma {:induction false} FinalizingClosesTheLog(r: RunState)
    requires r.ChannelsOpen()
    ensures var (f, sentinel) := (Finalize(r), RunEvent(|r.events| + 1, Closed));
            if !r.live then f.run == r && f.writes == []
            else
              && f.run == r.(events := r.events + [sentinel], live := false, subs := map[], retired := f.run.retired)
              && f.run.retired.Keys == r.retired.Keys + r.subs.Keys
              && (forall id :: id in r.subs ==>
                    && !f.run.retired[id].open
                    && f.run.retired[id].delivered == r.subs[id].delivered + if r.subs[id].buffered < 256 then [sentinel] else [])
              && f.writes == if r.attached && r.hydrated then [AppendRows([sentinel], Some(Row(r.status, r.session)))] else []
  {
  }

  // ---------------------------------------------------------------- subscribers

  /** Nothing but the subscribers changes. */
  predicate OnlySubscribers(s: System, t: System) {
    t == s.(mem := s.mem.(subs := t.mem.subs, retired := t.mem.retired, nextSub := t.mem.nextSub))
  }

  /** Subscribing to a run that is not final opens one more channel, which holds
      the backlog and is otherwise empty; a final run opens none. */
  lemma {:induction false} SubscriberJoins(s: System, afterSeq: int)
    requires s.mem.ChannelsOpen() && Enabled(s, AddSubscriber(afterSeq))
    ensures var t := Next(s, AddSubscriber(afterSeq));
            && OnlySubscribers(s, t) && t.mem.retired == s.mem.retired
            && t.mem.subs == if s.mem.live
                             then s.mem.subs[s.mem.nextSub := Channel(afterSeq, |s.mem.events|, Backlog(s.mem.events, afterSeq), 0, true)]
                             else s.mem.subs
  {
  }

  /** Leaving closes the subscriber's channel, once. */
  lemma {:induction false} SubscriberLeaves(s: System, id: nat)
    requires s.mem.ChannelsOpen() && Enabled(s, CancelSubscriber(id))
    ensures var t := Next(s, CancelSubscriber(id));
            && OnlySubscribers(s, t) && t.mem.subs == s.mem.subs - {id}
            && t.mem.retired == if id in s.mem.subs then s.mem.retired[id := s.mem.subs[id].(open := false)] else s.mem.retired
  {
  }

  /** Taking an event makes room for another and changes nothing else. */
  lemma {:induction false} EventIsTaken(s: System, id: nat)
    requires s.mem.ChannelsOpen() && Enabled(s, TakeEvent(id))
    ensures var t := Next(s, TakeEvent(id));
            && OnlySubscribers(s, t) && t.mem.retired == s.mem.retired
            && t.mem.subs == if id in s.mem.subs && s.mem.subs[id].buffered > 0
                             then s.mem.subs[id := s.mem.subs[id].(buffered := s.mem.subs[id].buffered - 1)]
                             else s.mem.subs
  {
  }

  // ---------------------------------------------------------------- hydration and restart

  /** A read that found the log is installed if and only if the run still waits
      for it: attached, not hydrated, and either not final or closed in the log
      that was read. */
  lemma {:induction false} ReadIsInstalledIff(s: System, token: nat)
    requires s.mem.ChannelsOpen() && Enabled(s, LoadInstall(token)) && !s.mem.hydrated
    ensures var (t, log) := (Next(s, LoadInstall(token)), s.loads[token].log);
            && t.loads == s.loads - {token} && t.queue == s.queue && t.db == s.db
            && (t.mem.hydrated <==>
                  && s.mem.attached && log.Some?
                  && (s.mem.live || (log.value != [] && log.value[|log.value| - 1].event == Closed)))
            && t.mem == if t.mem.hydrated then s.mem.(events := log.value, hydrated := true) else s.mem
  {
  }

  /** A read holds what the database holds as it runs, or nothing. */
  lemma {:induction false} ReadHolds(s: System, token: nat, readable: bool)
    requires s.mem.ChannelsOpen() && Enabled(s, LoadFetch(token, readable))
    ensures var t := Next(s, LoadFetch(token, readable));
            && t == s.(loads := t.loads) && t.loads.Keys == s.loads.Keys
            && (forall k :: k in s.loads && k != token ==> t.loads[k] == s.loads[k])
            && t.loads[token] == Fetched(if readable then LogOf(s.db.table) else None, s.loads[token].drained)
  {
  }

  /** A restart knows of a run what its row says: one that was running is in
      error and gets a marker that the store numbers, the others are as they
      were, and the log stays in the store until somebody asks for it. */
  lemma {:induction false} RunIsRestored(s: System, readable: bool, dropSession: bool, accepted: bool)
    requires s.mem.ChannelsOpen() && Enabled(s, Restart(readable, dropSession, accepted))
    ensures var (t, row) := (Next(s, Restart(readable, dropSession, accepted)), s.db.row.value);
            var session := if dropSession then None else row.session;
            var log := if readable then LogOf(s.db.table) else None;
            var marker := Error(if log.None? || OpenTurnWasApply(log.value) then Unknown else NoOutcome, false);
            && t.registered && t.phase == Idle && t.db == s.db && t.loads == map[] && !t.closed
            && !t.mem.hydrated && t.mem.events == [] && !t.mem.inFlight && t.mem.subs == map[] && t.mem.attached
            && t.mem.session == session
            && t.mem.status == (if row.status == Running then Errored else row.status)
            && (t.mem.live <==> row.status != Stale)
            && t.queue == if row.status == Running && accepted
                          then [Data(AppendRows([RunEvent(0, marker)], Some(Row(Errored, session))))] else []
  {
  }
}
