/** Every step keeps the log in memory inside the grammar. */
module RunGrammar {
  import opened Wrappers
  import opened RunEvents
  import opened RunSpec
  import opened RunProtocol
  import opened RunMemory

  /** Where the log must stand, given what the run and its turn are doing. */
  ghost predicate InGrammar(r: RunState, phase: Phase) {
    r.hydrated ==>
      var mode := Mode(r.events);
      && !mode.Broken? && !mode.Owed?
      && (mode.Sealed? <==> !r.live)
      && (r.status.Running? && phase.Reserved? ==> mode.Quiet?)
      && (r.status.Running? && phase.Diagnosing? ==> mode == Open(phase.apply))
      && (!r.status.Running? ==> mode.Quiet? || mode.Sealed?)
  }

  lemma {:induction false} OneMoreAdvances(log: seq<RunEvent>, event: StreamEvent)
    ensures Mode(log + Number(|log|, [event])) == Advance(Mode(log), event)
  {
    assert Number(|log|, [event]) == [RunEvent(|log| + 1, event)];
    ModeOfExtension(log, RunEvent(|log| + 1, event));
  }

  lemma {:induction false} AppendOneAdvances(r: RunState, event: StreamEvent)
    requires r.ChannelsOpen()
    ensures Mode(AppendOne(r, event).run.events) == Advance(Mode(r.events), event)
  {
    OneMoreAdvances(r.events, event);
  }

  lemma {:induction false} TwoMoreAdvance(log: seq<RunEvent>, first: StreamEvent, second: StreamEvent)
    ensures Mode(log + Number(|log|, [first, second])) == Advance(Advance(Mode(log), first), second)
  {
    var n := |log|;
    assert log + Number(n, [first, second]) == log + [RunEvent(n + 1, first)] + [RunEvent(n + 2, second)];
    ModeOfExtension(log, RunEvent(n + 1, first));
    ModeOfExtension(log + [RunEvent(n + 1, first)], RunEvent(n + 2, second));
  }

  lemma {:induction false} AppendTwoAdvances(r: RunState, first: StreamEvent, second: StreamEvent, persistRow: bool)
    requires r.ChannelsOpen()
    ensures Mode(AppendEvents(r, [first, second], persistRow).run.events) == Advance(Advance(Mode(r.events), first), second)
  {
    TwoMoreAdvance(r.events, first, second);
  }

  lemma {:induction false} LaunchStays(r: RunState, registered: bool, turn: StreamEvent)
    requires RunInv(r, Reserved, registered) && InGrammar(r, Reserved)
    requires turn.Turn? && !(turn.apply && turn.verify)
    ensures InGrammar(Launch(r, turn).run, if Owns(r) then Diagnosing(turn.apply) else Idle)
  {
    AppendOneAdvances(r, turn);
  }

  lemma {:induction false} StreamStays(r: RunState, registered: bool, phase: Phase, event: StreamEvent)
    requires RunInv(r, phase, registered) && InGrammar(r, phase)
    requires phase.Diagnosing? && event.Progress()
    ensures InGrammar(Stream(r, event).run, phase)
  {
    AppendOneAdvances(r, event);
  }

  lemma {:induction false} FinishTurnStays(r: RunState, registered: bool, result: TurnResult)
    requires RunInv(r, Diagnosing(false), registered) && InGrammar(r, Diagnosing(false))
    ensures InGrammar(FinishTurn(r, result, false).run, Idle)
  {
    if r.status.Stopped? || r.status.Stale? || !r.live {
    } else if result.failed {
      AppendOneAdvances(r.(status := Errored), Error(NoOutcome, false));
    } else {
      var session := if result.session.Some? then result.session else r.session;
      AppendOneAdvances(r.(status := Finished, session := session), Done(NoOutcome, false));
    }
  }

  lemma {:induction false} FinishWriteStays(r: RunState, registered: bool, failed: bool, outcome: Outcome, sameContext: bool)
    requires RunInv(r, Diagnosing(true), registered) && InGrammar(r, Diagnosing(true))
    requires !outcome.NoOutcome?
    ensures var (verify, terminal) := AfterApply(failed, outcome, sameContext);
            if verify
            then InGrammar(FinishApplyAndVerify(r, terminal).run, if Owns(r) then Diagnosing(false) else Idle)
            else InGrammar(FinishApply(r, terminal).run, Idle)
  {
    var (verify, terminal) := AfterApply(failed, outcome, sameContext);
    if verify {
      AppendTwoAdvances(r, terminal, Turn(false, true, 0), true);
    } else {
      AppendOneAdvances(r.(status := Errored), terminal);
    }
  }

  /** The marker a stopped or abandoned turn gets names an uncertain apply
      whenever the open turn is one. */
  lemma {:induction false} InterruptionIsHonest(r: RunState)
    requires r.inFlight && Mode(r.events) == Open(true)
    ensures InterruptionOutcome(r).Unknown?
  {
    LastTurnIsTheOpenOne(r.events);
  }

  lemma {:induction false} InterruptStays(r: RunState, registered: bool, phase: Phase)
    requires RunInv(r, phase, registered) && InGrammar(r, phase)
    ensures InGrammar(Interrupt(r).run, phase)
  {
    if Owns(r) {
      var marker := Error(InterruptionOutcome(r), false);
      if Mode(r.events) == Open(true) { InterruptionIsHonest(r); }
      assert r.hydrated && Mode(r.events) != Open(true) ==> Advance(Mode(r.events), marker).Quiet?;
      AppendOneAdvances(r.(status := Stopped), marker);
    }
  }

  lemma {:induction false} MarkStaleStays(r: RunState, registered: bool, phase: Phase)
    requires RunInv(r, phase, registered) && InGrammar(r, phase)
    ensures InGrammar(MarkStale(r).run, phase)
  {
    if r.live && r.hydrated {
      if Mode(r.events) == Open(true) { InterruptionIsHonest(r); }
      AppendTwoAdvances(r.(status := Stale), Error(InterruptionOutcome(r), false), Closed, true);
    }
  }

  lemma {:induction false} DropStays(r: RunState, registered: bool, phase: Phase)
    requires RunInv(r, phase, registered) && InGrammar(r, phase) && !r.status.Running?
    ensures InGrammar(Drop(r), phase)
  {
    ModeOfExtension(r.events, RunEvent(|r.events| + 1, Closed));
  }

  /** Exactly when it is right: an interruption reports an uncertain apply if
      and only if the open turn is one, unless no turn is open and the turn
      before was an apply. */
  lemma {:induction false} InterruptionAttribution(r: RunState, registered: bool, phase: Phase)
    requires RunInv(r, phase, registered) && InGrammar(r, phase) && Owns(r)
    ensures (InterruptionOutcome(r).Unknown? <==> Mode(r.events) == Open(true)) <==>
            !(phase.Reserved? && LastTurnApplies(r.events))
  {
    if Mode(r.events).Open? { LastTurnIsTheOpenOne(r.events); }
  }
}
