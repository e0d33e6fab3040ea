/** The event log of one investigation: its vocabulary and its grammar.

    The grammar is an automaton that reads a log left to right. It is stated
    once here and everything else (the in-memory run, the durable copy, crash
    recovery) is proved to stay inside it. */
module RunEvents {
  import opened Wrappers

  datatype Outcome = NoOutcome | Confirmed | Unknown | Failed

  /** One tool invocation reported by the agent. */
  datatype StepInfo = StepInfo(
    id: string, tool: string, status: string, summary: string, result: string,
    isError: Option<bool>, truncated: bool, evidenceRef: string, radarEvidence: bool)

  datatype StreamEvent =
    | Turn(apply: bool, verify: bool, explain: nat)
    | Phase
    | Thinking
    | StepEvent(step: Option<StepInfo>)
    | Done(outcome: Outcome, scheduled: bool)
    | Error(outcome: Outcome, scheduled: bool)
    | Closed
  {
    /** Events an agent callback may report. */
    predicate Progress() { Phase? || Thinking? || StepEvent? }

    predicate Terminal() { Done? || Error? }
  }

  datatype RunEvent = RunEvent(num: nat, event: StreamEvent)

  /** Where a reader of the log stands.
      Owed: an apply was closed with a verification scheduled, whose turn has
      not been read yet. Sealed: the end-of-stream sentinel was read. */
  datatype LogMode = Quiet | Open(apply: bool) | Owed | Sealed | Broken

  function Advance(mode: LogMode, event: StreamEvent): LogMode {
    match event
    case Turn(apply, verify, _) =>
      if apply && verify then Broken
      else if mode.Quiet? then Open(apply)
      else if mode.Owed? && verify then Open(false)
      else Broken
    case Phase => if mode.Open? then mode else Broken
    case Thinking => if mode.Open? then mode else Broken
    case StepEvent(_) => if mode.Open? then mode else Broken
    case Done(outcome, scheduled) =>
      if mode == Open(false) && outcome.NoOutcome? && !scheduled then Quiet
      else if mode == Open(true) && outcome.Confirmed? && scheduled then Owed
      else Broken
    case Error(outcome, scheduled) =>
      if scheduled then
        (if mode == Open(true) && (outcome.Confirmed? || outcome.Unknown?) then Owed else Broken)
      else if mode.Quiet? then Quiet
      else if mode.Open? && (mode.apply ==> !outcome.NoOutcome?) then Quiet
      else Broken
    case Closed => if mode.Quiet? then Sealed else Broken
  }

  function Mode(log: seq<RunEvent>): LogMode {
    if log == [] then Quiet
    else Advance(Mode(log[..|log| - 1]), log[|log| - 1].event)
  }

  /** A log that may be observed: inside the grammar, and never between an
      apply's terminal event and the verification turn it promised. */
  predicate WellFormed(log: seq<RunEvent>) {
    !Mode(log).Broken? && !Mode(log).Owed?
  }

  /** Sequence numbers count from one without a gap. */
  predicate Numbered(log: seq<RunEvent>) {
    forall i :: 0 <= i < |log| ==> log[i].num == i + 1
  }

  /** Gives `events` the sequence numbers that follow `last`. */
  function Number(last: nat, events: seq<StreamEvent>): (batch: seq<RunEvent>)
    ensures |batch| == |events|
    ensures forall i :: 0 <= i < |events| ==> batch[i] == RunEvent(last + i + 1, events[i])
    decreases |events|
  {
    if events == [] then []
    else [RunEvent(last + 1, events[0])] + Number(last + 1, events[1..])
  }

  lemma {:induction false} ModeOfExtension(log: seq<RunEvent>, e: RunEvent)
    ensures Mode(log + [e]) == Advance(Mode(log), e.event)
  {
    assert (log + [e])[..|log|] == log;
  }

  lemma {:induction false} BrokenForever(log: seq<RunEvent>, more: seq<RunEvent>)
    requires Mode(log).Broken?
    ensures Mode(log + more).Broken?
  {
    if more == [] {
      assert log + more == log;
    } else {
      var init := more[..|more| - 1];
      BrokenForever(log, init);
      assert log + more == log + init + [more[|more| - 1]];
      ModeOfExtension(log + init, more[|more| - 1]);
    }
  }

  /** The sentinel is last: nothing that extends a sealed log stays in the grammar. */
  lemma {:induction false} SealedIsLast(log: seq<RunEvent>, more: seq<RunEvent>)
    requires Mode(log).Sealed? && more != []
    ensures Mode(log + more).Broken?
  {
    ModeOfExtension(log, more[0]);
    BrokenForever(log + [more[0]], more[1..]);
    assert log + [more[0]] + more[1..] == log + more;
  }

  lemma {:induction false} PrefixNotBroken(log: seq<RunEvent>, k: nat)
    requires k <= |log| && !Mode(log).Broken?
    ensures !Mode(log[..k]).Broken?
  {
    assert log[..k] + log[k..] == log;
    if Mode(log[..k]).Broken? {
      BrokenForever(log[..k], log[k..]);
    }
  }

  /** The sentinel occurs at most once, and only at the end. */
  lemma {:induction false} ClosedOnlyAtTheEnd(log: seq<RunEvent>, i: nat)
    requires !Mode(log).Broken? && i < |log| && log[i].event.Closed?
    ensures i == |log| - 1 && Mode(log).Sealed?
  {
    PrefixNotBroken(log, i + 1);
    assert log[..i + 1] == log[..i] + [log[i]];
    ModeOfExtension(log[..i], log[i]);
    assert log[..i + 1] + log[i + 1..] == log;
    if i + 1 < |log| {
      SealedIsLast(log[..i + 1], log[i + 1..]);
    } else {
      assert log[..i + 1] == log;
    }
  }

  /** A turn is only ever recorded while no turn is open, and agent progress
      only while one is. */
  lemma {:induction false} TurnsNeverOverlap(log: seq<RunEvent>, i: nat)
    requires !Mode(log).Broken? && i < |log|
    ensures log[i].event.Turn? ==> Mode(log[..i]).Quiet? || Mode(log[..i]).Owed?
    ensures log[i].event.Progress() ==> Mode(log[..i]).Open?
    ensures log[i].event.Done? ==> Mode(log[..i]).Open?
  {
    PrefixNotBroken(log, i + 1);
    assert log[..i + 1] == log[..i] + [log[i]];
    ModeOfExtension(log[..i], log[i]);
  }

  /** A `done` that closes an apply turn carries a confirmed outcome, and every
      event that schedules a verification is immediately followed by its turn. */
  lemma {:induction false} ApplyClosesHonestly(log: seq<RunEvent>, i: nat)
    requires WellFormed(log) && i < |log|
    ensures log[i].event.Done? && Mode(log[..i]) == Open(true) ==> log[i].event.outcome.Confirmed?
    ensures log[i].event.Terminal() && Mode(log[..i]) == Open(true) ==> !log[i].event.outcome.NoOutcome?
    ensures log[i].event.Terminal() && log[i].event.scheduled ==>
              Mode(log[..i]) == Open(true) && i + 1 < |log| &&
              log[i + 1].event.Turn? && log[i + 1].event.verify && !log[i + 1].event.apply
  {
    PrefixNotBroken(log, i + 1);
    assert log[..i + 1] == log[..i] + [log[i]];
    ModeOfExtension(log[..i], log[i]);
    if log[i].event.Terminal() && log[i].event.scheduled {
      assert Mode(log[..i + 1]).Owed?;
      assert log[..|log|] == log;
      if i + 1 < |log| {
        PrefixNotBroken(log, i + 2);
        assert log[..i + 2] == log[..i + 1] + [log[i + 1]];
        ModeOfExtension(log[..i + 1], log[i + 1]);
      }
    }
  }

  /** The most recent turn marker, whether or not that turn is still open. */
  function LastTurn(log: seq<RunEvent>): Option<StreamEvent> {
    if log == [] then None
    else if log[|log| - 1].event.Turn? then Some(log[|log| - 1].event)
    else LastTurn(log[..|log| - 1])
  }

  predicate LastTurnApplies(log: seq<RunEvent>) {
    var turn := LastTurn(log);
    turn.Some? && turn.value.Turn? && turn.value.apply
  }

  /** While a turn is open the most recent marker is that turn's. */
  lemma {:induction false} LastTurnIsTheOpenOne(log: seq<RunEvent>)
    requires Mode(log).Open?
    ensures LastTurnApplies(log) <==> Mode(log) == Open(true)
  {
    var init := log[..|log| - 1];
    assert log == init + [log[|log| - 1]];
    if !log[|log| - 1].event.Turn? {
      LastTurnIsTheOpenOne(init);
    }
  }

  /** Scans back to the nearest turn or terminal event
      and reports whether it is an apply turn. */
  function OpenTurnWasApply(log: seq<RunEvent>): bool {
    if log == [] then false
    else
      var last := log[|log| - 1].event;
      if last.Turn? then last.apply
      else if last.Terminal() then false
      else OpenTurnWasApply(log[..|log| - 1])
  }

  method LastOpenTurnWasApply(events: seq<RunEvent>) returns (apply: bool)
    ensures apply == OpenTurnWasApply(events)
  {
    var i := |events|;
    assert events[..i] == events;
    while i > 0
      invariant 0 <= i <= |events|
      invariant OpenTurnWasApply(events[..i]) == OpenTurnWasApply(events)
    {
      assert events[..i][..i - 1] == events[..i - 1];
      i := i - 1;
      match events[i].event {
        case Turn(a, _, _) => return a;
        case Done(_, _) => return false;
        case Error(_, _) => return false;
        case _ =>
      }
    }
    return false;
  }

  /** On a log inside the grammar the backward scan finds exactly an open apply. */
  lemma {:induction false} ScanFindsTheOpenApply(log: seq<RunEvent>)
    requires !Mode(log).Broken?
    ensures OpenTurnWasApply(log) <==> Mode(log) == Open(true)
  {
    if log != [] {
      PrefixNotBroken(log, |log| - 1);
      var init := log[..|log| - 1];
      if !log[|log| - 1].event.Turn? && !log[|log| - 1].event.Terminal() {
        ScanFindsTheOpenApply(init);
      }
    }
  }
}
