/** What a hydrating read returns, exactly: when it is the whole durable log,
    with or without a barrier, whatever else was lost. */
module RunReads {
  import opened Wrappers
  import opened RunEvents
  import opened RunSpec
  import opened DurableLog
  import opened RunProtocol
  import opened RunMemory
  import opened RunGrammar
  import opened RunDurability
  import opened RunSafety
  import opened RunInvariant
  import opened RunHistory
  import L = RunLedger

  ghost predicate NonEmptyAppends(queue: seq<Op>) {
    forall i :: 0 <= i < |queue| && L.IsAppend(queue[i]) ==> queue[i].write.batch != []
  }

  /** Draining appends extends the log that could be read before, by nothing
      only if there is none. */
  lemma {:induction false} DrainingExtends(d: DurableRun, queue: seq<Op>)
    requires OnlyAppends(queue) && NonEmptyAppends(queue) && LogOf(d.table).Some?
    ensures LogOf(Drain(d, queue).table).Some?
    ensures if HasAppend(queue) then LogOf(d.table).value < LogOf(Drain(d, queue).table).value
            else Drain(d, queue) == d
    decreases |queue|
  {
    if queue != [] {
      var (op, rest) := (queue[0], queue[1..]);
      assert forall i :: 0 <= i < |rest| ==> rest[i] == queue[i + 1];
      if op.Data? { OneAppendExtends(d, op); }
      DrainingExtends(ApplyOp(d, op), rest);
      if i :| 0 <= i < |queue| && L.IsAppend(queue[i]) {
        assert i > 0 ==> L.IsAppend(rest[i - 1]);
      }
      if i :| 0 <= i < |rest| && L.IsAppend(rest[i]) {
        assert L.IsAppend(queue[i + 1]);
      }
    }
  }

  lemma {:induction false} OneAppendExtends(d: DurableRun, op: Op)
    requires Unnumbered(op) && op.write.batch != [] && LogOf(d.table).Some?
    ensures LogOf(ApplyOp(d, op).table).Some? && LogOf(d.table).value < LogOf(ApplyOp(d, op).table).value
  {
    var batch := op.write.batch;
    var events := seq(|batch|, i requires 0 <= i < |batch| => batch[i].event);
    forall i | 0 <= i < |batch| ensures batch[i] == RunEvent(0, events[i]) {
      assert batch[i] in batch;
    }
    TableAfterAppend(d.table, LogOf(d.table).value, events, batch, false);
  }

  predicate EndsClosed(log: seq<RunEvent>) { log != [] && log[|log| - 1].event.Closed? }

  /** What has become of a log since it was read. */
  ghost predicate ReadStands(h: History, token: nat, log: seq<RunEvent>) {
    var s := h.sys;
    && (s.mem.live && token !in h.behind ==> LogOf(s.db.table) == Some(log) && !HasAppend(s.queue))
    && (s.mem.live && token in h.behind ==>
          if HasAppend(s.queue) then LogOf(s.db.table) == Some(log)
          else LogOf(s.db.table).Some? && log < LogOf(s.db.table).value)
    && (EndsClosed(log) ==> LogOf(s.db.table) == Some(log) && !HasAppend(s.queue) && !s.mem.live)
  }

  ghost predicate ReadsInv(h: History) {
    var s := h.sys;
    !s.mem.hydrated && s.mem.attached ==>
      forall t :: t in s.loads && s.loads[t].Fetched? && s.loads[t].log.Some? ==> ReadStands(h, t, s.loads[t].log.value)
  }

  // ---------------------------------------------------------------- steps

  lemma {:induction false} ShapedAppends(h: History)
    requires L.Shaped(LedgerOf(h))
    ensures NonEmptyAppends(h.sys.queue)
  {
    forall i | 0 <= i < |h.sys.queue| && L.IsAppend(h.sys.queue[i]) ensures h.sys.queue[i].write.batch != [] {
      assert L.WriteShape(LedgerOf(h).queue[i].write);
    }
  }

  lemma {:induction false} ClosedLogIsFinal(h: History, log: seq<RunEvent>)
    requires L.Ended(LedgerOf(h)) && LogOf(h.sys.db.table) == Some(log) && EndsClosed(log)
    ensures !HasAppend(h.sys.queue) && !h.sys.mem.live
  {
    ReadLogIsHeld(h.sys.db.table);
    assert L.ClosedAt(h.sys.db.table, |log|);
  }

  lemma {:induction false} FetchStands(h: History, token: nat, readable: bool)
    requires h.sys.mem.ChannelsOpen() && |h.tags| == |h.sys.queue| && Enabled(h.sys, LoadFetch(token, readable))
    requires L.Ended(LedgerOf(h)) && ReadsInv(h)
    ensures ReadsInv(After(h, LoadFetch(token, readable)))
  {
    var s, g := h.sys, After(h, LoadFetch(token, readable));
    if !s.mem.hydrated && s.mem.attached {
      forall t | t in g.sys.loads && g.sys.loads[t].Fetched? && g.sys.loads[t].log.Some?
        ensures ReadStands(g, t, g.sys.loads[t].log.value)
      {
        if t == token {
          if EndsClosed(g.sys.loads[t].log.value) { ClosedLogIsFinal(h, g.sys.loads[t].log.value); }
        } else {
          assert ReadStands(h, t, s.loads[t].log.value);
        }
      }
    }
  }

  lemma {:induction false} TakenStands(h: History, fails: bool, s': System, token: nat, log: seq<RunEvent>)
    requires h.sys.queue != [] && |h.tags| == |h.sys.queue| && ReadStands(h, token, log)
    requires OnlyAppends(h.sys.queue) && NonEmptyAppends(h.sys.queue) && (h.sys.mem.live ==> OnlyBarriers(h.sys.queue[1..]))
    requires fails ==> !h.sys.queue[0].Barrier?
    requires s'.db == (if fails then h.sys.db else ApplyOp(h.sys.db, h.sys.queue[0])) && s'.queue == h.sys.queue[1..] && s'.mem == h.sys.mem
    ensures ReadStands(Note(h, WriterStep(fails), s'), token, log)
  {
    var (q, rest) := (h.sys.queue, h.sys.queue[1..]);
    assert HasAppend(rest) ==> HasAppend(q) by {
      if i :| 0 <= i < |rest| && L.IsAppend(rest[i]) { assert L.IsAppend(q[i + 1]); }
    }
    if L.IsAppend(q[0]) {
      assert HasAppend(q);
      if h.sys.mem.live && !fails { OneAppendExtends(h.sys.db, q[0]); }
    } else if i :| 0 <= i < |q| && L.IsAppend(q[i]) {
      assert L.IsAppend(rest[i - 1]);
    }
  }

  lemma {:induction false} WriterStands(h: History, fails: bool)
    requires h.sys.mem.ChannelsOpen() && |h.tags| == |h.sys.queue| && Enabled(h.sys, WriterStep(fails))
    requires LoadInv(h.sys) && L.Shaped(LedgerOf(h)) && ReadsInv(h)
    ensures ReadsInv(After(h, WriterStep(fails)))
  {
    var s, s' := h.sys, Written(h.sys, fails);
    if !s.mem.hydrated && s.mem.attached {
      ShapedAppends(h);
      if fails { FailedDatabase(s); } else { WrittenDatabase(s); }
      forall t | t in s'.loads && s'.loads[t].Fetched? && s'.loads[t].log.Some?
        ensures ReadStands(Note(h, WriterStep(fails), s'), t, s'.loads[t].log.value)
      {
        assert s'.loads[t] == s.loads[t];
        TakenStands(h, fails, s', t, s.loads[t].log.value);
      }
    }
  }

  /** A step that leaves the rows, the queue and the reads alone. */
  lemma {:induction false} UntouchedStands(h: History, g: History)
    requires ReadsInv(h) && g.sys.db == h.sys.db && g.behind == h.behind
    requires g.sys.mem.hydrated == h.sys.mem.hydrated && g.sys.mem.attached == h.sys.mem.attached && (g.sys.mem.live ==> h.sys.mem.live)
    requires forall t :: t in g.sys.loads && g.sys.loads[t].Fetched? ==> t in h.sys.loads && g.sys.loads[t] == h.sys.loads[t]
    requires HasAppend(g.sys.queue) <==> HasAppend(h.sys.queue)
    ensures ReadsInv(g)
  {
    forall t | !g.sys.mem.hydrated && g.sys.mem.attached && t in g.sys.loads && g.sys.loads[t].Fetched? && g.sys.loads[t].log.Some?
      ensures ReadStands(g, t, g.sys.loads[t].log.value)
    {
      assert ReadStands(h, t, h.sys.loads[t].log.value);
    }
  }

  lemma {:induction false} BeginStands(h: History, token: nat)
    requires h.sys.mem.ChannelsOpen() && |h.tags| == |h.sys.queue| && Enabled(h.sys, LoadBegin(token)) && ReadsInv(h)
    ensures ReadsInv(After(h, LoadBegin(token)))
  {
    var s, g := h.sys, After(h, LoadBegin(token));
    assert HasAppend(g.sys.queue) <==> HasAppend(s.queue) by {
      if i :| 0 <= i < |s.queue| && L.IsAppend(s.queue[i]) { assert L.IsAppend(g.sys.queue[i]); }
    }
    forall t | !s.mem.hydrated && s.mem.attached && t in g.sys.loads && g.sys.loads[t].Fetched? && g.sys.loads[t].log.Some?
      ensures ReadStands(g, t, g.sys.loads[t].log.value)
    {
      assert t != token && ReadStands(h, t, s.loads[t].log.value);
    }
  }

  lemma {:induction false} InstallStands(h: History, token: nat)
    requires h.sys.mem.ChannelsOpen() && |h.tags| == |h.sys.queue| && Enabled(h.sys, LoadInstall(token)) && ReadsInv(h)
    ensures ReadsInv(After(h, LoadInstall(token)))
  {
    var s, g := h.sys, After(h, LoadInstall(token));
    InstallCases(s, token);
    InstallForgets(s, token);
    forall t | !g.sys.mem.hydrated && g.sys.mem.attached && t in g.sys.loads && g.sys.loads[t].Fetched? && g.sys.loads[t].log.Some?
      ensures ReadStands(g, t, g.sys.loads[t].log.value)
    {
      assert ReadStands(h, t, s.loads[t].log.value);
    }
  }

  lemma {:induction false} InstallForgets(s: System, token: nat)
    requires s.mem.ChannelsOpen() && Enabled(s, LoadInstall(token))
    ensures Next(s, LoadInstall(token)).loads == s.loads - {token}
  {
  }

  /** A context switch ends the run; a log read back whole is still whole. */
  lemma {:induction false} SwitchStands(h: History, accepted: bool)
    requires RunInv(h.sys.mem, h.sys.phase, h.sys.registered) && |h.tags| == |h.sys.queue|
    requires Enabled(h.sys, ContextSwitch(accepted)) && ReadsInv(h) && !h.sys.mem.hydrated
    ensures ReadsInv(After(h, ContextSwitch(accepted)))
  {
    var s, step := h.sys, ContextSwitch(accepted);
    var g := After(h, step);
    SectionWritesOnce(s, step);
    SectionRuns(s, step);
    SectionKeepsAttachment(s, step);
    StaleEnds(s);
    forall t | g.sys.mem.attached && t in g.sys.loads && g.sys.loads[t].Fetched? && g.sys.loads[t].log.Some?
      ensures ReadStands(g, t, g.sys.loads[t].log.value)
    {
      assert ReadStands(h, t, s.loads[t].log.value);
    }
  }

  lemma {:induction false} StaleEnds(s: System)
    requires RunInv(s.mem, s.phase, s.registered)
    ensures !MarkStale(s.mem).run.live && (!s.mem.live ==> MarkStale(s.mem).writes == [])
  {
  }

  lemma {:induction false} OtherStands(h: History, step: Step)
    requires RunInv(h.sys.mem, h.sys.phase, h.sys.registered) && |h.tags| == |h.sys.queue| && Enabled(h.sys, step) && ReadsInv(h)
    requires !step.LoadBegin? && !step.LoadFetch? && !step.LoadInstall? && !step.WriterStep? && !step.ContextSwitch? && !step.Restart?
    requires !h.sys.mem.hydrated && !step.ClearRequest?
    ensures ReadsInv(After(h, step))
  {
    OtherStepsLeaveUnhydrated(h.sys, step);
    assert After(h, step).behind == h.behind;
    if Next(h.sys, step).mem.attached {
      UntouchedStands(h, After(h, step));
    }
  }

  lemma {:induction false} LoadsStand(h: History, step: Step)
    requires HistoryInv(h) && Enabled(h.sys, step) && ReadsInv(h) && |h.tags| == |h.sys.queue|
    requires step.LoadBegin? || step.LoadFetch? || step.LoadInstall? || step.WriterStep?
    ensures ReadsInv(After(h, step))
  {
    match step {
      case LoadBegin(token) => BeginStands(h, token);
      case LoadFetch(token, readable) => if h.stored { FetchStands(h, token, readable); } else { assert Storeless(h); }
      case LoadInstall(token) => InstallStands(h, token);
      case WriterStep(fails) => WriterStands(h, fails);
    }
  }

  lemma {:induction false} HydratedStands(h: History, step: Step)
    requires h.sys.mem.ChannelsOpen() && Enabled(h.sys, step) && |h.tags| == |h.sys.queue| && h.sys.mem.hydrated && !step.Restart?
    ensures ReadsInv(After(h, step))
  {
    HydrationStays(h.sys, step);
  }

  lemma {:induction false} RestartStands(h: History, step: Step)
    requires h.sys.mem.ChannelsOpen() && Enabled(h.sys, step) && |h.tags| == |h.sys.queue| && step.Restart?
    ensures ReadsInv(After(h, step))
  {
  }

  lemma {:induction false} ReadsStep(h: History, step: Step)
    requires HistoryInv(h) && Enabled(h.sys, step) && ReadsInv(h) && |h.tags| == |h.sys.queue|
    ensures ReadsInv(After(h, step))
  {
    if step.Restart? {
      RestartStands(h, step);
    } else if h.sys.mem.hydrated {
      HydratedStands(h, step);
    } else if step.LoadBegin? || step.LoadFetch? || step.LoadInstall? || step.WriterStep? {
      LoadsStand(h, step);
    } else if step.ContextSwitch? {
      SwitchStands(h, step.accepted);
    } else {
      OtherStands(h, step);
    }
  }

  lemma {:induction false} ReadsAlong(h: History, steps: seq<Step>, t: History)
    requires HistoryInv(h) && ReadsInv(h) && Told(h, steps, t)
    ensures ReadsInv(t)
    decreases |steps|
  {
    if steps != [] {
      HistoryStep(h, steps[0]);
      ReadsStep(h, steps[0]);
      ReadsAlong(After(h, steps[0]), steps[1..], t);
    }
  }

  lemma {:induction false} RecordedReads(t: History)
    requires Recorded(t)
    ensures HistoryInv(t) && ReadsInv(t)
  {
    var stored: bool, accepted: bool, steps: seq<Step> :| Told(Opened(stored, accepted), steps, t);
    OpenedHolds(stored, accepted);
    ToldKeeps(Opened(stored, accepted), steps, t);
    ReadsAlong(Opened(stored, accepted), steps, t);
  }

  // ---------------------------------------------------------------- what a read returns

  /** A read finds the whole durable log if and only if no append of the run is
      queued as it runs, barrier or not. */
  lemma {:induction false} ReadIsWholeIff(h: History)
    requires Recorded(h) && !h.sys.mem.hydrated && h.sys.mem.attached && LogOf(h.sys.db.table).Some?
    ensures LogOf(h.sys.db.table) == LogOf(Drain(h.sys.db, h.sys.queue).table) <==> !HasAppend(h.sys.queue)
  {
    RecordedHolds(h);
    ShapedAppends(h);
    DrainingExtends(h.sys.db, h.sys.queue);
  }

  /** The installed log is the whole durable log, whatever happened since it was
      read and whatever was lost, if and only if the run was over, or the read
      went through its barrier, or no append of the run was queued as it ran. */
  lemma {:induction false} InstalledLogIsWholeIff(h: History, token: nat)
    requires Recorded(h) && h.sys.mem.ChannelsOpen() && Enabled(h.sys, LoadInstall(token))
    requires !h.sys.mem.hydrated && Next(h.sys, LoadInstall(token)).mem.hydrated
    ensures var (s, t) := (h.sys, Next(h.sys, LoadInstall(token)));
            LogOf(Drain(s.db, s.queue).table) == Some(t.mem.events) <==>
            !s.mem.live || s.loads[token].drained || token !in h.behind
  {
    RecordedReads(h);
    var s, load := h.sys, h.sys.loads[token];
    InstallCases(s, token);
    assert ReadStands(h, token, load.log.value);
    assert s.mem.live || EndsClosed(load.log.value);
    ShapedAppends(h);
    DrainingExtends(s.db, s.queue);
    if s.mem.live && load.drained {
      assert LoadIsCurrent(s, load);
      if HasAppend(s.queue) { assert false; }
    }
  }
}
