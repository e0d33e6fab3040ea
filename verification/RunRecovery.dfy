/** What a crash can leave behind, exactly: which open turns a restart does not
    see, whatever writes were lost before. */
module RunRecovery {
  import opened Wrappers
  import opened RunEvents
  import opened RunSpec
  import opened DurableLog
  import opened RunProtocol
  import opened RunGrammar
  import opened RunDurability
  import opened RunSafety
  import opened RunHistory
  import L = RunLedger

  /** The number of the most recent turn marker. */
  function OpenTurn(log: seq<RunEvent>): nat {
    if log == [] then 0
    else if log[|log| - 1].event.Turn? then |log|
    else OpenTurn(log[..|log| - 1])
  }

  /** While a turn is open nothing has ended since its marker, and whatever came
      right before the marker was the end of a turn. */
  lemma {:induction false} OpenTurnIsLast(log: seq<RunEvent>)
    requires Mode(log).Open?
    ensures var t := OpenTurn(log);
            && 1 <= t <= |log| && log[t - 1].event.Turn?
            && (forall i :: t <= i < |log| ==> log[i].event.Progress())
            && (t >= 2 ==> log[t - 2].event.Terminal())
  {
    var init := log[..|log| - 1];
    if log[|log| - 1].event.Turn? {
      if |log| >= 2 {
        assert init[|init| - 1] == log[|log| - 2];
        assert Mode(init) == Advance(Mode(init[..|init| - 1]), init[|init| - 1].event);
      }
    } else {
      OpenTurnIsLast(init);
    }
  }

  /** The save that announced the turn was lost, no row was written since, and
      no row of an earlier process still says running in its place. */
  predicate Unannounced(h: History, t: nat) {
    t in h.saves && h.saves[t].Lost? && !(h.wrote.Some? && h.wrote.value >= t) && !h.leftover
  }

  /** The same of the rows that hold the log. */
  lemma {:induction false} NothingEndedSince(table: Table, log: seq<RunEvent>)
    requires Holds(table, log) && Mode(log).Open?
    ensures var t := OpenTurn(log);
            && t >= 1 && L.TurnAt(table, t)
            && (forall q: nat :: q >= t ==> !L.EndAt(table, q))
            && (t >= 2 ==> L.EndAt(table, t - 1) && !L.TurnAt(table, t - 1))
  {
    OpenTurnIsLast(log);
  }

  lemma {:induction false} SilentRowWasUnannounced(l: L.Ledger, log: seq<RunEvent>)
    requires L.Standing(l) && L.Announced(l) && Holds(l.db.table, log) && Mode(log).Open? && !L.SaysRunning(l.db)
    ensures var t := OpenTurn(log);
            t in l.saves && l.saves[t].Lost? && !(l.wrote.Some? && l.wrote.value >= t) && !l.leftover
  {
    NothingEndedSince(l.db.table, log);
  }

  lemma {:induction false} UnannouncedRowIsSilent(l: L.Ledger, log: seq<RunEvent>)
    requires L.Standing(l) && Holds(l.db.table, log) && Mode(log).Open?
    requires var t := OpenTurn(log);
             t in l.saves && l.saves[t].Lost? && !(l.wrote.Some? && l.wrote.value >= t) && !l.leftover
    ensures !L.SaysRunning(l.db)
  {
    NothingEndedSince(l.db.table, log);
    var t := OpenTurn(log);
    if l.wrote.Some? {
      assert l.wrote.value + 1 == t || (t - 1 > l.wrote.value && t - 1 in l.db.table);
    }
  }

  /** At every point at which a crash may cut the queue, whatever was lost: an
      open turn is not announced by a running row if and only if the save that
      should have announced it was refused or failed and nothing has announced
      it since. */
  lemma {:induction false} OpenTurnIsMissedExactly(h: History)
    requires Recorded(h) && LogOf(h.sys.db.table).Some? && Mode(LogOf(h.sys.db.table).value).Open?
    ensures !L.SaysRunning(h.sys.db) <==> Unannounced(h, OpenTurn(LogOf(h.sys.db.table).value))
  {
    RecordedHolds(h);
    var log := LogOf(h.sys.db.table).value;
    ReadLogIsHeld(h.sys.db.table);
    if !h.stored {
      HeldLogIsRead(map[], []);
    } else if !L.SaysRunning(h.sys.db) {
      SilentRowWasUnannounced(LedgerOf(h), log);
    } else if Unannounced(h, OpenTurn(log)) {
      UnannouncedRowIsSilent(LedgerOf(h), log);
    }
  }

  lemma {:induction false} SealedLogEndsClosed(log: seq<RunEvent>)
    requires Mode(log).Sealed?
    ensures log != [] && log[|log| - 1].event.Closed?
  {
  }

  lemma {:induction false} RunningRowIsNotSealed(h: History)
    requires Recorded(h) && L.SaysRunning(h.sys.db) && LogOf(h.sys.db.table).Some?
    ensures !Mode(LogOf(h.sys.db.table).value).Sealed?
  {
    RecordedHolds(h);
    var log := LogOf(h.sys.db.table).value;
    ReadLogIsHeld(h.sys.db.table);
    if Mode(log).Sealed? {
      SealedLogEndsClosed(log);
      assert L.ClosedAt(h.sys.db.table, |log|);
    }
  }

  /** What a restart makes of the database, once its repair is written. */
  function Repaired(s: System, readable: bool, dropSession: bool): DurableRun
    requires s.db.row.Some?
  {
    var t := Restarted(s, readable, dropSession, true);
    Drain(t.db, t.queue)
  }

  lemma {:induction false} RepairAppends(s: System, readable: bool, dropSession: bool)
    requires s.db.row.Some? && LogOf(s.db.table).Some?
    ensures var (log, read) := (LogOf(s.db.table).value, if readable then LogOf(s.db.table) else None);
            var d := Repaired(s, readable, dropSession);
            && LogOf(d.table) == Some(if L.SaysRunning(s.db) then log + Number(|log|, [RestartMarker(read)]) else log)
            && d.row.Some? && !d.row.value.status.Running?
  {
    var read := if readable then LogOf(s.db.table) else None;
    var t := Restarted(s, readable, dropSession, true);
    if L.SaysRunning(s.db) {
      var w := AppendRows([RunEvent(0, RestartMarker(read))], Some(t.mem.Summary()));
      assert t.queue == [Data(w)];
      TableAfterAppend(s.db.table, LogOf(s.db.table).value, [RestartMarker(read)], w.batch, false);
      assert Drain(s.db, [Data(w)]) == Drain(ApplyWrite(s.db, w), []) == ApplyWrite(s.db, w);
    } else {
      assert t.queue == [];
    }
  }

  /** A restart after a crash at any point, whatever was lost before: the log
      keeps what it had, a run found running gets one marker, and a turn is left
      open exactly when it was open and unannounced. The marker calls an apply
      uncertain exactly when the open turn was one or the log could not be read. */
  lemma {:induction false} RestartRepairs(h: History, readable: bool, dropSession: bool)
    requires Recorded(h) && h.sys.db.row.Some?
    requires LogOf(h.sys.db.table).Some? && WellFormed(LogOf(h.sys.db.table).value)
    ensures var log := LogOf(h.sys.db.table).value;
            var marker := RestartMarker(if readable then LogOf(h.sys.db.table) else None);
            var repaired := Repaired(h.sys, readable, dropSession);
            && LogOf(repaired.table) == Some(if L.SaysRunning(h.sys.db) then log + Number(|log|, [marker]) else log)
            && WellFormed(LogOf(repaired.table).value)
            && (Mode(LogOf(repaired.table).value).Open? <==> Mode(log).Open? && Unannounced(h, OpenTurn(log)))
            && repaired.row.Some? && !repaired.row.value.status.Running?
            && (marker.outcome.Unknown? <==> !readable || Mode(log) == Open(true))
  {
    var log := LogOf(h.sys.db.table).value;
    var read := if readable then LogOf(h.sys.db.table) else None;
    RepairAppends(h.sys, readable, dropSession);
    ScanFindsTheOpenApply(log);
    if L.SaysRunning(h.sys.db) {
      RunningRowIsNotSealed(h);
      RepairClosesTheTurn(log, read);
    }
    if Mode(log).Open? { OpenTurnIsMissedExactly(h); }
  }
}
