/** One investigation as the object the process keeps: fields updated in place
    under the run's mutex. Every method is one critical section, and is proved
    to do to the fields and to the write queue exactly what the section's value
    in RunSpec says, so the protocol's theorems speak about these methods. */
module RunObject {
  import opened Wrappers
  import opened RunEvents
  import opened RunSpec
  import opened DurableLog
  import opened RunStore
  import opened RunRegistry

  /** The queue gained exactly these writes of run `id`, as far as it accepted them. */
  twostate predicate Enqueued(store: Store?, id: string, writes: seq<Write>)
    reads store
  {
    store != null ==>
      && store.ops == Offered(old(store.ops), old(store.closed), id, writes)
      && store.db == old(store.db) && store.closed == old(store.closed)
  }

  /** A fan-out under way: the subscribers in `left` are still to be offered `e`. */
  ghost predicate Offering(before: map<nat, Channel>, left: set<nat>, e: RunEvent,
                           subs: map<nat, Channel>, cut: map<nat, Channel>)
    requires forall k :: k in before ==> before[k].open
  {
    && (forall k :: k in subs <==> k in before && (k in left || before[k].HasRoom()))
    && (forall k :: k in subs ==> subs[k] == if k in left then before[k] else before[k].Send(e))
    && (forall k :: k in cut <==> k in before && k !in left && !before[k].HasRoom())
    && (forall k :: k in cut ==> cut[k] == before[k].Close())
  }

  lemma {:induction false} OfferedOne(before: map<nat, Channel>, left: set<nat>, e: RunEvent,
                                      subs: map<nat, Channel>, cut: map<nat, Channel>, k: nat)
    requires forall k :: k in before ==> before[k].open
    requires Offering(before, left, e, subs, cut) && k in left && k in subs
    ensures subs[k].open
    ensures subs[k].HasRoom() ==> Offering(before, left - {k}, e, subs[k := subs[k].Send(e)], cut)
    ensures !subs[k].HasRoom() ==> Offering(before, left - {k}, e, subs - {k}, cut[k := subs[k].Close()])
  {
  }

  lemma {:induction false} OfferedAll(before: map<nat, Channel>, e: RunEvent, subs: map<nat, Channel>, cut: map<nat, Channel>)
    requires forall k :: k in before ==> before[k].open
    requires Offering(before, {}, e, subs, cut)
    ensures subs == Sent(before, e)
    ensures cut == Overrun(before)
  {
  }

  /** Closing under way: the subscribers not in `subs` any more are in `cut`, closed. */
  ghost predicate Ending(before: map<nat, Channel>, subs: map<nat, Channel>, cut: map<nat, Channel>)
    requires forall k :: k in before ==> before[k].open
  {
    && (forall k :: k in before <==> k in subs || k in cut)
    && (forall k :: k in subs ==> k !in cut && subs[k] == before[k])
    && (forall k :: k in cut ==> cut[k] == before[k].Close())
  }

  lemma {:induction false} EndedOne(before: map<nat, Channel>, subs: map<nat, Channel>, cut: map<nat, Channel>, k: nat)
    requires forall k :: k in before ==> before[k].open
    requires Ending(before, subs, cut) && k in subs
    ensures subs[k].open && Ending(before, subs - {k}, cut[k := subs[k].Close()])
  {
  }

  lemma {:induction false} EndedAll(before: map<nat, Channel>, cut: map<nat, Channel>)
    requires forall k :: k in before ==> before[k].open
    requires Ending(before, map[], cut)
    ensures cut == Ended(before)
  {
  }

  datatype HydrationError = HistoryUnavailable | HistoryCorrupt

  class Run {
    const id: string
    const target: Target
    var store: Store?
    var status: Status
    var session: Option<Session>
    var events: seq<RunEvent>
    var hydrated: bool
    var inFlight: bool
    var live: bool
    var subs: map<nat, Channel>
    var retired: map<nat, Channel>
    var nextSub: nat

    ghost function State(): RunState
      reads this
    {
      RunState(status, session, events, hydrated, inFlight, live, subs, retired, nextSub, store != null)
    }

    ghost predicate Valid()
      reads this
    {
      State().ChannelsOpen()
    }

    /** What a section may touch: the run and the store it writes to. */
    ghost function Frame(): set<object>
      reads this
    {
      if store == null then {this} else {this, store}
    }

    /** A run created by Start. */
    constructor (id: string, target: Target, store: Store?)
      ensures Valid() && this.id == id && this.target == target && this.store == store
      ensures State() == Started(store != null).run
    {
      this.id, this.target, this.store := id, target, store;
      status, session, events := Running, None, [];
      hydrated, inFlight, live := true, true, true;
      subs, retired, nextSub := map[], map[], 0;
    }

    // -------------------------------------------------------------- publishing

    /** Offers one event to every subscriber without blocking. A subscriber whose
        channel is full is cut off instead of skipping the event. */
    method PublishEvent(e: RunEvent)
      requires Valid()
      modifies this`subs, this`retired
      ensures Valid()
      ensures State() == PublishOne(old(State()), e)
    {
      ghost var before := subs;
      var left := subs.Keys;
      var cut: map<nat, Channel> := map[];
      while left != {}
        invariant retired == old(retired)
        invariant left <= subs.Keys && Offering(before, left, e, subs, cut)
        decreases left
      {
        var k :| k in left;
        OfferedOne(before, left, e, subs, cut, k);
        left := left - {k};
        if subs[k].HasRoom() {
          subs := subs[k := subs[k].Send(e)];
        } else {
          cut := cut[k := subs[k].Close()];
          subs := subs - {k};
        }
      }
      OfferedAll(before, e, subs, cut);
      retired := retired + cut;
    }

    /** Closes every subscriber's channel and drops the subscriber map. */
    method CloseSubscribers()
      requires Valid()
      modifies this`subs, this`retired, this`live
      ensures Valid()
      ensures State() == CloseAll(old(State()))
    {
      ghost var before := subs;
      var cut: map<nat, Channel> := map[];
      while subs != map[]
        invariant retired == old(retired) && live == old(live)
        invariant Ending(before, subs, cut)
        decreases subs.Keys
      {
        var k :| k in subs;
        EndedOne(before, subs, cut, k);
        cut := cut[k := subs[k].Close()];
        subs := subs - {k};
      }
      EndedAll(before, cut);
      retired := retired + cut;
      live := false;
    }

    method Persist(w: Write)
      requires store != null
      modifies store
      ensures Enqueued(store, id, [w])
    {
      OfferOne(store.ops, store.closed, id, w);
      store.Enqueue(WriteRun(id, w));
    }

    /** Numbers the batch and records it. */
    method Record(batch: seq<StreamEvent>) returns (recorded: seq<RunEvent>)
      modifies this`events
      ensures recorded == Number(|old(events)|, batch)
      ensures events == old(events) + recorded
    {
      recorded := [];
      var i := 0;
      while i < |batch|
        invariant 0 <= i <= |batch|
        invariant events == old(events) + recorded
        invariant |recorded| == i
        invariant forall j :: 0 <= j < i ==> recorded[j] == RunEvent(|old(events)| + j + 1, batch[j])
      {
        var e := RunEvent(|events| + 1, batch[i]);
        events := events + [e];
        recorded := recorded + [e];
        i := i + 1;
      }
    }

    method PublishAll(recorded: seq<RunEvent>)
      requires Valid()
      modifies this`subs, this`retired
      ensures Valid()
      ensures State() == Publish(old(State()), recorded)
    {
      var i := 0;
      while i < |recorded|
        invariant 0 <= i <= |recorded|
        invariant Valid()
        invariant Publish(State(), recorded[i..]) == Publish(old(State()), recorded)
      {
        assert recorded[i..][1..] == recorded[i + 1..];
        PublishEvent(recorded[i]);
        i := i + 1;
      }
    }

    /** Records, persists and publishes an ordered batch. */
    method AppendEventsLocked(batch: seq<StreamEvent>, persistSummary: bool)
      requires Valid()
      modifies Frame()
      ensures Valid() && store == old(store)
      ensures State() == AppendEvents(old(State()), batch, persistSummary).run
      ensures Enqueued(store, id, AppendEvents(old(State()), batch, persistSummary).writes)
    {
      if batch == [] {
        assert events + Number(|events|, batch) == events;
        return;
      }
      var recorded := Record(batch);
      if store != null {
        Persist(AppendRows(recorded, if persistSummary then Some(Row(status, session)) else None));
      }
      PublishAll(recorded);
    }

    method AppendLocked(event: StreamEvent)
      requires Valid()
      modifies Frame()
      ensures Valid() && store == old(store)
      ensures State() == AppendOne(old(State()), event).run
      ensures Enqueued(store, id, AppendOne(old(State()), event).writes)
    {
      AppendEventsLocked([event], event.Done? || event.Error?);
    }

    // -------------------------------------------------------------- turns

    method LaunchTurn(turn: StreamEvent) returns (launched: bool)
      requires Valid()
      modifies Frame()
      ensures Valid() && store == old(store)
      ensures launched == Owns(old(State()))
      ensures State() == Launch(old(State()), turn).run
      ensures Enqueued(store, id, Launch(old(State()), turn).writes)
    {
      if !inFlight || !status.Running? || !live {
        inFlight := false;
        return false;
      }
      AppendLocked(turn);
      return true;
    }

    method AppendStreamEvent(event: StreamEvent) returns (admitted: bool)
      requires Valid()
      modifies Frame()
      ensures Valid() && store == old(store)
      ensures admitted == Owns(old(State()))
      ensures State() == Stream(old(State()), event).run
      ensures Enqueued(store, id, Stream(old(State()), event).writes)
    {
      if !status.Running? || !inFlight || !live {
        return false;
      }
      AppendLocked(event);
      return true;
    }

    method FinishTurnLocked(result: TurnResult, apply: bool)
      requires Valid()
      modifies Frame()
      ensures Valid() && store == old(store)
      ensures State() == FinishTurn(old(State()), result, apply).run
      ensures Enqueued(store, id, FinishTurn(old(State()), result, apply).writes)
    {
      if status.Stopped? || status.Stale? || !live {
        inFlight := false;
        return;
      }
      if result.failed {
        status := Errored;
        AppendLocked(Error(NoOutcome, false));
        inFlight := false;
        return;
      }
      if result.session.Some? && !apply {
        session := result.session;
      }
      status := Finished;
      AppendLocked(Done(NoOutcome, false));
      inFlight := false;
    }

    method FinishApplyAndBeginVerification(terminal: StreamEvent) returns (continued: bool)
      requires Valid()
      modifies Frame()
      ensures Valid() && store == old(store)
      ensures continued == Owns(old(State()))
      ensures State() == FinishApplyAndVerify(old(State()), terminal).run
      ensures Enqueued(store, id, FinishApplyAndVerify(old(State()), terminal).writes)
    {
      if !status.Running? || !inFlight || !live {
        inFlight := false;
        return false;
      }
      AppendEventsLocked([terminal, Turn(false, true, 0)], true);
      return true;
    }

    method FinishApplyWithoutVerification(terminal: StreamEvent)
      requires Valid()
      modifies Frame()
      ensures Valid() && store == old(store)
      ensures State() == FinishApply(old(State()), terminal).run
      ensures Enqueued(store, id, FinishApply(old(State()), terminal).writes)
    {
      if !status.Running? || !inFlight || !live {
        inFlight := false;
        return;
      }
      status := Errored;
      AppendLocked(terminal);
      inFlight := false;
    }

    /** Scans back to the most recent turn marker while a reservation is held. */
    method ActiveTurnApplies() returns (apply: bool)
      ensures apply == State().ActiveApply()
    {
      if !inFlight {
        return false;
      }
      var i := |events|;
      assert events[..i] == events;
      while i > 0
        invariant 0 <= i <= |events|
        invariant LastTurn(events[..i]) == LastTurn(events)
      {
        assert events[..i][..i - 1] == events[..i - 1];
        i := i - 1;
        if events[i].event.Turn? {
          return events[i].event.apply;
        }
      }
      return false;
    }

    method Stop()
      requires Valid()
      modifies Frame()
      ensures Valid() && store == old(store)
      ensures State() == Interrupt(old(State())).run
      ensures Enqueued(store, id, Interrupt(old(State())).writes)
    {
      if !inFlight || !status.Running? || !live {
        return;
      }
      var applying := ActiveTurnApplies();
      status := Stopped;
      AppendLocked(Error(if applying then Unknown else NoOutcome, false));
    }

    // -------------------------------------------------------------- finalizing

    method MarkStaleLocked() returns (marked: bool)
      requires Valid()
      modifies Frame()
      ensures Valid() && store == old(store)
      ensures marked == (!old(status).Stale? && old(live))
      ensures State() == MarkStale(old(State())).run
      ensures Enqueued(store, id, MarkStale(old(State())).writes)
    {
      if status.Stale? || !live {
        return false;
      }
      var applying := ActiveTurnApplies();
      status := Stale;
      var marker := Error(if applying then Unknown else NoOutcome, false);
      if hydrated {
        AppendEventsLocked([marker, Closed], true);
      } else if store != null {
        Persist(AppendRows([RunEvent(0, marker), RunEvent(0, Closed)], Some(Row(status, session))));
      }
      CloseSubscribers();
      return true;
    }

    /** Puts the sentinel in front of every subscriber that has room for it. */
    method Tell(sentinel: RunEvent)
      requires Valid()
      modifies this`subs
      ensures State() == old(State()).(subs := map k | k in old(subs) :: old(subs)[k].SendIfRoom(sentinel))
    {
      var ids := subs.Keys;
      while ids != {}
        invariant ids <= old(subs).Keys
        invariant subs == map k | k in old(subs) :: if k in ids then old(subs)[k] else old(subs)[k].SendIfRoom(sentinel)
        decreases ids
      {
        var k :| k in ids;
        ids := ids - {k};
        if subs[k].HasRoom() {
          subs := subs[k := subs[k].Send(sentinel)];
        }
      }
    }

    method FinalizeLocked()
      requires Valid()
      modifies Frame()
      ensures Valid() && store == old(store)
      ensures State() == Finalize(old(State())).run
      ensures Enqueued(store, id, Finalize(old(State())).writes)
    {
      if !live {
        return;
      }
      var sentinel := RunEvent(|events| + 1, Closed);
      events := events + [sentinel];
      if store != null && hydrated {
        Persist(AppendRows([sentinel], Some(Row(status, session))));
      }
      Tell(sentinel);
      CloseSubscribers();
    }

    /** Eviction and ClearHistory detach the store first, so that the sentinel
        cannot recreate rows that were just deleted. */
    method DetachAndFinalize()
      requires Valid()
      modifies this
      ensures Valid() && store == null
      ensures State() == Drop(old(State()))
    {
      store := null;
      FinalizeLocked();
    }

    // -------------------------------------------------------------- subscribers

    /** The second half of Subscribe; the first hydrates the log. */
    method Attach(afterSeq: int) returns (backlog: seq<RunEvent>, sub: nat, alreadyFinalized: bool)
      requires Valid()
      modifies this`subs, this`nextSub
      ensures Valid()
      ensures State() == Subscribe(old(State()), afterSeq)
      ensures alreadyFinalized == !old(live) && backlog == Backlog(events, afterSeq)
      ensures !alreadyFinalized ==> sub in subs && subs[sub] == NewChannel(old(State()), afterSeq)
    {
      backlog := [];
      var i := 0;
      while i < |events|
        invariant 0 <= i <= |events|
        invariant backlog == Backlog(events[..i], afterSeq)
      {
        assert events[..i + 1][..i] == events[..i];
        if events[i].num > afterSeq {
          backlog := backlog + [events[i]];
        }
        i := i + 1;
      }
      assert events[..|events|] == events;
      sub := nextSub;
      if !live {
        return backlog, sub, true;
      }
      nextSub := nextSub + 1;
      subs := subs[sub := Channel(afterSeq, |events|, backlog, 0, true)];
      return backlog, sub, false;
    }

    method Cancel(sub: nat)
      requires Valid()
      modifies this`subs, this`retired
      ensures State() == Unsubscribe(old(State()), sub)
    {
      if sub in subs {
        retired := retired[sub := subs[sub].Close()];
        subs := subs - {sub};
      }
    }

    // -------------------------------------------------------------- hydration

    /** Installs what the store returned, unless the run moved on meanwhile. */
    method InstallEvents(log: seq<RunEvent>) returns (e: Option<HydrationError>)
      modifies this`events, this`hydrated
      ensures State() == Install(old(State()), log)
      ensures e == if hydrated then None else Some(HistoryUnavailable)
    {
      if hydrated {
        return None;
      }
      if store == null {
        return Some(HistoryUnavailable);
      }
      if !live && (log == [] || !log[|log| - 1].event.Closed?) {
        return Some(HistoryUnavailable);
      }
      events := log;
      hydrated := true;
      return None;
    }

    /** The whole of ensureHydrated when nothing else runs in between. */
    method EnsureHydrated(fates: nat -> Fate, readable: bool) returns (e: Option<HydrationError>)
      requires Valid()
      modifies this`events, this`hydrated, store
      ensures Valid()
      ensures old(hydrated) || store == null ==> e.None? && State() == old(State()) && (store != null ==> unchanged(store))
      ensures !old(hydrated) && store != null ==>
                && store.closed == old(store.closed)
                && store.db == if store.closed then old(store.db) else WrittenAll(old(store.db), old(store.ops), fates, 0)
      ensures !old(hydrated) && store != null && !readable ==> e == Some(HistoryUnavailable) && State() == old(State())
      ensures !old(hydrated) && store != null && readable ==>
                match LogOf(RunOf(store.db, id).table)
                case None => e == Some(HistoryCorrupt) && State() == old(State())
                case Some(log) =>
                  && State() == Install(old(State()), log)
                  && e == if hydrated then None else Some(HistoryUnavailable)
    {
      if hydrated || store == null {
        return None;
      }
      var loaded := store.LoadEvents(id, fates, readable);
      match loaded {
        case Failure(Corrupt) => return Some(HistoryCorrupt);
        case Failure(Unavailable) => return Some(HistoryUnavailable);
        case Success(log) => e := InstallEvents(log);
      }
    }
  }
}
