/** The manager as the object the process keeps: its map and its order are
    updated in place. Each method is one critical section of the manager's mutex
    and is proved to do to the registry what RunRegistry says that section does.
    The map holds each run's state (what RunObject's Run keeps in its fields). */
module RunManagement {
  import opened Wrappers
  import opened RunEvents
  import opened RunSpec
  import opened RunStore
  import opened RunRegistry
  import opened RunObject

  /** The queue gained deletions of these runs, as far as it accepted them. */
  twostate predicate Deleted(store: Store?, ids: seq<string>)
    reads store
  {
    store != null ==>
      && store.ops == OfferedDeletes(old(store.ops), old(store.closed), ids)
      && store.db == old(store.db) && store.closed == old(store.closed)
  }

  /** The same, said of an earlier state of the store. */
  ghost predicate DeletedSince(store: Store?, ops: seq<StoreOp>, closed: bool, db: Database, ids: seq<string>)
    reads store
  {
    store != null ==> store.ops == OfferedDeletes(ops, closed, ids) && store.db == db && store.closed == closed
  }

  lemma {:induction false} DeletesConcat(ops: seq<StoreOp>, closed: bool, first: seq<string>, second: seq<string>)
    ensures OfferedDeletes(ops, closed, first + second) == OfferedDeletes(OfferedDeletes(ops, closed, first), closed, second)
    decreases |first|
  {
    if first == [] {
      assert first + second == second;
    } else {
      assert (first + second)[1..] == first[1..] + second;
      DeletesConcat(if closed || |ops| >= QUEUE_CAPACITY then ops else ops + [DeleteRun(first[0])], closed, first[1..], second);
    }
  }

  /** A run taken out of the map, with the key it had. */
  datatype Taken = Taken(id: string, entry: Entry)

  predicate TakenFrom(runs: map<string, Entry>, taken: seq<Taken>) {
    forall j :: 0 <= j < |taken| ==> taken[j].id in runs && runs[taken[j].id] == taken[j].entry
  }

  function Ids(taken: seq<Taken>): set<string> { set t | t in taken :: t.id }

  predicate TakenInOrder(taken: seq<Taken>, ids: seq<string>) {
    |taken| == |ids| && forall j :: 0 <= j < |ids| ==> taken[j].id == ids[j]
  }

  /** After what was in `was`, `gone` holds the final states of these runs, in order. */
  ghost predicate Finalized(runs: map<string, Entry>, ids: seq<string>, was: seq<RunState>, gone: seq<RunState>) {
    && |gone| == |was| + |ids| && gone[..|was|] == was
    && (forall j :: 0 <= j < |ids| ==>
          ids[j] in runs && runs[ids[j]].run.ChannelsOpen() && gone[|was| + j] == Drop(runs[ids[j]].run))
  }

  predicate PartOf(runs: map<string, Entry>, all: map<string, Entry>) {
    forall id :: id in runs ==> id in all && runs[id] == all[id]
  }

  lemma {:induction false} FinalizedOne(all: map<string, Entry>, runs: map<string, Entry>, ids: seq<string>,
                                        was: seq<RunState>, gone: seq<RunState>, id: string)
    requires Finalized(all, ids, was, gone) && PartOf(runs, all) && id in runs && runs[id].run.ChannelsOpen()
    ensures Finalized(all, ids + [id], was, gone + [Drop(runs[id].run)]) && PartOf(runs - {id}, all)
  {
  }

  lemma {:induction false} IdsExtend(taken: seq<Taken>, t: Taken)
    ensures Ids(taken + [t]) == Ids(taken) + {t.id}
  {
    assert t in taken + [t];
    assert forall u :: u in taken + [t] <==> u in taken || u == t;
  }

  /** A selection under way: the first `i` runs have been looked at. */
  ghost predicate Selecting(all: Registry, i: nat, kept: seq<string>, taken: seq<Taken>, runs: map<string, Entry>)
    requires Listed(all) && i <= |all.order|
  {
    && kept == RunningOnly(all, all.order[..i])
    && TakenFrom(all.runs, taken)
    && Ids(taken) == (set id | id in all.order[..i] && id in all.runs && !all.Running(id))
    && runs == all.runs - Ids(taken)
  }

  lemma {:induction false} OneSelected(all: Registry, i: nat, kept: seq<string>, taken: seq<Taken>, runs: map<string, Entry>)
    requires Listed(all) && i < |all.order| && Selecting(all, i, kept, taken, runs)
    ensures var id := all.order[i];
            && id in runs && id in all.runs && runs[id] == all.runs[id]
            && if all.Running(id) then Selecting(all, i + 1, kept + [id], taken, runs)
               else Selecting(all, i + 1, kept, taken + [Taken(id, runs[id])], runs - {id})
  {
    var order, id := all.order, all.order[i];
    assert order[..i + 1][..i] == order[..i] && order[..i + 1] == order[..i] + [id];
    assert id !in order[..i];
    var t := Taken(id, all.runs[id]);
    IdsExtend(taken, t);
  }

  lemma {:induction false} IdleExtends(all: Registry, i: nat)
    requires Listed(all) && i < |all.order|
    ensures var id := all.order[i];
            && id in all.runs
            && IdleOnly(all, all.order[..i + 1]) == IdleOnly(all, all.order[..i]) + if all.Idle(id) then [id] else []
  {
    var before, upTo := all.order[..i], all.order[..i + 1];
    assert upTo[..|upTo| - 1] == before && upTo[|upTo| - 1] == all.order[i];
  }

  lemma {:induction false} TakeOne(taken: seq<Taken>, ids: seq<string>, t: Taken)
    requires TakenInOrder(taken, ids)
    ensures TakenInOrder(taken + [t], ids + [t.id])
  {
  }

  /** The selection as the loop builds it. */
  datatype Selection = Selection(kept: seq<string>, taken: seq<Taken>, runs: map<string, Entry>)

  ghost function Selected(all: Registry, i: nat): Selection
    requires i <= |all.order|
  {
    if i == 0 then Selection([], [], all.runs)
    else
      var s, id := Selected(all, i - 1), all.order[i - 1];
      if all.Idle(id) then s.(taken := s.taken + [Taken(id, all.runs[id])], runs := s.runs - {id})
      else s.(kept := s.kept + [id])
  }

  lemma {:induction false} SelectedSoFar(all: Registry, i: nat)
    requires Listed(all) && i <= |all.order|
    ensures var s := Selected(all, i);
            && Selecting(all, i, s.kept, s.taken, s.runs)
            && TakenInOrder(s.taken, IdleOnly(all, all.order[..i]))
  {
    if i > 0 {
      var s := Selected(all, i - 1);
      SelectedSoFar(all, i - 1);
      OneSelected(all, i - 1, s.kept, s.taken, s.runs);
      IdleExtends(all, i - 1);
      var id := all.order[i - 1];
      TakeOne(s.taken, IdleOnly(all, all.order[..i - 1]), Taken(id, all.runs[id]));
    }
  }

  lemma {:induction false} NextIsSelectable(all: Registry, i: nat)
    requires Listed(all) && i < |all.order|
    ensures var id := all.order[i];
            id in all.runs && id in Selected(all, i).runs && Selected(all, i).runs[id] == all.runs[id]
  {
    var s := Selected(all, i);
    SelectedSoFar(all, i);
    OneSelected(all, i, s.kept, s.taken, s.runs);
  }

  lemma {:induction false} AllSelected(all: Registry)
    requires Listed(all)
    ensures var s := Selected(all, |all.order|);
            && all.(runs := s.runs, order := s.kept) == Cleared(all, true)
            && TakenInOrder(s.taken, IdleOnly(all, all.order))
            && TakenFrom(all.runs, s.taken) && s.runs == all.runs - Ids(s.taken)
  {
    SelectedSoFar(all, |all.order|);
    assert all.order[..|all.order|] == all.order;
    assert Selected(all, |all.order|).runs == Cleared(all, true).runs;
  }

  /** An update of every run under way: the runs in `left` are still to be done. */
  ghost predicate Between(before: map<string, Entry>, runs: map<string, Entry>, left: set<string>, after: map<string, Entry>) {
    && runs.Keys == before.Keys == after.Keys && left <= runs.Keys
    && (forall id :: id in runs ==> runs[id] == if id in left then before[id] else after[id])
  }

  lemma {:induction false} BetweenOne(before: map<string, Entry>, runs: map<string, Entry>, left: set<string>, after: map<string, Entry>, id: string)
    requires Between(before, runs, left, after) && id in left
    ensures runs[id] == before[id] && Between(before, runs[id := after[id]], left - {id}, after)
  {
  }

  lemma {:induction false} BetweenNone(before: map<string, Entry>, runs: map<string, Entry>, after: map<string, Entry>)
    requires Between(before, runs, {}, after)
    ensures runs == after
  {
  }

  /** Eviction under way: the `k` oldest idle runs of `all` are gone. */
  ghost predicate Evicting(all: Registry, k: nat, view: Registry, was: seq<RunState>, gone: seq<RunState>) {
    && view == WithoutOldest(all, k) && k <= Excess(all)
    && |Oldest(all, all.order, k)| == k
    && Finalized(all.runs, Oldest(all, all.order, k), was, gone)
  }

  lemma {:induction false} NoneGone(all: Registry, was: seq<RunState>)
    ensures Evicting(all, 0, all, was, was) && Oldest(all, all.order, 0) == []
  {
    assert all.runs - Members([]) == all.runs;
  }

  lemma {:induction false} StillSound(all: Registry, k: nat, view: Registry, was: seq<RunState>, gone: seq<RunState>)
    requires RegistryInv(all) && Evicting(all, k, view, was, gone)
    ensures RegistryInv(view)
  {
    StillListed(all, k);
    SubRegistryKeeps(all, view);
  }

  lemma {:induction false} OneGone(all: Registry, k: nat, view: Registry, was: seq<RunState>, gone: seq<RunState>)
    requires RegistryInv(all) && RegistryInv(view) && Evicting(all, k, view, was, gone)
    requires |view.order| > all.maxRetained && FirstIdle(view, view.order) < |view.order|
    ensures var i := FirstIdle(view, view.order);
            && Evicting(all, k + 1, Without(view, i), was, gone + [Drop(view.runs[view.order[i]].run)])
            && Oldest(all, all.order, k + 1) == Oldest(all, all.order, k) + [view.order[i]]
  {
    EvictionStep(all, k);
    var i := FirstIdle(view, view.order);
    FinalizedOne(all.runs, view.runs, Oldest(all, all.order, k), was, gone, view.order[i]);
  }

  lemma {:induction false} AllGone(all: Registry, k: nat, view: Registry, was: seq<RunState>, gone: seq<RunState>)
    requires RegistryInv(all) && Evicting(all, k, view, was, gone)
    requires |view.order| <= all.maxRetained || FirstIdle(view, view.order) == |view.order|
    ensures view == Evict(all) && Finalized(all.runs, Victims(all), was, gone) && Victims(all) == Oldest(all, all.order, k)
  {
    if |view.order| <= all.maxRetained {
      CountsAddUp(all, all.order, k);
    } else {
      EvictionEndsEarly(all, k);
    }
  }

  /** The queue after these runs were swept, in this order. */
  function SweepOffers(ops: seq<StoreOp>, closed: bool, runs: map<string, Entry>, ids: seq<string>, current: Option<string>): seq<StoreOp>
    requires forall id :: id in runs ==> runs[id].run.ChannelsOpen()
    decreases |ids|
  {
    if ids == [] then ops
    else
      var before, id := SweepOffers(ops, closed, runs, ids[..|ids| - 1], current), ids[|ids| - 1];
      if id in runs then Offered(before, closed, id, SweepWrites(runs[id], current)) else before
  }

  lemma {:induction false} OneMoreSwept(ops: seq<StoreOp>, closed: bool, runs: map<string, Entry>, ids: seq<string>, id: string, current: Option<string>)
    requires (forall i :: i in runs ==> runs[i].run.ChannelsOpen()) && id in runs
    ensures SweepOffers(ops, closed, runs, ids + [id], current) ==
            Offered(SweepOffers(ops, closed, runs, ids, current), closed, id, SweepWrites(runs[id], current))
  {
    assert (ids + [id])[..|ids|] == ids;
  }

  /** The store's queue since a sweep began. */
  ghost predicate SweptSince(store: Store?, ops: seq<StoreOp>, closed: bool, db: Database,
                             runs: map<string, Entry>, visited: seq<string>, current: Option<string>)
    requires forall id :: id in runs ==> runs[id].run.ChannelsOpen()
    reads store
  {
    store != null ==> store.ops == SweepOffers(ops, closed, runs, visited, current) && store.db == db && store.closed == closed
  }

  /** Each of these runs has been visited once. */
  ghost predicate Visited(all: set<string>, left: set<string>, visited: seq<string>) {
    Distinct(visited) && left <= all && forall id :: id in visited <==> id in all && id !in left
  }

  lemma {:induction false} VisitOne(all: set<string>, left: set<string>, visited: seq<string>, id: string)
    requires Visited(all, left, visited) && id in left
    ensures Visited(all, left - {id}, visited + [id])
  {
  }

  /** Registered runs write to the store exactly when the manager has one. */
  ghost predicate Linked(runs: map<string, Entry>, stored: bool) {
    forall id :: id in runs ==> runs[id].run.attached == stored
  }

  lemma {:induction false} SweptStaysLinked(runs: map<string, Entry>, current: Option<string>, stored: bool)
    requires (forall id :: id in runs ==> runs[id].run.ChannelsOpen()) && Linked(runs, stored)
    ensures Linked(SweptAll(runs, current), stored)
  {
  }

  class RunManager {
    var runs: map<string, Entry>
    var order: seq<string>
    /** Runs no longer addressable, as their remaining subscribers see them. */
    var gone: seq<RunState>
    var sweptContext: string // the context whose foreign runs were looked at last
    const store: Store?
    const maxRetained: nat
    const maxConcurrent: nat

    constructor (store: Store?, maxRetained: nat, maxConcurrent: nat)
      ensures RegistryInv(View()) && View() == Registry(map[], [], maxRetained, maxConcurrent)
      ensures Linked(runs, store != null)
    {
      this.store, this.maxRetained, this.maxConcurrent := store, maxRetained, maxConcurrent;
      runs, order, gone, sweptContext := map[], [], [], "";
    }

    function View(): Registry
      reads this
    {
      Registry(runs, order, maxRetained, maxConcurrent)
    }

    // -------------------------------------------------------------- reading

    method CountInFlight() returns (n: nat)
      ensures n == |InFlight(runs)|
    {
      n := 0;
      var left := runs.Keys;
      ghost var counted: set<string> := {};
      while left != {}
        invariant left <= runs.Keys && n == |counted|
        invariant counted == set id | id in runs && id !in left && runs[id].run.inFlight
        decreases left
      {
        var id :| id in left;
        left := left - {id};
        if runs[id].run.inFlight {
          n := n + 1;
          counted := counted + {id};
        }
      }
      assert counted == InFlight(runs);
    }

    /** The first run, oldest first, that is still running for the same target. */
    method FindRunning(target: Target) returns (f: Option<string>)
      requires Listed(View())
      ensures f == Focused(View(), order, target)
    {
      var i := 0;
      while i < |order|
        invariant 0 <= i <= |order|
        invariant Focused(View(), order[i..], target) == Focused(View(), order, target)
      {
        assert order[i..][1..] == order[i + 1..];
        var r := runs[order[i]];
        if r.target == target && r.run.status.Running? {
          return Some(order[i]);
        }
        i := i + 1;
      }
      return None;
    }

    method FindIdle() returns (i: nat)
      requires Listed(View())
      ensures i == FirstIdle(View(), order)
    {
      i := 0;
      while i < |order|
        invariant 0 <= i <= |order|
        invariant i + FirstIdle(View(), order[i..]) == FirstIdle(View(), order)
      {
        assert order[i..][1..] == order[i + 1..];
        if !runs[order[i]].run.status.Running? {
          return i;
        }
        i := i + 1;
      }
    }

    // -------------------------------------------------------------- eviction

    /** Removes one run: from the map, from the order, and from the store. */
    method DropAt(i: nat)
      requires RegistryInv(View()) && i < |order|
      modifies this, store
      ensures View() == Without(old(View()), i) && runs == old(runs) - {old(order)[i]}
      ensures gone == old(gone) + [Drop(old(runs[order[i]].run))]
      ensures Deleted(store, [old(order)[i]])
    {
      var id := order[i];
      var victim := runs[id].run;
      runs := runs - {id};
      order := order[..i] + order[i + 1..];
      gone := gone + [Drop(victim)];
      if store != null {
        assert OfferedDeletes(store.ops + [DeleteRun(id)], store.closed, []) == store.ops + [DeleteRun(id)];
        store.Enqueue(DeleteRun(id));
      }
    }

    method EvictOne(i: nat, ghost all: Registry, ghost k: nat, ghost was: seq<RunState>,
                    ghost ops: seq<StoreOp>, ghost closed: bool, ghost db: Database)
      requires RegistryInv(all) && RegistryInv(View()) && Evicting(all, k, View(), was, gone)
      requires |order| > maxRetained && i == FirstIdle(View(), order) < |order|
      requires DeletedSince(store, ops, closed, db, Oldest(all, all.order, k))
      modifies this, store
      ensures RegistryInv(View()) && Evicting(all, k + 1, View(), was, gone) && |order| == |old(order)| - 1
      ensures DeletedSince(store, ops, closed, db, Oldest(all, all.order, k + 1))
    {
      OneGone(all, k, View(), was, gone);
      DeletesConcat(ops, closed, Oldest(all, all.order, k), [order[i]]);
      DropAt(i);
      StillSound(all, k + 1, View(), was, gone);
    }

    method EvictLocked()
      requires RegistryInv(View())
      modifies this, store
      ensures RegistryInv(View()) && View() == Evict(old(View()))
      ensures Finalized(old(runs), Victims(old(View())), old(gone), gone)
      ensures Deleted(store, Victims(old(View())))
    {
      ghost var all, was := View(), gone;
      ghost var ops, closed := if store == null then [] else store.ops, store != null && store.closed;
      ghost var db: Database := if store == null then map[] else store.db;
      ghost var k := 0;
      NoneGone(all, was);
      while |order| > maxRetained
        invariant RegistryInv(View()) && Evicting(all, k, View(), was, gone)
        invariant DeletedSince(store, ops, closed, db, Oldest(all, all.order, k))
        decreases |order|
      {
        var i := FindIdle();
        if i == |order| { break; }
        EvictOne(i, all, k, was, ops, closed, db);
        k := k + 1;
      }
      AllGone(all, k, View(), was, gone);
    }

    // -------------------------------------------------------------- starting

    /** Adds a reserved run and makes room for it. */
    method Register(newId: string, target: Target)
      requires RegistryInv(View()) && newId !in runs && |InFlight(runs)| < maxConcurrent
      modifies this, store
      ensures RegistryInv(View())
      ensures var h := Registered(old(View()), newId, target, store != null);
              View() == Evict(h) && Deleted(store, Victims(h)) && Finalized(h.runs, Victims(h), old(gone), gone)
      ensures newId in runs && runs[newId] == Entry(target, Started(store != null).run)
    {
      ghost var h := Registered(View(), newId, target, store != null);
      RegisteredKeeps(View(), newId, target, store != null);
      runs := runs[newId := Entry(target, Started(store != null).run)];
      order := order + [newId];
      assert View() == h;
      EvictionSparesTheRunning(h);
      EvictLocked();
    }

    /** Focuses a running investigation of the same target, or registers and
        reserves a new one. */
    method Start(newId: string, target: Target) returns (answer: Result<string, StartError>)
      requires RegistryInv(View()) && Linked(runs, store != null) && newId !in runs
      modifies this, store
      ensures RegistryInv(View()) && Linked(runs, store != null)
      ensures var s := StartRun(old(View()), newId, target, store != null);
              View() == s.registry && answer == s.answer && Deleted(store, s.dropped)
              && Finalized(Registered(old(View()), newId, target, store != null).runs, s.dropped, old(gone), gone)
      ensures answer.Success? ==> answer.value in runs && runs[answer.value].run.status.Running?
                                  && runs[answer.value].target == target
    {
      var focus := FindRunning(target);
      if focus.Some? {
        return Success(focus.value);
      }
      var n := CountInFlight();
      if n >= maxConcurrent {
        return Failure(AtCapacity);
      }
      Register(newId, target);
      return Success(newId);
    }

    // -------------------------------------------------------------- follow-ups

    /** Reserves a turn on a registered run and saves its running status. */
    method BeginTurn(id: string, requireSession: bool) returns (answer: Result<Option<Session>, ReserveError>)
      requires RegistryInv(View()) && Linked(runs, store != null)
      modifies this, store
      ensures RegistryInv(View()) && Linked(runs, store != null) && gone == old(gone)
      ensures match Reserve(old(View()), id, requireSession)
              case Failure(why) => answer == Failure(why) && View() == old(View()) && (store != null ==> unchanged(store))
              case Success(g) =>
                && answer == Success(old(runs)[id].run.session) && View() == g
                && Enqueued(store, id, Begin(old(runs)[id].run, requireSession).value.writes)
    {
      if id !in runs {
        return Failure(NotFound);
      }
      var n := CountInFlight();
      if n >= maxConcurrent {
        return Failure(Full);
      }
      var r := runs[id].run;
      if r.inFlight {
        return Failure(Refused(TurnInFlight));
      }
      if r.status.Stale? {
        return Failure(Refused(StaleRun));
      }
      if requireSession && r.session.None? {
        return Failure(Refused(NoSession));
      }
      ReserveKeeps(View(), id, requireSession);
      r := r.(inFlight := true, status := Running);
      runs := runs[id := runs[id].(run := r)];
      if store != null {
        OfferOne(store.ops, store.closed, id, SaveRow(r.Summary()));
        store.Enqueue(WriteRun(id, SaveRow(r.Summary())));
      }
      return Success(r.session);
    }

    // -------------------------------------------------------------- context switch

    method SweepOne(id: string, current: Option<string>)
      requires RegistryInv(View()) && id in runs
      modifies this`runs, store
      ensures RegistryInv(View())
      ensures runs == old(runs)[id := Swept(old(runs)[id], current)]
      ensures Enqueued(store, id, SweepWrites(old(runs)[id], current))
    {
      SweepKeeps(View(), id, current);
      var writes := SweepWrites(runs[id], current);
      if !(current.Some? && runs[id].target.context == current.value) {
        runs := runs[id := runs[id].(run := MarkStale(runs[id].run).run)];
        if store != null && writes != [] {
          OfferOne(store.ops, store.closed, id, writes[0]);
          assert writes == [writes[0]];
          store.Enqueue(WriteRun(id, writes[0]));
        }
      }
    }

    /** Marks stale every registered run of another cluster, or all of them when
        the context itself changed, in whatever order the map yields them. */
    method MarkForeignStale(current: Option<string>) returns (ghost visited: seq<string>)
      requires RegistryInv(View()) && Linked(runs, store != null)
      modifies this`runs, store
      ensures RegistryInv(View()) && Linked(runs, store != null)
      ensures runs == SweptAll(old(runs), current) && Visited(old(runs.Keys), {}, visited)
      ensures SweptSince(store, old(if store == null then [] else store.ops), old(store != null && store.closed),
                         old(if store == null then map[] else store.db), old(runs), visited, current)
    {
      ghost var before, after := runs, SweptAll(runs, current);
      ghost var ops, closed := if store == null then [] else store.ops, store != null && store.closed;
      ghost var db: Database := if store == null then map[] else store.db;
      var left := runs.Keys;
      visited := [];
      while left != {}
        invariant RegistryInv(View()) && Between(before, runs, left, after) && Visited(before.Keys, left, visited)
        invariant SweptSince(store, ops, closed, db, before, visited, current)
        decreases left
      {
        var id :| id in left;
        BetweenOne(before, runs, left, after, id);
        VisitOne(before.Keys, left, visited, id);
        OneMoreSwept(ops, closed, before, visited, id, current);
        left, visited := left - {id}, visited + [id];
        SweepOne(id, current);
      }
      BetweenNone(before, runs, after);
      SweptStaysLinked(before, current, store != null);
    }

    /** Looks at runs an earlier process left behind, once per observed context. */
    method SweepForeign(current: string) returns (ghost visited: seq<string>)
      requires RegistryInv(View()) && Linked(runs, store != null)
      modifies this`runs, this`sweptContext, store
      ensures RegistryInv(View()) && Linked(runs, store != null)
      ensures current == "" || current == old(sweptContext) ==>
                runs == old(runs) && sweptContext == old(sweptContext) && (store != null ==> unchanged(store)) && visited == []
      ensures current != "" && current != old(sweptContext) ==>
                && sweptContext == current && runs == SweptAll(old(runs), Some(current)) && Visited(old(runs.Keys), {}, visited)
                && SweptSince(store, old(if store == null then [] else store.ops), old(store != null && store.closed),
                              old(if store == null then map[] else store.db), old(runs), visited, Some(current))
    {
      visited := [];
      if current == "" || current == sweptContext {
        return;
      }
      sweptContext := current;
      visited := MarkForeignStale(Some(current));
    }

    // -------------------------------------------------------------- clearing

    /** Puts runs back into the map. */
    method Restore(taken: seq<Taken>, ghost all: map<string, Entry>)
      requires runs == all - Ids(taken) && TakenFrom(all, taken)
      modifies this`runs
      ensures runs == all
    {
      var i := 0;
      while i < |taken|
        invariant 0 <= i <= |taken|
        invariant runs == all - (Ids(taken) - Ids(taken[..i]))
      {
        assert taken[..i + 1] == taken[..i] + [taken[i]];
        IdsExtend(taken[..i], taken[i]);
        runs := runs[taken[i].id := taken[i].entry];
        i := i + 1;
      }
      assert taken[..i] == taken;
    }

    /** Takes every run that is not running out of the map and out of the order. */
    method Select() returns (taken: seq<Taken>)
      requires Listed(View())
      modifies this`runs, this`order
      ensures View() == Cleared(old(View()), true)
      ensures TakenFrom(old(runs), taken) && runs == old(runs) - Ids(taken)
      ensures TakenInOrder(taken, IdleOnly(old(View()), old(order)))
    {
      ghost var all := View();
      var kept: seq<string> := [];
      taken := [];
      var i := 0;
      while i < |order|
        invariant 0 <= i <= |order| && order == all.order
        invariant Selection(kept, taken, runs) == Selected(all, i)
      {
        var id := order[i];
        NextIsSelectable(all, i);
        i := i + 1;
        if runs[id].run.status.Running? {
          kept := kept + [id];
        } else {
          taken := taken + [Taken(id, runs[id])];
          runs := runs - {id};
        }
      }
      AllSelected(all);
      order := kept;
    }

    /** Detaches and finalizes dropped runs. */
    method FinalizeAll(taken: seq<Taken>, ghost all: map<string, Entry>, ghost ids: seq<string>)
      requires TakenFrom(all, taken) && TakenInOrder(taken, ids)
      requires forall j :: 0 <= j < |taken| ==> taken[j].entry.run.ChannelsOpen()
      modifies this`gone
      ensures Finalized(all, ids, old(gone), gone)
    {
      var i := 0;
      while i < |taken|
        invariant 0 <= i <= |taken| && Finalized(all, ids[..i], old(gone), gone)
      {
        assert ids[..i + 1] == ids[..i] + [ids[i]];
        FinalizedOne(all, all, ids[..i], old(gone), gone, ids[i]);
        gone := gone + [Drop(taken[i].entry.run)];
        i := i + 1;
      }
      assert ids[..i] == ids;
    }

    /** Drops every run that is not running, from memory and from the store; if
        the store refuses, everything is put back. */
    method ClearHistory(fates: nat -> Fate, fails: bool) returns (ok: bool)
      requires RegistryInv(View()) && Linked(runs, store != null)
      modifies this, store
      ensures Linked(runs, store != null)
      ensures RegistryInv(View()) && View() == Cleared(old(View()), ok)
      ensures ok <==> store == null || (!old(store.closed) && !fails)
      ensures !ok ==> gone == old(gone)
      ensures ok ==> Finalized(old(runs), IdleOnly(old(View()), old(order)), old(gone), gone)
      ensures store != null && old(store.closed) ==> store.ops == old(store.ops) && store.db == old(store.db)
      ensures store != null && !old(store.closed) ==> store.ops == []
      ensures store != null && !old(store.closed) && fails ==>
                store.db == WrittenAll(old(store.db), old(store.ops), fates, 0)
      ensures ok && store != null ==>
                forall id :: RunOf(store.db, id) == Spared(RunOf(WrittenAll(old(store.db), old(store.ops), fates, 0), id))
    {
      var origOrder := order;
      ClearKeeps(View(), true);
      var taken := Select();
      ok := true;
      if store != null {
        ok := store.ClearTerminalRows(fates, fails);
      }
      if !ok {
        Restore(taken, old(runs));
        order := origOrder;
      } else {
        FinalizeAll(taken, old(runs), IdleOnly(old(View()), old(order)));
      }
    }
  }
}
