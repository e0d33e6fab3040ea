/** The manager's registry of runs: who is addressable, in which order, and how
    many turns are in flight. Each step is one critical section of the manager
    or of one registered run. */
module RunRegistry {
  import opened Wrappers
  import opened RunEvents
  import opened RunSpec

  /** What Start compares: the same resource, cluster, agent and settings. */
  datatype Target = Target(resource: string, context: string, agent: string, profile: string, model: string, effort: string)

  datatype Entry = Entry(target: Target, run: RunState)

  datatype Registry = Registry(runs: map<string, Entry>, order: seq<string>, maxRetained: nat, maxConcurrent: nat) {
    predicate Running(id: string)
      requires id in runs
    {
      runs[id].run.status.Running?
    }

    predicate Idle(id: string) {
      id in runs && !runs[id].run.status.Running?
    }
  }

  function InFlight(runs: map<string, Entry>): set<string> {
    set id | id in runs && runs[id].run.inFlight
  }

  /** The order lists exactly the registered runs. */
  ghost predicate Listed(g: Registry) {
    && (forall id :: id in g.runs <==> id in g.order)
    && Distinct(g.order)
  }

  ghost predicate Distinct(order: seq<string>) {
    forall i, j :: 0 <= i < j < |order| ==> order[i] != order[j]
  }

  ghost predicate RegistryInv(g: Registry) {
    && Listed(g)
    && |InFlight(g.runs)| <= g.maxConcurrent
    && (forall id :: id in g.runs ==>
          var r := g.runs[id].run;
          r.ChannelsOpen() && (r.status.Stale? <==> !r.live))
  }

  // ---------------------------------------------------------------- start

  /** The oldest running investigation of the same target, if any. */
  function Focused(g: Registry, order: seq<string>, target: Target): (f: Option<string>)
    requires forall id :: id in order ==> id in g.runs
    ensures f.Some? ==> f.value in order && g.runs[f.value].target == target && g.Running(f.value)
    ensures f.None? ==> forall id :: id in order ==> !(g.runs[id].target == target && g.Running(id))
  {
    if order == [] then None
    else if g.runs[order[0]].target == target && g.Running(order[0]) then Some(order[0])
    else Focused(g, order[1..], target)
  }

  /** The position of the oldest run that is not running. */
  function FirstIdle(g: Registry, order: seq<string>): (i: nat)
    ensures i <= |order| && (i < |order| ==> g.Idle(order[i]))
    ensures forall j :: 0 <= j < i ==> !g.Idle(order[j])
  {
    if order == [] then 0
    else if g.Idle(order[0]) then 0
    else 1 + FirstIdle(g, order[1..])
  }

  function Without(g: Registry, i: nat): Registry
    requires i < |g.order|
  {
    g.(runs := g.runs - {g.order[i]}, order := g.order[..i] + g.order[i + 1..])
  }

  /** The order without its `k` oldest idle runs. */
  function DropIdle(g: Registry, order: seq<string>, k: nat): seq<string> {
    if order == [] || k == 0 then order
    else if g.Idle(order[0]) then DropIdle(g, order[1..], k - 1)
    else [order[0]] + DropIdle(g, order[1..], k)
  }

  /** The `k` oldest idle runs, or all of them if there are fewer. */
  function Oldest(g: Registry, order: seq<string>, k: nat): (ids: seq<string>)
    ensures |ids| <= k
  {
    if order == [] || k == 0 then []
    else if g.Idle(order[0]) then [order[0]] + Oldest(g, order[1..], k - 1)
    else Oldest(g, order[1..], k)
  }

  function Excess(g: Registry): nat {
    if |g.order| > g.maxRetained then |g.order| - g.maxRetained else 0
  }

  function Victims(g: Registry): seq<string> { Oldest(g, g.order, Excess(g)) }

  function Members(ids: seq<string>): set<string> { set id | id in ids }

  function WithoutOldest(g: Registry, k: nat): Registry {
    g.(runs := g.runs - Members(Oldest(g, g.order, k)), order := DropIdle(g, g.order, k))
  }

  /** Drops the oldest idle runs while the retention cap is exceeded. */
  function Evict(g: Registry): Registry { WithoutOldest(g, Excess(g)) }

  /** The order falls into what is dropped, all of it idle, and what is kept. */
  lemma {:induction false} SplitInTwo(g: Registry, order: seq<string>, k: nat)
    requires Distinct(order)
    ensures forall id :: id in Oldest(g, order, k) ==> id in order && g.Idle(id)
    ensures forall id :: id in DropIdle(g, order, k) <==> id in order && id !in Oldest(g, order, k)
  {
    if order != [] && k > 0 {
      var first, rest := order[0], order[1..];
      assert forall id :: id in order <==> id == first || id in rest;
      assert first !in rest;
      SplitInTwo(g, rest, if g.Idle(first) then k - 1 else k);
    }
  }

  lemma {:induction false} CountsAddUp(g: Registry, order: seq<string>, k: nat)
    ensures |Oldest(g, order, k)| + |DropIdle(g, order, k)| == |order|
    ensures |Oldest(g, order, k)| == Min(k, IdleCount(g, order))
  {
    if order != [] && k > 0 {
      CountsAddUp(g, order[1..], if g.Idle(order[0]) then k - 1 else k);
    }
  }

  lemma {:induction false} DistinctAfterDropping(g: Registry, order: seq<string>, k: nat)
    requires Distinct(order)
    ensures Distinct(DropIdle(g, order, k))
  {
    if order != [] && k > 0 {
      var first, rest := order[0], order[1..];
      DistinctAfterDropping(g, rest, if g.Idle(first) then k - 1 else k);
      SplitInTwo(g, rest, if g.Idle(first) then k - 1 else k);
      assert first !in rest;
    }
  }

  lemma {:induction false} OldestFirst(g: Registry, order: seq<string>, k: nat, i: nat, j: nat)
    requires Distinct(order) && i < j < |order| && g.Idle(order[i]) && order[j] in Oldest(g, order, k)
    ensures order[i] in Oldest(g, order, k)
  {
    var rest := order[1..];
    if i > 0 {
      assert rest[i - 1] == order[i] && rest[j - 1] == order[j] && order[j] != order[0];
      OldestFirst(g, rest, if g.Idle(order[0]) then k - 1 else k, i - 1, j - 1);
    }
  }

  /** When fewer are dropped than asked for, nothing idle is left. */
  lemma {:induction false} ShortOfVictims(g: Registry, order: seq<string>, k: nat, id: string)
    requires |Oldest(g, order, k)| < k && id in DropIdle(g, order, k)
    ensures !g.Idle(id)
  {
    var first, rest := order[0], order[1..];
    if g.Idle(first) {
      ShortOfVictims(g, rest, k - 1, id);
    } else if id != first {
      ShortOfVictims(g, rest, k, id);
    }
  }

  lemma {:induction false} StillListed(g: Registry, k: nat)
    requires Listed(g)
    ensures Listed(WithoutOldest(g, k)) && WithoutOldest(g, k).runs.Keys <= g.runs.Keys
  {
    SplitInTwo(g, g.order, k);
    DistinctAfterDropping(g, g.order, k);
  }

  lemma {:induction false} OneFurther(g: Registry, first: string, rest: seq<string>)
    requires !g.Idle(first)
    ensures var i := FirstIdle(g, rest);
            && FirstIdle(g, [first] + rest) == i + 1
            && (i < |rest| ==>
                  && ([first] + rest)[i + 1] == rest[i]
                  && ([first] + rest)[..i + 1] + ([first] + rest)[i + 2..] == [first] + (rest[..i] + rest[i + 1..]))
  {
    var all := [first] + rest;
    assert all[1..] == rest;
  }

  /** Dropping one more takes the first idle run of what is left; when nothing
      idle is left, asking for more changes nothing. */
  lemma {:induction false} DropOneMore(g: Registry, order: seq<string>, k: nat)
    requires |Oldest(g, order, k)| == k
    ensures var left := DropIdle(g, order, k);
            var i := FirstIdle(g, left);
            i < |left| ==>
              && DropIdle(g, order, k + 1) == left[..i] + left[i + 1..]
              && Oldest(g, order, k + 1) == Oldest(g, order, k) + [left[i]]
  {
    if order != [] {
      var first, rest := order[0], order[1..];
      if g.Idle(first) {
        if k > 0 { DropOneMore(g, rest, k - 1); }
      } else {
        DropOneMore(g, rest, k);
        var left := DropIdle(g, rest, k);
        assert DropIdle(g, order, k) == [first] + left;
        OneFurther(g, first, left);
      }
    }
  }

  lemma {:induction false} NothingMoreToDrop(g: Registry, order: seq<string>, k: nat, more: nat)
    requires k <= more && forall id :: id in DropIdle(g, order, k) ==> !g.Idle(id)
    ensures DropIdle(g, order, more) == DropIdle(g, order, k) && Oldest(g, order, more) == Oldest(g, order, k)
  {
    if order != [] {
      var first, rest := order[0], order[1..];
      assert first in order;
      if g.Idle(first) {
        NothingMoreToDrop(g, rest, k - 1, more - 1);
      } else {
        assert k == 0 ==> DropIdle(g, rest, k) == rest && order == [first] + rest;
        assert DropIdle(g, order, k) == [first] + DropIdle(g, rest, k);
        NothingMoreToDrop(g, rest, k, more);
      }
    }
  }

  lemma {:induction false} SameFirstIdle(g: Registry, h: Registry, order: seq<string>)
    requires forall id :: id in order ==> (g.Idle(id) <==> h.Idle(id))
    ensures FirstIdle(g, order) == FirstIdle(h, order)
  {
    if order != [] {
      assert order[0] in order;
      SameFirstIdle(g, h, order[1..]);
    }
  }

  lemma {:induction false} SameVerdicts(g: Registry, k: nat)
    requires Listed(g)
    ensures FirstIdle(WithoutOldest(g, k), DropIdle(g, g.order, k)) == FirstIdle(g, DropIdle(g, g.order, k))
  {
    SplitInTwo(g, g.order, k);
    SameFirstIdle(g, WithoutOldest(g, k), DropIdle(g, g.order, k));
  }

  lemma {:induction false} MinusOneMore(runs: map<string, Entry>, ids: seq<string>, id: string)
    ensures runs - Members(ids + [id]) == (runs - Members(ids)) - {id}
  {
    assert Members(ids + [id]) == Members(ids) + {id};
  }

  /** One pass of the eviction loop, with `k` runs dropped so far. */
  lemma {:induction false} EvictionStep(g: Registry, k: nat)
    requires Listed(g) && |Oldest(g, g.order, k)| == k
    ensures var h := WithoutOldest(g, k);
            var i := FirstIdle(h, h.order);
            && |h.order| + k == |g.order|
            && (i < |h.order| ==>
                 && WithoutOldest(g, k + 1) == Without(h, i)
                 && Oldest(g, g.order, k + 1) == Oldest(g, g.order, k) + [h.order[i]])
  {
    CountsAddUp(g, g.order, k);
    SameVerdicts(g, k);
    DropOneMore(g, g.order, k);
    var left := DropIdle(g, g.order, k);
    var i := FirstIdle(g, left);
    if i < |left| {
      MinusOneMore(g.runs, Oldest(g, g.order, k), left[i]);
    }
  }

  /** The loop ends early when nothing idle is left: no more would have gone. */
  lemma {:induction false} EvictionEndsEarly(g: Registry, k: nat)
    requires Listed(g) && k <= Excess(g)
    requires FirstIdle(WithoutOldest(g, k), DropIdle(g, g.order, k)) == |DropIdle(g, g.order, k)|
    ensures Evict(g) == WithoutOldest(g, k) && Victims(g) == Oldest(g, g.order, k)
  {
    SameVerdicts(g, k);
    var left := DropIdle(g, g.order, k);
    forall id | id in left ensures !g.Idle(id) {
      var j :| 0 <= j < |left| && left[j] == id;
    }
    NothingMoreToDrop(g, g.order, k, Excess(g));
  }

  datatype StartError = AtCapacity

  datatype StartResult = StartResult(registry: Registry, dropped: seq<string>, answer: Result<string, StartError>)

  /** Registers a new run unless a running one has the same target or the cap is
      reached. Registration and the first SaveRun are one step. */
  function StartRun(g: Registry, id: string, target: Target, attached: bool): (s: StartResult)
    requires Listed(g) && id !in g.runs
  {
    var focus := Focused(g, g.order, target);
    if focus.Some? then StartResult(g, [], Success(focus.value))
    else if |InFlight(g.runs)| >= g.maxConcurrent then StartResult(g, [], Failure(AtCapacity))
    else
      var h := Registered(g, id, target, attached);
      StartResult(Evict(h), Victims(h), Success(id))
  }

  function Registered(g: Registry, id: string, target: Target, attached: bool): (h: Registry)
    requires Listed(g) && id !in g.runs
    ensures Listed(h)
  {
    g.(runs := g.runs[id := Entry(target, Started(attached).run)], order := g.order + [id])
  }

  // ---------------------------------------------------------------- turns

  datatype ReserveError = NotFound | Full | Refused(why: BeginError)

  function Updated(g: Registry, id: string, r: RunState): Registry
    requires id in g.runs
  {
    g.(runs := g.runs[id := g.runs[id].(run := r)])
  }

  function Reserve(g: Registry, id: string, requireSession: bool): Result<Registry, ReserveError> {
    if id !in g.runs then Failure(NotFound)
    else if |InFlight(g.runs)| >= g.maxConcurrent then Failure(Full)
    else match Begin(g.runs[id].run, requireSession)
      case Failure(why) => Failure(Refused(why))
      case Success(e) => Success(Updated(g, id, e.run))
  }

  /** A turn is reserved exactly on a registered run that is neither in flight
      nor stale, below the cap, and with a session if one is to be resumed. */
  lemma {:induction false} ReservedIff(g: Registry, id: string, requireSession: bool)
    ensures Reserve(g, id, requireSession).Success? <==>
            && id in g.runs && |InFlight(g.runs)| < g.maxConcurrent
            && !g.runs[id].run.inFlight && g.runs[id].run.status != Stale && (requireSession ==> g.runs[id].run.session != None)
    ensures Reserve(g, id, requireSession).Success? ==>
              Reserve(g, id, requireSession).value ==
              g.(runs := g.runs[id := g.runs[id].(run := g.runs[id].run.(inFlight := true, status := Running))])
  {
  }

  /** Position i of the order is the oldest running run of the target. */
  ghost predicate OldestRunning(g: Registry, i: int, target: Target)
    requires Listed(g)
  {
    && 0 <= i < |g.order| && g.runs[g.order[i]].target == target && g.Running(g.order[i])
    && forall j :: 0 <= j < i ==> !(g.runs[g.order[j]].target == target && g.Running(g.order[j]))
  }

  lemma {:induction false} FocusedIsOldest(g: Registry, k: nat, target: Target)
    requires Listed(g) && k <= |g.order|
    requires forall j :: 0 <= j < k ==> !(g.runs[g.order[j]].target == target && g.Running(g.order[j]))
    ensures var f := Focused(g, g.order[k..], target);
            if f.Some? then exists i :: OldestRunning(g, i, target) && g.order[i] == f.value
            else forall i :: !OldestRunning(g, i, target)
    decreases |g.order| - k
  {
    if k < |g.order| {
      assert g.order[k..][1..] == g.order[k + 1..];
      if g.runs[g.order[k]].target == target && g.Running(g.order[k]) {
        assert OldestRunning(g, k, target);
      } else {
        FocusedIsOldest(g, k + 1, target);
      }
    }
  }

  /** Start focuses the oldest running run of its target if there is one, and
      changes nothing; otherwise it registers a run if and only if the cap
      allows one more. */
  lemma {:induction false} StartedIff(g: Registry, id: string, target: Target, attached: bool)
    requires Listed(g) && id !in g.runs
    ensures var s := StartRun(g, id, target, attached);
            if exists i :: OldestRunning(g, i, target) then
              s.registry == g && s.dropped == [] && exists i :: OldestRunning(g, i, target) && s.answer == Success(g.order[i])
            else if |InFlight(g.runs)| >= g.maxConcurrent then s.registry == g && s.dropped == [] && s.answer == Failure(AtCapacity)
            else
              var h := g.(runs := g.runs[id := Entry(target, Started(attached).run)], order := g.order + [id]);
              s.answer == Success(id) && s.registry == Evict(h) && s.dropped == Victims(h)
  {
    assert g.order[0..] == g.order;
    FocusedIsOldest(g, 0, target);
  }

  /** A critical section of one run that does not need the manager's mutex. */
  datatype Section =
    | Launching(turn: StreamEvent) | Streaming(event: StreamEvent) | Finishing(result: TurnResult, apply: bool)
    | Verifying(terminal: StreamEvent) | FinishingApply(terminal: StreamEvent) | Interrupting | MarkingStale
    | Subscribing(afterSeq: int) | Unsubscribing(sub: nat) | Receiving(sub: nat) | Installing(log: seq<RunEvent>)

  function Perform(r: RunState, section: Section): RunState
    requires r.ChannelsOpen()
  {
    match section
    case Launching(turn) => Launch(r, turn).run
    case Streaming(event) => Stream(r, event).run
    case Finishing(result, apply) => FinishTurn(r, result, apply).run
    case Verifying(terminal) => FinishApplyAndVerify(r, terminal).run
    case FinishingApply(terminal) => FinishApply(r, terminal).run
    case Interrupting => Interrupt(r).run
    case MarkingStale => MarkStale(r).run
    case Subscribing(afterSeq) => Subscribe(r, afterSeq)
    case Unsubscribing(sub) => Unsubscribe(r, sub)
    case Receiving(sub) => Receive(r, sub)
    case Installing(log) => Install(r, log)
  }

  /** A sweep leaves the runs of the current cluster and marks the others stale;
      without a current cluster it marks all of them. */
  function Swept(e: Entry, current: Option<string>): Entry
    requires e.run.ChannelsOpen()
  {
    if current.Some? && e.target.context == current.value then e else e.(run := MarkStale(e.run).run)
  }

  function SweptAll(runs: map<string, Entry>, current: Option<string>): map<string, Entry>
    requires forall id :: id in runs ==> runs[id].run.ChannelsOpen()
  {
    map id | id in runs :: Swept(runs[id], current)
  }

  /** Sweeping the same context again, as the source's guard avoids, would
      change nothing and write nothing. */
  lemma {:induction false} SweepingAgainChangesNothing(e: Entry, current: Option<string>)
    requires e.run.ChannelsOpen()
    ensures Swept(e, current).run.ChannelsOpen()
    ensures Swept(Swept(e, current), current) == Swept(e, current) && SweepWrites(Swept(e, current), current) == []
  {
    if !(current.Some? && e.target.context == current.value) && e.run.live && !e.run.status.Stale? {
      assert MarkStale(e.run).run.status.Stale?;
    }
  }

  /** What the sweep of one run writes: at most one batch, closing its log. */
  function SweepWrites(e: Entry, current: Option<string>): (writes: seq<Write>)
    requires e.run.ChannelsOpen()
    ensures |writes| <= 1
  {
    if current.Some? && e.target.context == current.value then [] else MarkStale(e.run).writes
  }

  /** A sweep leaves exactly the runs of the current cluster alone; every other
      run is final afterwards. */
  lemma {:induction false} SweepEndsTheForeign(runs: map<string, Entry>, current: Option<string>, id: string)
    requires (forall i :: i in runs ==> runs[i].run.ChannelsOpen()) && id in runs
    requires runs[id].run.status == Stale <==> !runs[id].run.live
    ensures var swept := SweptAll(runs, current);
            && swept.Keys == runs.Keys && swept[id].target == runs[id].target
            && (current == Some(runs[id].target.context) ==> swept[id] == runs[id])
            && (current != Some(runs[id].target.context) ==> swept[id].run.status == Stale && !swept[id].run.live)
  {
  }

  // ---------------------------------------------------------------- clearing

  function RunningOnly(g: Registry, order: seq<string>): (kept: seq<string>)
    ensures forall id :: id in kept <==> id in order && !g.Idle(id)
  {
    if order == [] then []
    else
      var rest := RunningOnly(g, order[..|order| - 1]);
      if g.Idle(order[|order| - 1]) then rest else rest + [order[|order| - 1]]
  }

  /** The runs a clear drops, in order. */
  function IdleOnly(g: Registry, order: seq<string>): (idle: seq<string>)
    ensures |idle| <= |order|
  {
    if order == [] then []
    else
      var rest := IdleOnly(g, order[..|order| - 1]);
      if g.Idle(order[|order| - 1]) then rest + [order[|order| - 1]] else rest
  }

  function Cleared(g: Registry, ok: bool): Registry
    requires Listed(g)
  {
    if ok
    then g.(runs := map id | id in g.runs && g.Running(id) :: g.runs[id], order := RunningOnly(g, g.order))
    else g
  }

  // ---------------------------------------------------------------- the machine

  datatype ManagerStep =
    | StartStep(newId: string, target: Target, attached: bool)
    | ReserveStep(id: string, requireSession: bool)
    | SectionStep(id: string, section: Section)
    | ClearStep(ok: bool)

  predicate Possible(g: Registry, step: ManagerStep) {
    match step
    case StartStep(id, _, _) => id !in g.runs
    case SectionStep(id, _) => id in g.runs
    case ReserveStep(_, _) => true
    case ClearStep(_) => true
  }

  ghost function Next(g: Registry, step: ManagerStep): Registry
    requires RegistryInv(g) && Possible(g, step)
  {
    match step
    case StartStep(id, target, attached) => StartRun(g, id, target, attached).registry
    case ReserveStep(id, requireSession) =>
      (match Reserve(g, id, requireSession)
       case Success(h) => h
       case Failure(_) => g)
    case SectionStep(id, section) => Updated(g, id, Perform(g.runs[id].run, section))
    case ClearStep(ok) => Cleared(g, ok)
  }

  // ---------------------------------------------------------------- the invariant

  predicate EndsTheTurn(section: Section) {
    section.Finishing? || section.Verifying? || section.FinishingApply?
  }

  /** What a section keeps of a run: it never takes a reservation, never revives
      a stale run, and stays finalized exactly when stale. */
  ghost predicate Kept(r: RunState, p: RunState) {
    p.ChannelsOpen() && (p.status.Stale? <==> !p.live) && (p.inFlight ==> r.inFlight) && (r.status.Stale? ==> p.status.Stale?)
  }

  lemma {:induction false} FinishingKeeps(r: RunState, result: TurnResult, apply: bool)
    requires r.ChannelsOpen() && (r.status.Stale? <==> !r.live)
    ensures Kept(r, FinishTurn(r, result, apply).run)
  {
  }

  lemma {:induction false} EndKeeps(r: RunState, section: Section)
    requires r.ChannelsOpen() && (r.status.Stale? <==> !r.live) && EndsTheTurn(section)
    ensures Kept(r, Perform(r, section))
  {
    match section {
      case Finishing(result, apply) => FinishingKeeps(r, result, apply);
      case Verifying(terminal) =>
      case FinishingApply(terminal) =>
    }
  }

  lemma {:induction false} PerformKeeps(r: RunState, section: Section)
    requires r.ChannelsOpen() && (r.status.Stale? <==> !r.live)
    ensures Kept(r, Perform(r, section))
  {
    match section {
      case Launching(turn) =>
      case Streaming(event) =>
      case Interrupting =>
      case MarkingStale =>
      case Subscribing(afterSeq) =>
      case Unsubscribing(sub) =>
      case Receiving(sub) =>
      case Installing(log) =>
      case _ => EndKeeps(r, section);
    }
  }

  lemma {:induction false} SmallerSet(small: set<string>, big: set<string>)
    requires small <= big
    ensures |small| <= |big|
  {
    assert big == small + (big - small);
  }

  lemma {:induction false} SectionKeeps(g: Registry, id: string, section: Section)
    requires RegistryInv(g) && id in g.runs
    ensures RegistryInv(Updated(g, id, Perform(g.runs[id].run, section)))
    ensures InFlight(Updated(g, id, Perform(g.runs[id].run, section)).runs) <= InFlight(g.runs)
  {
    PerformKeeps(g.runs[id].run, section);
    var h := Updated(g, id, Perform(g.runs[id].run, section));
    assert h.order == g.order && h.runs.Keys == g.runs.Keys;
    SmallerSet(InFlight(h.runs), InFlight(g.runs));
  }

  lemma {:induction false} ReserveKeeps(g: Registry, id: string, requireSession: bool)
    requires RegistryInv(g) && Reserve(g, id, requireSession).Success?
    ensures RegistryInv(Reserve(g, id, requireSession).value)
  {
    var h := Reserve(g, id, requireSession).value;
    assert h.order == g.order && h.runs.Keys == g.runs.Keys;
    assert InFlight(h.runs) == InFlight(g.runs) + {id};
  }

  lemma {:induction false} SweepKeeps(g: Registry, id: string, current: Option<string>)
    requires RegistryInv(g) && id in g.runs
    ensures RegistryInv(g.(runs := g.runs[id := Swept(g.runs[id], current)]))
  {
    SectionKeeps(g, id, MarkingStale);
    assert g.runs[id := g.runs[id]] == g.runs;
  }

  lemma {:induction false} SubRegistryKeeps(g: Registry, h: Registry)
    requires RegistryInv(g) && Listed(h) && h.runs.Keys <= g.runs.Keys && h.maxConcurrent == g.maxConcurrent
    requires forall id :: id in h.runs ==> h.runs[id] == g.runs[id]
    ensures RegistryInv(h)
  {
    SmallerSet(InFlight(h.runs), InFlight(g.runs));
  }

  lemma {:induction false} RegisteredKeeps(g: Registry, id: string, target: Target, attached: bool)
    requires RegistryInv(g) && id !in g.runs && |InFlight(g.runs)| < g.maxConcurrent
    ensures RegistryInv(Registered(g, id, target, attached))
  {
    var h := Registered(g, id, target, attached);
    assert InFlight(h.runs) == InFlight(g.runs) + {id};
  }

  lemma {:induction false} StartKeeps(g: Registry, id: string, target: Target, attached: bool)
    requires RegistryInv(g) && id !in g.runs
    ensures RegistryInv(StartRun(g, id, target, attached).registry)
  {
    var s := StartRun(g, id, target, attached);
    if Focused(g, g.order, target).None? && |InFlight(g.runs)| < g.maxConcurrent {
      RegisteredKeeps(g, id, target, attached);
      var h := Registered(g, id, target, attached);
      StillListed(h, Excess(h));
      SubRegistryKeeps(h, Evict(h));
    }
  }

  lemma {:induction false} KeptOrderIsDistinct(g: Registry, order: seq<string>)
    requires Distinct(order)
    ensures Distinct(RunningOnly(g, order))
  {
    if order != [] {
      var init, last := order[..|order| - 1], order[|order| - 1];
      KeptOrderIsDistinct(g, init);
      assert last !in init;
      var rest, kept := RunningOnly(g, init), RunningOnly(g, order);
      assert kept == rest || kept == rest + [last];
      forall i, j | 0 <= i < j < |kept| ensures kept[i] != kept[j] {
        assert kept[i] == rest[i] && rest[i] in rest && rest[i] in init;
        if j < |rest| {
          assert kept[j] == rest[j];
        } else {
          assert kept[j] == last;
        }
      }
    } else {
      assert RunningOnly(g, order) == [];
    }
  }

  lemma {:induction false} ClearKeeps(g: Registry, ok: bool)
    requires RegistryInv(g)
    ensures RegistryInv(Cleared(g, ok))
  {
    if ok {
      KeptOrderIsDistinct(g, g.order);
      SubRegistryKeeps(g, Cleared(g, ok));
    }
  }

  /** Every step of the manager keeps the registry's invariant, and a run that
      was stale and is still registered is still stale. */
  lemma {:induction false} RegistryStep(g: Registry, step: ManagerStep)
    requires RegistryInv(g) && Possible(g, step)
    ensures RegistryInv(Next(g, step))
    ensures forall id :: id in g.runs && id in Next(g, step).runs && g.runs[id].run.status.Stale? ==>
              Next(g, step).runs[id].run.status.Stale?
  {
    match step {
      case StartStep(id, target, attached) => StartKeeps(g, id, target, attached);
      case ReserveStep(id, requireSession) =>
        if Reserve(g, id, requireSession).Success? { ReserveKeeps(g, id, requireSession); }
      case SectionStep(id, section) =>
        SectionKeeps(g, id, section);
        PerformKeeps(g.runs[id].run, section);
      case ClearStep(ok) => ClearKeeps(g, ok);
    }
  }

  ghost predicate Leads(g: Registry, steps: seq<ManagerStep>, h: Registry)
    decreases |steps|
  {
    if steps == [] then g == h
    else RegistryInv(g) && Possible(g, steps[0]) && Leads(Next(g, steps[0]), steps[1..], h)
  }

  /** So it holds after any history, starting from an empty registry or from
      whatever was loaded. */
  lemma {:induction false} RegistryAlways(g: Registry, steps: seq<ManagerStep>, h: Registry)
    requires RegistryInv(g) && Leads(g, steps, h)
    ensures RegistryInv(h)
    decreases |steps|
  {
    if steps != [] {
      RegistryStep(g, steps[0]);
      RegistryAlways(Next(g, steps[0]), steps[1..], h);
    }
  }

  // ---------------------------------------------------------------- counting under interleaving

  /** Sections of single runs only ever release reservations. */
  lemma {:induction false} SectionsOnlyRelease(g: Registry, steps: seq<ManagerStep>, h: Registry)
    requires RegistryInv(g) && Leads(g, steps, h) && forall s :: s in steps ==> s.SectionStep?
    ensures RegistryInv(h) && InFlight(h.runs) <= InFlight(g.runs) && h.maxConcurrent == g.maxConcurrent
    decreases |steps|
  {
    if steps != [] {
      assert steps[0] in steps;
      SectionKeeps(g, steps[0].id, steps[0].section);
      assert forall s :: s in steps[1..] ==> s in steps;
      SectionsOnlyRelease(Next(g, steps[0]), steps[1..], h);
    }
  }

  /** The cap is checked by looking at one run after another while their own
      sections go on. A count taken that way may be too high, never too low, so
      a reservation it admits still respects the cap. */
  lemma {:induction false} StaleCountIsSafe(g: Registry, steps: seq<ManagerStep>, h: Registry, counted: set<string>)
    requires RegistryInv(g) && Leads(g, steps, h) && forall s :: s in steps ==> s.SectionStep?
    requires forall id :: id in g.runs && id !in counted ==> exists k ::
               0 <= k <= |steps| && exists mid :: Leads(g, steps[..k], mid) && Leads(mid, steps[k..], h) && RegistryInv(mid) && id !in InFlight(mid.runs)
    ensures InFlight(h.runs) <= counted
  {
    forall id | id in InFlight(h.runs) ensures id in counted {
      SectionsOnlyRelease(g, steps, h);
      if id !in counted {
        var k :| 0 <= k <= |steps| && exists mid :: Leads(g, steps[..k], mid) && Leads(mid, steps[k..], h) && RegistryInv(mid) && id !in InFlight(mid.runs);
        var mid :| Leads(g, steps[..k], mid) && Leads(mid, steps[k..], h) && RegistryInv(mid) && id !in InFlight(mid.runs);
        assert forall s :: s in steps[k..] ==> s in steps;
        SectionsOnlyRelease(mid, steps[k..], h);
      }
    }
  }

  // ---------------------------------------------------------------- what eviction and clearing drop

  function IdleCount(g: Registry, order: seq<string>): (n: nat)
    ensures n <= |order|
  {
    if order == [] then 0 else (if g.Idle(order[0]) then 1 else 0) + IdleCount(g, order[1..])
  }

  function Min(a: nat, b: nat): nat { if a < b then a else b }

  /** Eviction removes exactly the oldest runs that are not running, as many as
      the cap is exceeded by or all of them if there are fewer. */
  lemma {:induction false} EvictionDropsTheOldestIdle(g: Registry)
    requires Listed(g)
    ensures |Victims(g)| == Min(if |g.order| > g.maxRetained then |g.order| - g.maxRetained else 0, IdleCount(g, g.order))
    ensures forall id :: id in Victims(g) ==> g.Idle(id)
    ensures forall i, j :: 0 <= i < j < |g.order| && g.Idle(g.order[i]) && g.order[j] in Victims(g) ==> g.order[i] in Victims(g)
    ensures forall id :: id in Evict(g).order <==> id in g.order && id !in Victims(g)
  {
    SplitInTwo(g, g.order, Excess(g));
    CountsAddUp(g, g.order, Excess(g));
    forall i, j | 0 <= i < j < |g.order| && g.Idle(g.order[i]) && g.order[j] in Victims(g)
      ensures g.order[i] in Victims(g)
    {
      OldestFirst(g, g.order, Excess(g), i, j);
    }
  }

  /** A running run is never evicted, and the cap is exceeded only by running ones. */
  lemma {:induction false} EvictionSparesTheRunning(g: Registry)
    requires Listed(g)
    ensures forall id :: id in g.runs && g.Running(id) ==> id in Evict(g).runs
    ensures |Evict(g).order| <= g.maxRetained || forall id :: id in Evict(g).order ==> id in g.runs && g.Running(id)
  {
    SplitInTwo(g, g.order, Excess(g));
    CountsAddUp(g, g.order, Excess(g));
    if |Evict(g).order| > g.maxRetained {
      forall id | id in Evict(g).order ensures !g.Idle(id) { ShortOfVictims(g, g.order, Excess(g), id); }
    }
  }

  lemma {:induction false} IdleOnlyMeans(g: Registry, order: seq<string>, id: string)
    ensures id in IdleOnly(g, order) <==> id in order && g.Idle(id)
    ensures |IdleOnly(g, order)| + |RunningOnly(g, order)| == |order|
  {
    if order != [] {
      var init, last := order[..|order| - 1], order[|order| - 1];
      IdleOnlyMeans(g, init, id);
      assert order == init + [last];
    }
  }

  ghost predicate Before(order: seq<string>, x: string, y: string) {
    exists i, j :: 0 <= i < j < |order| && order[i] == x && order[j] == y
  }

  /** ClearHistory keeps exactly the running runs, in order, or nothing changes. */
  lemma {:induction false} ClearKeepsExactlyTheRunning(g: Registry, ok: bool)
    requires RegistryInv(g)
    ensures var h := Cleared(g, ok);
            && (forall id :: id in h.runs <==> id in g.runs && (ok ==> g.Running(id)))
            && (forall id :: id in h.runs ==> h.runs[id] == g.runs[id])
            && (!ok ==> h == g)
            && InFlight(h.runs) <= InFlight(g.runs)
            && (forall id :: id in IdleOnly(g, g.order) <==> id in g.runs && !g.Running(id))
            && |IdleOnly(g, g.order)| + |RunningOnly(g, g.order)| == |g.order|
            && forall a, b :: 0 <= a < b < |h.order| ==> Before(g.order, h.order[a], h.order[b])
  {
    var h := Cleared(g, ok);
    forall a, b | 0 <= a < b < |h.order| ensures Before(g.order, h.order[a], h.order[b]) {
      if ok { KeptInOrder(g, g.order, a, b); }
    }
    forall id ensures id in IdleOnly(g, g.order) <==> id in g.runs && !g.Running(id) {
      IdleOnlyMeans(g, g.order, id);
    }
    IdleOnlyMeans(g, g.order, "");
  }

  lemma {:induction false} KeptInOrder(g: Registry, order: seq<string>, a: nat, b: nat)
    requires a < b < |RunningOnly(g, order)|
    ensures Before(order, RunningOnly(g, order)[a], RunningOnly(g, order)[b])
  {
    var init, last := order[..|order| - 1], order[|order| - 1];
    var rest, kept := RunningOnly(g, init), RunningOnly(g, order);
    assert kept == rest || kept == rest + [last];
    if b < |rest| {
      KeptInOrder(g, init, a, b);
      var i, j :| 0 <= i < j < |init| && init[i] == rest[a] && init[j] == rest[b];
      assert order[i] == kept[a] && order[j] == kept[b];
    } else {
      assert rest[a] in rest;
      var i :| 0 <= i < |init| && init[i] == rest[a];
      assert order[i] == kept[a] && order[|order| - 1] == kept[b];
    }
  }
}
