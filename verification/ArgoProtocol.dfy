/** The connection manager as a concurrent system: one probe at a time, config
    changes, context switches, reads, tunnels that die, and threads that stop
    forwards. Each step is one critical section or one answer from the network. */
module ArgoProtocol {
  import opened Wrappers
  import opened ArgoState

  /** The thread that holds the probe slot. */
  datatype Probe =
    | NoProbe
    | Holding(before: nat)                                                  // source binding read once
    | Captured(snap: Snapshot)                                              // settings and cluster client captured
    | Allowed(snap: Snapshot, after: nat)                                   // binding read again, token allowed
    | Confirming(snap: Snapshot, after: nat, base: Address, forwarded: bool)
    | Searching(snap: Snapshot, after: nat)
    | Trying(snap: Snapshot, after: nat, started: nat)                      // a new forward, not known to answer yet
    | Verifying(snap: Snapshot, after: nat, address: Address, tunnel: Option<nat>)
    | Verified(snap: Snapshot, after: nat, address: Address, tunnel: Option<nat>)
    | Refused(snap: Snapshot, after: nat, result: AuthResult)

  /** A forward's watcher: waiting, the tunnel has ended, the exit is recorded
      but the drop has not run, or finished. */
  datatype Watcher = Watching | Ended | Marked | Gone

  datatype Kind = ManagedResources | RevisionMetadata | ApplicationHealth | Repositories

  /** A read in flight: the client it goes through, and the generation it will
      be stored under. */
  datatype Reader = Reader(kind: Kind, key: string, generation: nat, client: Option<nat>)

  datatype System = System(
    m: Argo,
    probe: Probe,
    sources: seq<string>,          // the source bindings, one per context switch, the last one current
    hands: set<nat>,               // forwards in the hands of a thread about to stop them
    stopped: set<nat>,
    watchers: map<nat, Watcher>,   // one per started forward
    nextForward: nat,
    nextClient: nat,
    readers: map<nat, Reader>,
    answered: set<nat>)            // clients through which a read has succeeded

  function Epoch(s: System): nat
    requires s.sources != []
  {
    |s.sources| - 1
  }

  predicate HasSnapshot(p: Probe) { !p.NoProbe? && !p.Holding? }

  function Held(p: Probe): set<nat> {
    match p
    case Trying(_, _, f) => {f}
    case Verifying(_, _, _, tunnel) => if tunnel.Some? then {tunnel.value} else {}
    case Verified(_, _, _, tunnel) => if tunnel.Some? then {tunnel.value} else {}
    case _ => {}
  }

  function Installed(m: Argo): set<nat> { if m.forward.Some? then {m.forward.value} else {} }

  /** A dropped connection leaves its forward to the thread that dropped it. */
  function Drop(s: System): System {
    s.(m := Dropped(s.m), hands := s.hands + Installed(s.m))
  }

  datatype Step =
    | Acquire
    | Capture(stored: Config)
    | CheckBinding
    | ReadBase
    | BaseAnswers
    | BaseSlow(accepts: bool)
    | BaseGone
    | FindAddress(url: string)
    | StartForward
    | ForwardAnswers(url: string)
    | ForwardSilent
    | GiveUp
    | CheckToken(result: AuthResult)
    | HandleRefusal
    | Commit
    | ChangeSettings(change: Change)
    | SwitchContext(binding: string)
    | TunnelEnds(forward: nat)
    | MarkExited(forward: nat)
    | WatcherDrops(forward: nat)
    | StopForward(forward: nat)
    | BeginRead(reader: nat, kind: Kind, key: string)
    | NoteGeneration(reader: nat)
    | ConnectRepositories(reader: nat)
    | EndRead(reader: nat, answer: Answer, now: nat, victim: string)

  /** Steps of the thread that holds the probe slot: capturing what it will use, */
  predicate Preparing(step: Step) { step.Acquire? || step.Capture? || step.CheckBinding? || step.ReadBase? }

  /** finding an address and checking the token with it, */
  predicate Resolving(step: Step) {
    step.BaseAnswers? || step.BaseSlow? || step.BaseGone? || step.FindAddress? ||
    step.StartForward? || step.ForwardAnswers? || step.ForwardSilent? || step.GiveUp? || step.CheckToken?
  }

  /** and its last section. */
  predicate Concluding(step: Step) { step.HandleRefusal? || step.Commit? }

  predicate Reading(step: Step) { step.BeginRead? || step.NoteGeneration? || step.ConnectRepositories? || step.EndRead? }

  predicate Enabled(s: System, step: Step) {
    s.sources != [] &&
    match step
    case Acquire => s.probe.NoProbe?
    case Capture(_) => s.probe.Holding?
    case CheckBinding => s.probe.Captured? && s.probe.snap.before < |s.sources|
    case ReadBase => s.probe.Allowed?
    case BaseAnswers => s.probe.Confirming?
    case BaseSlow(_) => s.probe.Confirming?
    case BaseGone => s.probe.Confirming?
    case FindAddress(url) =>
      s.probe.Searching? && url != "" && (s.probe.snap.config.manualURL != "" ==> url == s.probe.snap.config.manualURL)
    case StartForward => s.probe.Searching? && s.probe.snap.config.manualURL == ""
    case ForwardAnswers(url) => s.probe.Trying? && url != ""
    case ForwardSilent => s.probe.Trying?
    case GiveUp => s.probe.Searching?
    case CheckToken(result) => s.probe.Verifying? && (s.probe.snap.config.token == "" ==> result.Accepted?)
    case HandleRefusal => s.probe.Refused?
    case Commit => s.probe.Verified?
    case ChangeSettings(_) => true
    case SwitchContext(_) => true
    case TunnelEnds(f) => f in s.watchers && s.watchers[f].Watching?
    case MarkExited(f) => f in s.watchers && s.watchers[f].Ended?
    case WatcherDrops(f) => f in s.watchers && s.watchers[f].Marked?
    case StopForward(f) => f in s.hands
    case BeginRead(r, kind, _) => r !in s.readers && !kind.Repositories? && s.m.client.Some?
    case NoteGeneration(r) => r !in s.readers
    case ConnectRepositories(r) => r in s.readers && s.readers[r].client.None? && s.m.client.Some?
    case EndRead(r, _, now, victim) =>
      r in s.readers && s.readers[r].client.Some? &&
      // the entry that makes room is one the swept cache holds
      (|Fresh(s.m.revisions, now)| >= REVISION_CACHE_CAP ==> victim in Fresh(s.m.revisions, now))
  }

  function Prepared(s: System, step: Step): (t: System)
    requires Enabled(s, step) && Preparing(step)
    ensures t == s.(m := t.m, probe := t.probe)
    ensures t.m == s.m || (step.Capture? && t.m == Seeded(s.m, step.stored))
    ensures Held(t.probe) == {}
  {
    match step
    case Acquire => s.(probe := Holding(Epoch(s)))
    case Capture(stored) =>
      var m := Seeded(s.m, stored);
      s.(m := m, probe := Captured(Snapshot(m.generation, m.config, s.probe.before, Epoch(s))))
    case CheckBinding =>
      var snap := s.probe.snap;
      if BindingAllows(snap.config, s.sources[snap.before], s.sources[Epoch(s)])
      then s.(probe := Allowed(snap, Epoch(s)))
      else s.(probe := NoProbe)
    case ReadBase =>
      var (snap, after) := (s.probe.snap, s.probe.after);
      if s.m.base.Some? then s.(probe := Confirming(snap, after, s.m.base.value, s.m.forward.Some?))
      else s.(probe := Searching(snap, after))
  }

  function Resolved(s: System, step: Step): (t: System)
    requires Enabled(s, step) && Resolving(step)
    ensures t == s.(m := t.m, probe := t.probe, hands := t.hands, watchers := t.watchers, nextForward := t.nextForward)
    ensures t.m == s.m || t.m == Dropped(s.m)
    ensures t.probe.NoProbe? || (HasSnapshot(t.probe) && t.probe.snap == s.probe.snap && !t.probe.Captured? && t.probe.after == s.probe.after)
  {
    match step
    case BaseAnswers => s.(probe := Verifying(s.probe.snap, s.probe.after, s.probe.base, None))
    case BaseSlow(accepts) =>
      // A forward's local end always accepts, so only a search tells a dead
      // tunnel from a slow server; the connection stays in place meanwhile.
      if s.probe.forwarded && s.probe.snap.config.manualURL == "" then s.(probe := Searching(s.probe.snap, s.probe.after))
      else if !s.probe.forwarded && accepts then s.(probe := NoProbe)
      else GoneBase(s)
    case BaseGone => GoneBase(s)
    case FindAddress(url) =>
      var (snap, after) := (s.probe.snap, s.probe.after);
      var source := if snap.config.manualURL != "" then Given else Discovered(Span(snap.before, snap.cluster, after));
      s.(probe := Verifying(snap, after, Address(url, source, snap.generation), None))
    case StartForward =>
      s.(probe := Trying(s.probe.snap, s.probe.after, s.nextForward), nextForward := s.nextForward + 1,
         watchers := s.watchers[s.nextForward := Watching])
    case ForwardAnswers(url) =>
      var (snap, after, f) := (s.probe.snap, s.probe.after, s.probe.started);
      s.(probe := Verifying(snap, after, Address(url, Forwarded(f, Span(snap.before, snap.cluster, after)), snap.generation), Some(f)))
    case ForwardSilent => s.(probe := Searching(s.probe.snap, s.probe.after), hands := s.hands + {s.probe.started})
    case GiveUp => s.(probe := NoProbe)
    case CheckToken(result) =>
      var (snap, after, address, tunnel) := (s.probe.snap, s.probe.after, s.probe.address, s.probe.tunnel);
      if result.Accepted? then s.(probe := Verified(snap, after, address, tunnel))
      else s.(probe := Refused(snap, after, result), hands := s.hands + Held(s.probe))
  }

  function Concluded(s: System, step: Step): (t: System)
    requires Enabled(s, step) && Concluding(step)
    ensures t == s.(m := t.m, probe := NoProbe, hands := t.hands, nextClient := t.nextClient)
  {
    match step
    case HandleRefusal =>
      var free := s.(probe := NoProbe);
      if RejectionDrops(s.m, s.probe.snap, s.probe.result) then Drop(free) else free
    case Commit =>
      var c := Outcome(s);
      s.(m := c.state, probe := NoProbe, nextClient := s.nextClient + 1,
         hands := s.hands + if c.unused.Some? then {c.unused.value} else {})
  }

  function Read(s: System, step: Step): (t: System)
    requires Enabled(s, step) && Reading(step)
    ensures t == s.(m := t.m, readers := t.readers, answered := t.answered)
  {
    match step
    case BeginRead(r, kind, key) =>
      s.(readers := s.readers[r := Reader(kind, key, s.m.generation, Some(s.m.client.value.id))])
    case NoteGeneration(r) => s.(readers := s.readers[r := Reader(Repositories, "", s.m.generation, None)])
    case ConnectRepositories(r) => s.(readers := s.readers[r := s.readers[r].(client := Some(s.m.client.value.id))])
    case EndRead(r, answer, now, victim) =>
      var reader := s.readers[r];
      s.(m := Stored(s.m, reader, answer, now, victim), readers := s.readers - {r},
         answered := if answer.Answered? then s.answered + {reader.client.value} else s.answered)
  }

  predicate Environmental(step: Step) { !Preparing(step) && !Resolving(step) && !Concluding(step) && !Reading(step) }

  function Moved(s: System, step: Step): (t: System)
    requires Enabled(s, step) && Environmental(step)
    ensures t == s.(m := t.m, sources := t.sources, hands := t.hands, stopped := t.stopped, watchers := t.watchers)
    ensures t.m == s.m || t.m == Dropped(s.m) || (step.ChangeSettings? && t.m == Changed(s.m, step.change))
  {
    match step
    case ChangeSettings(change) => s.(m := Changed(s.m, change), hands := s.hands + Installed(s.m))
    case SwitchContext(binding) => s.(sources := s.sources + [binding])
    case TunnelEnds(f) => s.(watchers := s.watchers[f := Ended])
    case MarkExited(f) => s.(watchers := s.watchers[f := Marked])
    case WatcherDrops(f) =>
      var done := s.(watchers := s.watchers[f := Gone]);
      if s.m.forward == Some(f) then Drop(done) else done
    case StopForward(f) => s.(hands := s.hands - {f}, stopped := s.stopped + {f})
  }

  function Next(s: System, step: Step): System
    requires Enabled(s, step)
  {
    if Preparing(step) then Prepared(s, step)
    else if Resolving(step) then Resolved(s, step)
    else if Concluding(step) then Concluded(s, step)
    else if Reading(step) then Read(s, step)
    else Moved(s, step)
  }

  /** The address in place stopped answering: drop it, unless it was replaced. */
  function GoneBase(s: System): System
    requires s.probe.Confirming?
  {
    var searching := s.(probe := Searching(s.probe.snap, s.probe.after));
    if s.m.base.Some? && s.m.base.value.url == s.probe.base.url then Drop(searching) else searching
  }

  predicate Exited(s: System, f: nat) { f in s.watchers && (s.watchers[f].Marked? || s.watchers[f].Gone?) }

  function Outcome(s: System): CommitResult
    requires s.probe.Verified?
  {
    Committed(s.m, s.probe.snap, s.probe.address, s.probe.tunnel,
              s.probe.tunnel.Some? && Exited(s, s.probe.tunnel.value), s.nextClient)
  }

  function Stored(m: Argo, reader: Reader, answer: Answer, now: nat, victim: string): (n: Argo)
    requires reader.client.Some?
    ensures n == m.(cache := n.cache, revisions := n.revisions, health := n.health, repositories := n.repositories, anonymousRead := n.anonymousRead)
    ensures n.anonymousRead.ReadAllowed? && !m.anonymousRead.ReadAllowed? ==>
              answer.Answered? && m.client.Some? && m.client.value.id == reader.client.value
  {
    match reader.kind
    case ManagedResources => ManagedStored(m, reader.client.value, reader.generation, reader.key, answer, now)
    case RevisionMetadata => RevisionStored(m, reader.client.value, reader.generation, reader.key, answer, now, victim)
    case ApplicationHealth => HealthStored(m, reader.client.value, reader.generation, reader.key, answer, now)
    case Repositories => RepositoriesStored(m, reader.client.value, reader.generation, answer, now)
  }

  function Initial(binding: string): System {
    System(Argo(false, EMPTY_CONFIG, 0, None, None, None, false, ReadUnknown, map[], map[], map[], None),
           NoProbe, [binding], {}, {}, map[], 0, 0, map[], {})
  }
}
