/** What every step of the connection manager keeps true. */
module ArgoInvariant {
  import opened Wrappers
  import opened ArgoState
  import opened ArgoProtocol

  // ---------------------------------------------------------------- the connection

  /** The address belongs to these settings: the configured URL if there is one,
      a discovered server otherwise, resolved under their generation. */
  predicate Fits(config: Config, generation: nat, address: Address) {
    && address.generation == generation
    && (config.manualURL != "" <==> address.source.Given?)
    && (address.source.Given? ==> address.url == config.manualURL)
    && address.url != ""
  }

  predicate Paired(m: Argo, c: Client) {
    && m.seeded && m.base == Some(c.address) && Fits(m.config, m.generation, c.address)
    && c.token == m.config.token && c.insecureTLS == m.config.insecureTLS && c.generation == m.generation
    && m.anonymous == (c.token == "")
  }

  ghost predicate Disconnected(m: Argo) {
    m == Dropped(m)
  }

  ghost predicate Fetched(entries: map<string, Cached>, client: nat, generation: nat) {
    forall k :: k in entries ==> entries[k].client == client && entries[k].generation == generation
  }

  /** A connection is complete or absent, and whatever is cached was fetched
      through it (or, for health and repositories, under its generation). */
  ghost predicate Connected(m: Argo) {
    && (m.client.Some? ==>
          && Paired(m, m.client.value)
          && Fetched(m.cache, m.client.value.id, m.generation)
          && Fetched(m.revisions, m.client.value.id, m.generation))
    && (m.client.None? ==> Disconnected(m))
    && (forall k :: k in m.health ==> m.health[k].generation == m.generation)
    && (m.repositories.Some? ==> m.repositories.value.generation == m.generation)
    && (m.anonymousRead.ReadAllowed? ==> m.anonymous)
    && |m.revisions| <= REVISION_CACHE_CAP
  }

  /** What the other parts of the invariant need of a connection. */
  predicate Sound(m: Argo) {
    && (m.client.Some? <==> m.base.Some?)
    && (m.client.Some? ==> Paired(m, m.client.value))
    && (m.client.None? ==> m.forward.None? && m.anonymousRead.ReadUnknown?)
  }

  ghost predicate Identified(s: System) {
    && (s.m.client.Some? ==> s.m.client.value.id < s.nextClient)
    && (s.m.anonymousRead.ReadAllowed? ==> s.m.client.Some? && s.m.client.value.id in s.answered)
    && (forall r :: r in s.readers && s.readers[r].client.Some? ==> s.readers[r].client.value < s.nextClient)
    && (forall c :: c in s.answered ==> c < s.nextClient)
  }

  // ---------------------------------------------------------------- the probe

  predicate HasAddress(p: Probe) { p.Verifying? || p.Verified? }

  /** A snapshot of the current generation is a snapshot of the current settings. */
  predicate SnapshotHolds(m: Argo, snap: Snapshot) {
    && m.seeded && snap.generation <= m.generation
    && (snap.generation == m.generation ==> snap.config == m.config)
  }

  ghost predicate ProbeInv(s: System) {
    && (HasSnapshot(s.probe) ==> SnapshotHolds(s.m, s.probe.snap))
    // nobody else connects meanwhile, so a connection seen now is of this generation
    && (HasSnapshot(s.probe) && s.m.client.Some? ==> s.probe.snap.generation == s.m.generation)
    && (s.probe.Confirming? ==> Fits(s.probe.snap.config, s.probe.snap.generation, s.probe.base))
    && (HasAddress(s.probe) ==> Fits(s.probe.snap.config, s.probe.snap.generation, s.probe.address))
    && (HasAddress(s.probe) && s.probe.tunnel.Some? ==>
          s.probe.address.source.Forwarded? && s.probe.address.source.forward == s.probe.tunnel.value)
    && (s.probe.Trying? ==> s.probe.snap.config.manualURL == "")
  }

  // ---------------------------------------------------------------- sources

  /** The capture lies between the two reads of the binding, both of which
      found the token's own. */
  ghost predicate SpanAllows(sources: seq<string>, config: Config, span: Span) {
    && span.before <= span.cluster <= span.after < |sources|
    && (config.manualURL == "" && config.token != "" ==>
          sources[span.before] == config.tokenBinding && sources[span.after] == config.tokenBinding && config.tokenBinding != "")
  }

  /** A server that was found was found within such a span. */
  ghost predicate InSpan(sources: seq<string>, config: Config, address: Address) {
    !address.source.Given? ==> SpanAllows(sources, config, address.source.span)
  }

  ghost predicate SourceInv(s: System) {
    && s.sources != []
    && (s.probe.Holding? ==> s.probe.before < |s.sources|)
    && (s.probe.Captured? ==> s.probe.snap.before <= s.probe.snap.cluster < |s.sources|)
    && (HasSnapshot(s.probe) && !s.probe.Captured? ==>
          SpanAllows(s.sources, s.probe.snap.config, Span(s.probe.snap.before, s.probe.snap.cluster, s.probe.after)))
    && (s.m.client.Some? ==> InSpan(s.sources, s.m.config, s.m.client.value.address))
    && (s.probe.Confirming? ==> InSpan(s.sources, s.probe.snap.config, s.probe.base))
    && (HasAddress(s.probe) ==> InSpan(s.sources, s.probe.snap.config, s.probe.address))
  }

  // ---------------------------------------------------------------- forwards

  /** Every started forward is in exactly one place: installed, held by the
      probe, in the hands of a thread about to stop it, or stopped. */
  ghost predicate Conserved(s: System) {
    && Installed(s.m) + Held(s.probe) + s.hands + s.stopped == s.watchers.Keys
    && Installed(s.m) !! Held(s.probe) !! s.hands !! s.stopped
    && (forall f :: f in s.watchers ==> f < s.nextForward)
  }

  /** The installed forward has a watcher that has not run its drop yet. */
  ghost predicate Watched(s: System) {
    s.m.forward.Some? ==> s.m.forward.value in s.watchers && !s.watchers[s.m.forward.value].Gone?
  }

  ghost predicate ForwardInv(s: System) { Conserved(s) && Watched(s) }

  ghost predicate Inv(s: System) {
    Connected(s.m) && Identified(s) && ProbeInv(s) && SourceInv(s) && ForwardInv(s)
  }

  // ---------------------------------------------------------------- sections

  lemma {:induction false} ChangeKeeps(m: Argo, change: Change)
    requires Connected(m)
    ensures Connected(Changed(m, change))
  {
  }

  lemma {:induction false} CommitKeeps(m: Argo, snap: Snapshot, address: Address, tunnel: Option<nat>, exited: bool, newId: nat)
    requires Connected(m) && SnapshotHolds(m, snap) && Fits(snap.config, snap.generation, address)
    ensures Connected(Committed(m, snap, address, tunnel, exited, newId).state)
  {
    var c := Committed(m, snap, address, tunnel, exited, newId);
    if c.committed {
      if m.Moves(address) {
        assert c.state.cache == map[] && c.state.revisions == map[];
      } else {
        assert m.client.Some?;
      }
    }
  }

  lemma {:induction false} FreshIsSmaller(entries: map<string, Cached>, now: nat)
    ensures |Fresh(entries, now)| <= |entries|
  {
    var kept := Fresh(entries, now);
    assert entries.Keys == kept.Keys + (entries.Keys - kept.Keys);
    assert |kept.Keys| == |kept| && |entries.Keys| == |entries|;
  }

  lemma {:induction false} CappedLeavesRoom(entries: map<string, Cached>, victim: string, key: string, e: Cached)
    requires |entries| <= REVISION_CACHE_CAP
    requires |entries| == REVISION_CACHE_CAP ==> victim in entries
    ensures |Capped(entries, victim)[key := e]| <= REVISION_CACHE_CAP
  {
    var room := Capped(entries, victim);
    if |entries| == REVISION_CACHE_CAP {
      assert entries.Keys == room.Keys + {victim};
      assert |entries.Keys| == |entries| && |room.Keys| == |room|;
    }
    assert |room| < REVISION_CACHE_CAP;
    var full := room[key := e];
    assert full.Keys == room.Keys + {key};
    assert |full.Keys| == |full| && |room.Keys| == |room|;
  }

  lemma {:induction false} ManagedKeeps(m: Argo, client: nat, generation: nat, key: string, answer: Answer, now: nat)
    requires Connected(m)
    ensures Connected(ManagedStored(m, client, generation, key, answer, now))
  {
  }

  lemma {:induction false} RevisionKeeps(m: Argo, client: nat, generation: nat, key: string, answer: Answer, now: nat, victim: string)
    requires Connected(m)
    requires |Fresh(m.revisions, now)| >= REVISION_CACHE_CAP ==> victim in Fresh(m.revisions, now)
    ensures Connected(RevisionStored(m, client, generation, key, answer, now, victim))
  {
    FreshIsSmaller(m.revisions, now);
    CappedLeavesRoom(Fresh(m.revisions, now), victim, key, Cached(client, generation, now + 300));
  }

  lemma {:induction false} HealthKeeps(m: Argo, client: nat, generation: nat, key: string, answer: Answer, now: nat)
    requires Connected(m)
    ensures Connected(HealthStored(m, client, generation, key, answer, now))
  {
  }

  lemma {:induction false} StoredKeeps(m: Argo, reader: Reader, answer: Answer, now: nat, victim: string)
    requires Connected(m) && reader.client.Some?
    requires |Fresh(m.revisions, now)| >= REVISION_CACHE_CAP ==> victim in Fresh(m.revisions, now)
    ensures Connected(Stored(m, reader, answer, now, victim))
  {
    match reader.kind {
      case ManagedResources => ManagedKeeps(m, reader.client.value, reader.generation, reader.key, answer, now);
      case RevisionMetadata => RevisionKeeps(m, reader.client.value, reader.generation, reader.key, answer, now, victim);
      case ApplicationHealth => HealthKeeps(m, reader.client.value, reader.generation, reader.key, answer, now);
      case Repositories =>
    }
  }

  // ---------------------------------------------------------------- steps

  lemma {:induction false} ProbingKeepsConnection(s: System, step: Step)
    requires Connected(s.m) && Enabled(s, step) && (Preparing(step) || Resolving(step))
    ensures Connected(Next(s, step).m)
  {
    if Preparing(step) {
      var t := Prepared(s, step);
    } else {
      var t := Resolved(s, step);
    }
  }

  lemma {:induction false} ConcludingKeepsConnection(s: System, step: Step)
    requires Connected(s.m) && ProbeInv(s) && Enabled(s, step) && Concluding(step)
    ensures Connected(Concluded(s, step).m)
  {
    if step.Commit? {
      CommitKeeps(s.m, s.probe.snap, s.probe.address, s.probe.tunnel,
                  s.probe.tunnel.Some? && Exited(s, s.probe.tunnel.value), s.nextClient);
    }
  }

  lemma {:induction false} ConnectionStep(s: System, step: Step)
    requires Connected(s.m) && ProbeInv(s) && Enabled(s, step)
    ensures Connected(Next(s, step).m)
  {
    if Preparing(step) || Resolving(step) {
      ProbingKeepsConnection(s, step);
    } else if Concluding(step) {
      ConcludingKeepsConnection(s, step);
    } else if step.EndRead? {
      StoredKeeps(s.m, s.readers[step.reader], step.answer, step.now, step.victim);
    } else if Reading(step) {
      var t := Read(s, step);
    } else if step.ChangeSettings? {
      ChangeKeeps(s.m, step.change);
    } else {
      var t := Moved(s, step);
    }
  }

  lemma {:induction false} IdentityConcluding(s: System, step: Step)
    requires Sound(s.m) && Identified(s) && Enabled(s, step) && Concluding(step)
    ensures Identified(Concluded(s, step))
  {
  }

  lemma {:induction false} IdentityWhileReading(s: System, step: Step)
    requires Sound(s.m) && Identified(s) && Enabled(s, step) && Reading(step)
    ensures Identified(Read(s, step))
  {
  }

  lemma {:induction false} IdentityStep(s: System, step: Step)
    requires Sound(s.m) && Identified(s) && Enabled(s, step)
    ensures Identified(Next(s, step))
  {
    if Preparing(step) {
      var t := Prepared(s, step);
    } else if Resolving(step) {
      var t := Resolved(s, step);
    } else if Concluding(step) {
      IdentityConcluding(s, step);
    } else if Reading(step) {
      IdentityWhileReading(s, step);
    } else {
      var t := Moved(s, step);
    }
  }

  lemma {:induction false} ProbePreparing(s: System, step: Step)
    requires Sound(s.m) && ProbeInv(s) && Enabled(s, step) && Preparing(step)
    ensures ProbeInv(Prepared(s, step))
  {
  }

  lemma {:induction false} ProbeResolving(s: System, step: Step)
    requires Sound(s.m) && ProbeInv(s) && Enabled(s, step) && Resolving(step)
    ensures ProbeInv(Resolved(s, step))
  {
    match step {
      case FindAddress(url) =>
      case ForwardAnswers(url) =>
      case BaseSlow(accepts) =>
      case _ =>
    }
  }

  lemma {:induction false} ProbeElsewhere(s: System, step: Step)
    requires Sound(s.m) && ProbeInv(s) && Enabled(s, step) && (Reading(step) || Environmental(step))
    ensures ProbeInv(Next(s, step))
  {
    if Reading(step) {
      var t := Read(s, step);
    } else {
      var t := Moved(s, step);
    }
  }

  lemma {:induction false} ProbeStep(s: System, step: Step)
    requires Sound(s.m) && ProbeInv(s) && Enabled(s, step)
    ensures ProbeInv(Next(s, step))
  {
    if Preparing(step) {
      ProbePreparing(s, step);
    } else if Resolving(step) {
      ProbeResolving(s, step);
    } else if Concluding(step) {
      var t := Concluded(s, step);
    } else {
      ProbeElsewhere(s, step);
    }
  }

  lemma {:induction false} SourcePreparing(s: System, step: Step)
    requires Sound(s.m) && ProbeInv(s) && SourceInv(s) && Enabled(s, step) && Preparing(step)
    ensures SourceInv(Prepared(s, step))
  {
  }

  lemma {:induction false} SourceFinding(s: System, step: Step)
    requires Sound(s.m) && ProbeInv(s) && SourceInv(s) && Enabled(s, step) && (step.FindAddress? || step.ForwardAnswers?)
    ensures SourceInv(Resolved(s, step))
  {
  }

  lemma {:induction false} SourceResolving(s: System, step: Step)
    requires Sound(s.m) && ProbeInv(s) && SourceInv(s) && Enabled(s, step) && Resolving(step)
    ensures SourceInv(Resolved(s, step))
  {
    match step {
      case FindAddress(url) => SourceFinding(s, step);
      case ForwardAnswers(url) => SourceFinding(s, step);
      case BaseSlow(accepts) =>
      case _ =>
    }
  }

  lemma {:induction false} SourceConcluding(s: System, step: Step)
    requires Sound(s.m) && ProbeInv(s) && SourceInv(s) && Enabled(s, step) && Concluding(step)
    ensures SourceInv(Concluded(s, step))
  {
  }

  lemma {:induction false} SourceMoved(s: System, step: Step)
    requires Sound(s.m) && SourceInv(s) && Enabled(s, step) && Environmental(step)
    ensures SourceInv(Moved(s, step))
  {
  }

  lemma {:induction false} SourceStep(s: System, step: Step)
    requires Sound(s.m) && ProbeInv(s) && SourceInv(s) && Enabled(s, step)
    ensures SourceInv(Next(s, step))
  {
    if Preparing(step) {
      SourcePreparing(s, step);
    } else if Resolving(step) {
      SourceResolving(s, step);
    } else if Concluding(step) {
      SourceConcluding(s, step);
    } else if Reading(step) {
      var t := Read(s, step);
    } else {
      SourceMoved(s, step);
    }
  }

  lemma {:induction false} ForwardStarts(s: System)
    requires ForwardInv(s) && Enabled(s, StartForward)
    ensures ForwardInv(Resolved(s, StartForward))
  {
  }

  lemma {:induction false} ForwardGone(s: System)
    requires ForwardInv(s) && s.probe.Confirming?
    ensures ForwardInv(GoneBase(s))
  {
  }

  lemma {:induction false} ForwardGivenUp(s: System, step: Step)
    requires ForwardInv(s) && Enabled(s, step) && (step.ForwardSilent? || step.CheckToken?)
    ensures ForwardInv(Resolved(s, step))
  {
  }

  lemma {:induction false} ForwardResolving(s: System, step: Step)
    requires ForwardInv(s) && Enabled(s, step) && Resolving(step)
    ensures ForwardInv(Resolved(s, step))
  {
    match step {
      case StartForward => ForwardStarts(s);
      case ForwardSilent => ForwardGivenUp(s, step);
      case CheckToken(result) => ForwardGivenUp(s, step);
      case BaseSlow(accepts) => ForwardGone(s);
      case BaseGone => ForwardGone(s);
      case _ =>
    }
  }

  lemma {:induction false} ForwardConcluding(s: System, step: Step)
    requires Sound(s.m) && ForwardInv(s) && Enabled(s, step) && Concluding(step)
    ensures ForwardInv(Concluded(s, step))
  {
  }

  lemma {:induction false} ForwardMoved(s: System, step: Step)
    requires ForwardInv(s) && Enabled(s, step) && Environmental(step)
    ensures ForwardInv(Moved(s, step))
  {
    match step {
      case ChangeSettings(change) =>
      case WatcherDrops(f) =>
      case StopForward(f) =>
      case _ =>
    }
  }

  lemma {:induction false} ForwardStep(s: System, step: Step)
    requires Sound(s.m) && ForwardInv(s) && Enabled(s, step)
    ensures ForwardInv(Next(s, step))
  {
    if Preparing(step) {
      var t := Prepared(s, step);
    } else if Resolving(step) {
      ForwardResolving(s, step);
    } else if Concluding(step) {
      ForwardConcluding(s, step);
    } else if Reading(step) {
      var t := Read(s, step);
    } else {
      ForwardMoved(s, step);
    }
  }

  lemma {:induction false} InvariantStep(s: System, step: Step)
    requires Inv(s) && Enabled(s, step)
    ensures Inv(Next(s, step))
  {
    ConnectionStep(s, step);
    IdentityStep(s, step);
    ProbeStep(s, step);
    SourceStep(s, step);
    ForwardStep(s, step);
  }

  lemma {:induction false} InitialInvariant(binding: string)
    ensures Inv(Initial(binding))
  {
  }

  ghost predicate Leads(s: System, steps: seq<Step>, t: System)
    decreases |steps|
  {
    if steps == [] then s == t
    else Enabled(s, steps[0]) && Leads(Next(s, steps[0]), steps[1..], t)
  }

  ghost predicate Reachable(s: System) {
    exists binding, steps :: Leads(Initial(binding), steps, s)
  }

  lemma {:induction false} LeadsKeeps(s: System, steps: seq<Step>, t: System)
    requires Inv(s) && Leads(s, steps, t)
    ensures Inv(t)
    decreases |steps|
  {
    if steps != [] {
      InvariantStep(s, steps[0]);
      LeadsKeeps(Next(s, steps[0]), steps[1..], t);
    }
  }

  lemma {:induction false} ReachableInvariant(s: System)
    requires Reachable(s)
    ensures Inv(s)
  {
    var binding, steps :| Leads(Initial(binding), steps, s);
    InitialInvariant(binding);
    LeadsKeeps(Initial(binding), steps, s);
  }
}
