/** The promises of the Argo CD connection, for every run of the system, and the
    one interleaving in which a connection outlives its tunnel. */
module ArgoTheorems {
  import opened Wrappers
  import opened ArgoState
  import opened ArgoProtocol
  import opened ArgoInvariant

  /** An installed client talks to the recorded address with the token and TLS
      mode configured now, and a probe of the current generation resolved it. */
  lemma {:induction false} ConnectionMatchesSettings(s: System)
    requires Reachable(s) && s.m.client.Some?
    ensures var c := s.m.client.value;
            && s.m.base == Some(c.address)
            && c.token == s.m.config.token && c.insecureTLS == s.m.config.insecureTLS
            && c.generation == s.m.generation && c.address.generation == s.m.generation
            && (s.m.config.manualURL != "" ==> c.address.url == s.m.config.manualURL)
            && (s.m.config.manualURL == "" ==> !c.address.source.Given?)
  {
    ReachableInvariant(s);
  }

  /** A token check, pending or done, sends the snapshot's token only to an
      address resolved for a snapshot of the same generation, hence of the same settings: the
      configured URL, or a server found by a probe that read the token's own
      binding both before and after it captured the cluster. */
  lemma {:induction false} TokensFollowTheirSnapshot(s: System)
    requires Reachable(s) && HasAddress(s.probe) && s.probe.snap.config.token != ""
    ensures var (snap, address) := (s.probe.snap, s.probe.address);
            && address.generation == snap.generation
            && (snap.config.manualURL != "" ==> address.source.Given? && address.url == snap.config.manualURL)
            && (snap.config.manualURL == "" ==>
                  !address.source.Given? && SpanAllows(s.sources, snap.config, address.source.span))
    ensures s.probe.snap.generation == s.m.generation ==> s.probe.snap.config == s.m.config
  {
    ReachableInvariant(s);
  }

  /** The context left its source before the capture and came back after it. */
  predicate AwayAndBack(sources: seq<string>, span: Span)
    requires span.before < |sources| && span.cluster < |sources| && span.after < |sources|
  {
    span.before < span.cluster < span.after && sources[span.cluster] != sources[span.before] && sources[span.cluster] != sources[span.after]
  }

  lemma {:induction false} SpanVouchesIff(sources: seq<string>, config: Config, span: Span)
    requires SpanAllows(sources, config, span) && config.manualURL == "" && config.token != ""
    ensures sources[span.cluster] == config.tokenBinding <==> !AwayAndBack(sources, span)
  {
  }

  /** The token reaches a server of the cluster it is bound to if and only if the
      context did not leave and come back around the capture that found that
      server. It takes two switches between the two binding reads. */
  lemma {:induction false} TokenStaysHomeIff(s: System)
    requires Reachable(s) && HasAddress(s.probe) && s.probe.snap.config.token != "" && s.probe.snap.config.manualURL == ""
    ensures !s.probe.address.source.Given?
    ensures var (config, span) := (s.probe.snap.config, s.probe.address.source.span);
            && span.before <= span.cluster <= span.after < |s.sources|
            && (s.sources[span.cluster] == config.tokenBinding <==> !AwayAndBack(s.sources, span))
            && (span.after <= span.before + 1 ==> s.sources[span.cluster] == config.tokenBinding)
  {
    ReachableInvariant(s);
    SpanVouchesIff(s.sources, s.probe.snap.config, s.probe.address.source.span);
  }

  /** So does the token of an installed client. */
  lemma {:induction false} InstalledTokenStaysHomeIff(s: System)
    requires Reachable(s) && s.m.client.Some? && s.m.config.token != "" && s.m.config.manualURL == ""
    ensures !s.m.client.value.address.source.Given?
    ensures var (config, span) := (s.m.config, s.m.client.value.address.source.span);
            && s.m.client.value.token == config.token
            && span.before <= span.cluster <= span.after < |s.sources|
            && (s.sources[span.cluster] == config.tokenBinding <==> !AwayAndBack(s.sources, span))
  {
    ReachableInvariant(s);
    SpanVouchesIff(s.sources, s.m.config, s.m.client.value.address.source.span);
  }

  /** A probe whose settings were replaced while it ran changes nothing, and its
      forward goes to be stopped. */
  lemma {:induction false} StaleProbesAreDiscarded(s: System)
    requires Reachable(s) && s.probe.Verified? && Enabled(s, Commit)
    requires s.m.generation != s.probe.snap.generation
    ensures Next(s, Commit).m == s.m && Next(s, Commit).hands == s.hands + Held(s.probe)
  {
  }

  /** Every started forward is in exactly one place. */
  lemma {:induction false} ForwardsAreConserved(s: System, f: nat)
    requires Reachable(s) && f in s.watchers
    ensures f in Installed(s.m) || f in Held(s.probe) || f in s.hands || f in s.stopped
    ensures f in Installed(s.m) ==> f !in Held(s.probe) && f !in s.hands && f !in s.stopped
    ensures f in Held(s.probe) ==> f !in s.hands && f !in s.stopped
    ensures f in s.hands ==> f !in s.stopped
  {
    ReachableInvariant(s);
  }

  /** An installed forward whose tunnel is down still has a watcher that has not
      run its drop. */
  lemma {:induction false} DeadForwardsAreNoticed(s: System)
    requires Reachable(s) && s.m.forward.Some?
    ensures s.m.client.Some? && s.m.forward.value in s.watchers
    ensures !s.watchers[s.m.forward.value].Watching? ==> s.watchers[s.m.forward.value].Ended? || s.watchers[s.m.forward.value].Marked?
  {
    ReachableInvariant(s);
  }

  /** And that drop takes the whole connection down and leaves the forward to be stopped. */
  lemma {:induction false} WatcherDropsItsConnection(s: System)
    requires Reachable(s) && s.m.forward.Some? && Enabled(s, WatcherDrops(s.m.forward.value))
    ensures Next(s, WatcherDrops(s.m.forward.value)).m == Dropped(s.m)
    ensures s.m.forward.value in Next(s, WatcherDrops(s.m.forward.value)).hands
  {
  }

  /** Cached diffs and revisions came through the client installed now, cached
      health and repositories under the current generation; without a client
      nothing is cached. */
  lemma {:induction false} CachesBelongToTheConnection(s: System)
    requires Reachable(s)
    ensures forall k :: k in s.m.cache ==> Current(s.m, s.m.cache[k].client, s.m.cache[k].generation)
    ensures forall k :: k in s.m.revisions ==> Current(s.m, s.m.revisions[k].client, s.m.revisions[k].generation)
    ensures forall k :: k in s.m.health ==> s.m.client.Some? && s.m.health[k].generation == s.m.generation
    ensures s.m.repositories.Some? ==> s.m.client.Some? && s.m.repositories.value.generation == s.m.generation
    ensures |s.m.revisions| <= REVISION_CACHE_CAP
  {
    ReachableInvariant(s);
  }

  /** A client without a token is handed out only once a read has succeeded
      through that very client. */
  lemma {:induction false} AnonymousClientsHaveAnswered(s: System)
    requires Reachable(s) && Get(s.m).Some?
    ensures Get(s.m) == s.m.client
    ensures Get(s.m).value.token == "" ==> Get(s.m).value.id in s.answered
  {
    ReachableInvariant(s);
  }

  // ---------------------------------------------------------------- tunnels and addresses

  /** A connection to the local end of a forward owns that forward. */
  predicate Backed(m: Argo) {
    m.client.Some? && m.client.value.address.source.Forwarded? ==> m.forward == Some(m.client.value.address.source.forward)
  }

  lemma {:induction false} ProbingKeepsBacking(s: System, step: Step)
    requires Enabled(s, step) && (Preparing(step) || Resolving(step)) && Sound(s.m) && Backed(s.m)
    ensures Backed(Next(s, step).m)
  {
    if Preparing(step) {
      var t := Prepared(s, step);
    } else {
      var t := Resolved(s, step);
    }
  }

  /** Every other step keeps that. */
  lemma {:induction false} OtherStepsKeepBacking(s: System, step: Step)
    requires Enabled(s, step) && !step.Commit? && Sound(s.m) && Backed(s.m)
    ensures Backed(Next(s, step).m)
  {
    if Preparing(step) || Resolving(step) {
      ProbingKeepsBacking(s, step);
    } else if Reading(step) {
      var t := Read(s, step);
    } else if Environmental(step) {
      var t := Moved(s, step);
    }
  }

  /** A commit keeps it unless the probe had confirmed the forwarded address in
      place, opening no forward of its own, and that connection was dropped
      before the commit. */
  lemma {:induction false} CommitKeepsBacking(s: System)
    requires Inv(s) && Backed(s.m) && Enabled(s, Commit)
    ensures Backed(Next(s, Commit).m) <==>
            !(Outcome(s).committed && s.probe.tunnel.None? && s.probe.address.source.Forwarded? && s.m.Moves(s.probe.address))
  {
  }

  lemma {:induction false} LeadsOn(s: System, steps: seq<Step>, t: System, step: Step)
    requires Leads(s, steps, t) && Enabled(t, step)
    ensures Leads(s, steps + [step], Next(t, step))
    decreases |steps|
  {
    if steps == [] {
      assert [step][1..] == [];
      assert steps + [step] == [step];
    } else {
      assert (steps + [step])[1..] == steps[1..] + [step];
      LeadsOn(Next(s, steps[0]), steps[1..], t, step);
    }
  }

  lemma {:induction false} Reaches(s: System, step: Step)
    requires Reachable(s) && Enabled(s, step)
    ensures Reachable(Next(s, step))
  {
    var binding, steps :| Leads(Initial(binding), steps, s);
    LeadsOn(Initial(binding), steps, s, step);
  }

  const SETTINGS := Config("", "token", false, "context", "source")
  const SNAPSHOT := Snapshot(1, SETTINGS, 0, 0)
  const TUNNEL := Address("https://localhost:8443", Forwarded(0, Span(0, 0, 0)), 1)

  /** A probe that has captured its settings and read the recorded address. */
  lemma {:induction false} ProbeBegins(s: System) returns (t: System)
    requires Reachable(s) && s.probe.NoProbe? && s.sources == ["source"]
    requires s.m.seeded && s.m.config == SETTINGS && s.m.generation == 1
    ensures Reachable(t) && t == s.(probe := t.probe)
    ensures t.probe == if s.m.base.Some? then Confirming(SNAPSHOT, 0, s.m.base.value, s.m.forward.Some?) else Searching(SNAPSHOT, 0)
  {
    Reaches(s, Acquire);
    var s1 := Next(s, Acquire);
    Reaches(s1, Capture(SETTINGS));
    var s2 := Next(s1, Capture(SETTINGS));
    Reaches(s2, CheckBinding);
    var s3 := Next(s2, CheckBinding);
    Reaches(s3, ReadBase);
    t := Next(s3, ReadBase);
  }

  /** A connection through a fresh forward. */
  lemma {:induction false} ConnectedThroughAForward() returns (t: System)
    ensures Reachable(t) && t.probe.NoProbe? && t.sources == ["source"]
    ensures t.m.seeded && t.m.config == SETTINGS && t.m.generation == 1
    ensures t.m.base == Some(TUNNEL) && t.m.forward == Some(0) && t.watchers == map[0 := Watching]
  {
    var s := Initial("source");
    assert Leads(s, [], s);
    var change := SetConfig("", "token", false, true, "context", "source");
    Reaches(s, ChangeSettings(change));
    var s1 := ProbeBegins(Next(s, ChangeSettings(change)));
    t := ForwardOpens(s1);
  }

  lemma {:induction false} ForwardOpens(s1: System) returns (t: System)
    requires Reachable(s1) && s1.probe == Searching(SNAPSHOT, 0) && s1.sources == ["source"]
    requires s1.m == Initial("source").m.(seeded := true, config := SETTINGS, generation := 1)
    requires s1.nextForward == 0 && s1.watchers == map[]
    ensures Reachable(t) && t.probe.NoProbe? && t.sources == ["source"]
    ensures t.m.seeded && t.m.config == SETTINGS && t.m.generation == 1
    ensures t.m.base == Some(TUNNEL) && t.m.forward == Some(0) && t.watchers == map[0 := Watching]
  {
    Reaches(s1, StartForward);
    var s2 := Next(s1, StartForward);
    Reaches(s2, ForwardAnswers(TUNNEL.url));
    var s3 := Next(s2, ForwardAnswers(TUNNEL.url));
    t := FirstCommit(s3);
  }

  lemma {:induction false} FirstCommit(s3: System) returns (t: System)
    requires Reachable(s3) && s3.probe == Verifying(SNAPSHOT, 0, TUNNEL, Some(0)) && s3.sources == ["source"]
    requires s3.m == Initial("source").m.(seeded := true, config := SETTINGS, generation := 1)
    requires s3.watchers == map[0 := Watching]
    ensures Reachable(t) && t.probe.NoProbe? && t.sources == ["source"]
    ensures t.m.seeded && t.m.config == SETTINGS && t.m.generation == 1
    ensures t.m.base == Some(TUNNEL) && t.m.forward == Some(0) && t.watchers == map[0 := Watching]
  {
    Reaches(s3, CheckToken(Accepted));
    var s4 := Next(s3, CheckToken(Accepted));
    Reaches(s4, Commit);
    t := Next(s4, Commit);
  }

  lemma {:induction false} TunnelEnded(s: System) returns (t: System)
    requires Reachable(s) && s.sources != [] && s.watchers == map[0 := Watching]
    ensures Reachable(t) && t == s.(watchers := map[0 := Marked])
  {
    Reaches(s, TunnelEnds(0));
    var s1 := Next(s, TunnelEnds(0));
    Reaches(s1, MarkExited(0));
    t := Next(s1, MarkExited(0));
  }

  lemma {:induction false} TunnelDies(s: System) returns (t: System)
    requires Reachable(s) && s.sources == ["source"] && s.m.forward == Some(0) && s.watchers == map[0 := Watching]
    ensures Reachable(t) && t == s.(m := Dropped(s.m), watchers := map[0 := Gone], hands := t.hands)
  {
    var s2 := TunnelEnded(s);
    Reaches(s2, WatcherDrops(0));
    t := Next(s2, WatcherDrops(0));
  }

  /** The interleaving that breaks it: a re-check confirms the forwarded address,
      the tunnel dies and its watcher drops the connection, and the commit puts
      the address back. The client then talks to a dead local port and nobody
      is left to notice. */
  lemma {:induction false} DeadTunnelIsReconnected() returns (t: System)
    ensures Reachable(t) && t.m.client.Some? && t.m.client.value.address == TUNNEL
    ensures t.m.forward.None? && t.watchers == map[0 := Gone]
  {
    var s := ConnectedThroughAForward();
    var s1 := ProbeBegins(s);
    Reaches(s1, BaseAnswers);
    var s2 := Next(s1, BaseAnswers);
    Reaches(s2, CheckToken(Accepted));
    var s3 := TunnelDies(Next(s2, CheckToken(Accepted)));
    Reaches(s3, Commit);
    t := Next(s3, Commit);
  }

  /** A context switch, and the reset that every switch brings about. */
  lemma {:induction false} SwitchesAway(s: System, binding: string) returns (t: System)
    requires Reachable(s) && s.m.client.None? && s.m.forward.None? && s.sources != []
    ensures Reachable(t)
    ensures t == s.(m := Bumped(s.m), sources := s.sources + [binding], hands := t.hands)
  {
    Reaches(s, SwitchContext(binding));
    var s1 := Next(s, SwitchContext(binding));
    Reaches(s1, ChangeSettings(Reset));
    t := Next(s1, ChangeSettings(Reset));
  }

  /** A probe that reads its binding, captures the other cluster in between, and
      reads the same binding again. */
  lemma {:induction false} CapturesTheOther(s: System) returns (t: System)
    requires Reachable(s) && s.probe.NoProbe? && s.sources == ["source"] && s.m.seeded && s.m.config == SETTINGS && s.m.generation == 1
    requires s.m.client.None? && s.m.forward.None?
    ensures Reachable(t) && t.sources == ["source", "other", "source"]
    ensures t.probe == Captured(Snapshot(2, SETTINGS, 0, 1)) && t.m.base.None?
  {
    Reaches(s, Acquire);
    var s1 := Next(s, Acquire);
    var s2 := SwitchesAway(s1, "other");
    Reaches(s2, Capture(SETTINGS));
    var s3 := Next(s2, Capture(SETTINGS));
    t := SwitchesAway(s3, "source");
  }

  /** The interleaving in which the two binding reads do not protect the token:
      the context goes to another cluster and comes back around the capture,
      each switch resetting the connection, and the token bound to the one
      cluster is sent to a server of the other. */
  lemma {:induction false} TokenReachesAnotherCluster() returns (t: System)
    ensures Reachable(t) && t.probe.Verifying? && t.probe.snap.config == SETTINGS && !t.probe.address.source.Given?
    ensures var span := t.probe.address.source.span;
            span.cluster < |t.sources| && t.sources[span.cluster] == "other" && SETTINGS.tokenBinding == "source"
  {
    var s := Initial("source");
    assert Leads(s, [], s);
    var change := SetConfig("", "token", false, true, "context", "source");
    Reaches(s, ChangeSettings(change));
    var s1 := CapturesTheOther(Next(s, ChangeSettings(change)));
    t := ServerFound(s1);
  }

  lemma {:induction false} ServerFound(s: System) returns (t: System)
    requires Reachable(s) && s.probe == Captured(Snapshot(2, SETTINGS, 0, 1)) && s.sources == ["source", "other", "source"] && s.m.base.None?
    ensures Reachable(t) && t.sources == s.sources && t.probe.Verifying? && t.probe.snap.config == SETTINGS
    ensures t.probe.address.source == Discovered(Span(0, 1, 2))
  {
    Reaches(s, CheckBinding);
    var s1 := Next(s, CheckBinding);
    Reaches(s1, ReadBase);
    var s2 := Next(s1, ReadBase);
    Reaches(s2, FindAddress("https://argocd-server"));
    t := Next(s2, FindAddress("https://argocd-server"));
  }
}
