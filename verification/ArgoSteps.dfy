/** What each step of the Argo CD connection does, said of settings, tokens and
    addresses directly: which settings a change leaves, when a probe may go on,
    what a slow server costs, and what becomes of an answer. */
module ArgoSteps {
  import opened Wrappers
  import opened ArgoState
  import opened ArgoProtocol

  /** Nothing is left of the connection, and its forward is about to be stopped. */
  ghost predicate Disconnects(s: System, t: System) {
    && t.m.base == None && t.m.client == None && t.m.forward == None && !t.m.anonymous && t.m.anonymousRead == ReadUnknown
    && t.m.cache == map[] && t.m.revisions == map[] && t.m.health == map[] && t.m.repositories == None
    && t.hands == s.hands + if s.m.forward.Some? then {s.m.forward.value} else {}
  }

  predicate SameConnection(m: Argo, n: Argo) {
    && n.base == m.base && n.client == m.client && n.forward == m.forward && n.anonymous == m.anonymous
    && n.config == m.config && n.generation == m.generation && n.seeded == m.seeded
  }

  // ---------------------------------------------------------------- settings

  /** A token is bound to a source only where it is entered afresh and there is
      no URL to send it to. */
  predicate BoundAfresh(config: Config, url: string, token: string, context: string, binding: string) {
    if url == "" && token != "" && binding != "" then config.tokenBinding == binding && config.tokenContext == context
    else config.tokenBinding == "" && config.tokenContext == ""
  }

  predicate Takes(config: Config, url: string, token: string, insecureTLS: bool) {
    config.manualURL == url && config.token == token && config.insecureTLS == insecureTLS
  }

  /** Every change disconnects and opens a new generation; a carried-over token
      keeps its binding, a fresh one is bound anew, a restored one is bound as
      it was. */
  lemma {:induction false} SettingsBecome(s: System, change: Change)
    requires Enabled(s, ChangeSettings(change))
    ensures var t := Next(s, ChangeSettings(change));
            && Disconnects(s, t) && t.m.generation == s.m.generation + 1 && t.probe == s.probe
            && match change
               case SetConfig(url, token, tls, isFresh, context, binding) =>
                 && t.m.seeded && Takes(t.m.config, url, token, tls)
                 && if isFresh then BoundAfresh(t.m.config, url, token, context, binding)
                    else t.m.config.tokenBinding == s.m.config.tokenBinding && t.m.config.tokenContext == s.m.config.tokenContext
               case SeedFromEnv(url, token, tls, context, binding) =>
                 t.m.seeded && Takes(t.m.config, url, token, tls) && BoundAfresh(t.m.config, url, token, context, binding)
               case SeedFromEnvFailed => t.m.seeded && Takes(t.m.config, "", "", false) && BoundAfresh(t.m.config, "", "", "", "")
               case RestoreConfig(url, token, tls, context, binding) =>
                 t.m.seeded && Takes(t.m.config, url, token, tls) && t.m.config.tokenBinding == binding && t.m.config.tokenContext == context
               case Reset => t.m.seeded == s.m.seeded && t.m.config == s.m.config
  {
  }

  // ---------------------------------------------------------------- a probe

  /** A probe captures the settings in force, adopting the stored ones only if
      none were adopted before, and the cluster of that moment. */
  lemma {:induction false} ProbeCaptures(s: System, stored: Config)
    requires Enabled(s, Capture(stored))
    ensures var t := Next(s, Capture(stored));
            && t.m == s.m.(seeded := true, config := if s.m.seeded then s.m.config else stored)
            && t.probe == Captured(Snapshot(s.m.generation, t.m.config, s.probe.before, |s.sources| - 1))
  {
  }

  /** It goes on unless it would search with a token that is not bound to the
      source it found both before and after the capture. */
  lemma {:induction false} ProbeGoesOnIff(s: System)
    requires Enabled(s, CheckBinding)
    ensures var (t, snap) := (Next(s, CheckBinding), s.probe.snap);
            var (before, after) := (s.sources[snap.before], s.sources[|s.sources| - 1]);
            && t.m == s.m
            && (t.probe == Allowed(snap, |s.sources| - 1) <==>
                  snap.config.manualURL != "" || snap.config.token == "" ||
                  (before == after && after == snap.config.tokenBinding && snap.config.tokenBinding != ""))
            && (t.probe == Allowed(snap, |s.sources| - 1) || t.probe == NoProbe)
  {
  }

  /** A server that is merely slow keeps its connection: found anew if it is
      reached through a forward, left alone if it still takes connections. */
  lemma {:induction false} SlowServerStays(s: System, accepts: bool)
    requires Enabled(s, BaseSlow(accepts))
    ensures var (t, p) := (Next(s, BaseSlow(accepts)), s.probe);
            if p.forwarded && p.snap.config.manualURL == "" then t == s.(probe := Searching(p.snap, p.after))
            else if !p.forwarded && accepts then t == s.(probe := NoProbe)
            else t == Next(s, BaseGone)
  {
  }

  /** One that is gone loses it, unless another address took its place, and is
      searched for. */
  lemma {:induction false} GoneServerIsDropped(s: System)
    requires Enabled(s, BaseGone)
    ensures var t := Next(s, BaseGone);
            && t.probe == Searching(s.probe.snap, s.probe.after)
            && if s.m.base.Some? && s.m.base.value.url == s.probe.base.url then Disconnects(s, t) else t.m == s.m && t.hands == s.hands
  {
  }

  /** One that answers is checked where it is, through the forward it has. */
  lemma {:induction false} AnsweringServerIsChecked(s: System)
    requires Enabled(s, BaseAnswers)
    ensures Next(s, BaseAnswers) == s.(probe := Verifying(s.probe.snap, s.probe.after, s.probe.base, None))
  {
  }

  /** A refused token disconnects, unless the settings changed meanwhile, or the
      server was slow and there is a connection to keep. */
  lemma {:induction false} RefusalDisconnectsIff(s: System)
    requires Enabled(s, HandleRefusal)
    ensures var t := Next(s, HandleRefusal);
            && t.probe == NoProbe
            && if s.m.generation == s.probe.snap.generation && (s.probe.result != TooSlow || s.m.client == None) then Disconnects(s, t)
               else t.m == s.m && t.hands == s.hands
  {
  }

  /** A verified address is connected if and only if the settings are the
      probe's and its tunnel, if it opened one, is not known to be down. A new
      address replaces forward, client and caches; a known one keeps them, and a
      client is only made where there is none. */
  lemma {:induction false} VerifiedIsConnectedIff(s: System)
    requires Enabled(s, Commit)
    ensures var (t, p) := (Next(s, Commit), s.probe);
            var alive := p.tunnel == None || !(p.tunnel.value in s.watchers && s.watchers[p.tunnel.value] in {Marked, Gone});
            var tunnel := if p.tunnel.Some? then {p.tunnel.value} else {};
            var fresh_ := Client(s.nextClient, p.address, p.snap.config.token, p.snap.config.insecureTLS, p.snap.generation);
            && t.probe == NoProbe
            && if s.m.generation != p.snap.generation || !alive then t.m == s.m && t.hands == s.hands + tunnel
               else
                 && t.m.config == s.m.config && t.m.generation == s.m.generation
                 && (forall k :: k in t.m.health <==> k in s.m.health && !s.m.health[k].transportFailure)
                 && (forall k :: k in t.m.health ==> t.m.health[k] == s.m.health[k])
                 && if s.m.base.None? || s.m.base.value.url != p.address.url then
                      && t.m.base == Some(p.address) && t.m.client == Some(fresh_) && t.m.forward == p.tunnel
                      && t.m.anonymous == (fresh_.token == "") && t.m.anonymousRead == ReadUnknown
                      && t.m.cache == map[] && t.m.revisions == map[]
                      && t.hands == s.hands + if s.m.forward.Some? then {s.m.forward.value} else {}
                    else
                      && t.m.base == s.m.base && t.m.forward == s.m.forward && t.hands == s.hands + tunnel
                      && t.m.client == (if s.m.client.Some? then s.m.client else Some(fresh_))
                      && t.m.cache == s.m.cache && t.m.revisions == s.m.revisions && t.m.anonymousRead == s.m.anonymousRead
  {
  }

  // ---------------------------------------------------------------- tunnels

  /** The watcher of a dead tunnel disconnects if and only if its forward is the
      one installed. */
  lemma {:induction false} WatcherDisconnectsIff(s: System, f: nat)
    requires Enabled(s, WatcherDrops(f))
    ensures var t := Next(s, WatcherDrops(f));
            && t.watchers == s.watchers[f := Gone] && t.probe == s.probe
            && if s.m.forward == Some(f) then Disconnects(s, t) else t.m == s.m && t.hands == s.hands
  {
  }

  // ---------------------------------------------------------------- answers

  predicate Swept(before: map<string, Cached>, after: map<string, Cached>, key: string, now: nat) {
    forall k :: k != key ==> (k in after ==> k in before && now <= before[k].expires && after[k] == before[k])
  }

  /** The answer to a read that went through the client in place, under the
      generation in force, is cached; any other is thrown away. */
  predicate InPlace(m: Argo, reader: Reader) {
    m.generation == reader.generation && m.client.Some? && reader.client == Some(m.client.value.id)
  }

  lemma {:induction false} AnswerIsKeptIff(s: System, r: nat, answer: Answer, now: nat, victim: string)
    requires Enabled(s, EndRead(r, answer, now, victim))
    ensures var (t, reader) := (Next(s, EndRead(r, answer, now, victim)), s.readers[r]);
            var kept := InPlace(s.m, reader);
            && SameConnection(s.m, t.m) && t.readers == s.readers - {r}
            && (forall c :: c in t.answered <==> c in s.answered || (answer == Answered && reader.client == Some(c)))
            && (reader.kind == ManagedResources ==>
                  if kept && answer == Answered
                  then reader.key in t.m.cache && t.m.cache[reader.key].expires == now + 15 && Swept(s.m.cache, t.m.cache, reader.key, now)
                  else t.m == s.m)
            && (reader.kind == RevisionMetadata ==>
                  if kept && answer == Answered
                  then reader.key in t.m.revisions && t.m.revisions[reader.key].expires == now + 300 && Swept(s.m.revisions, t.m.revisions, reader.key, now)
                  else t.m == s.m)
            && (reader.kind == Repositories ==>
                  if kept && answer == Answered then t.m == s.m.(repositories := t.m.repositories) && t.m.repositories.Some? else t.m == s.m)
            && (reader.kind == ApplicationHealth ==>
                  if kept && answer != Canceled
                  then reader.key in t.m.health && t.m.health[reader.key].transportFailure == (answer == TransportFailure)
                  else t.m == s.m)
  {
  }

  /** A health read through a tokenless client settles whether anonymous reads
      are served: yes if it was answered, no if it was refused. */
  lemma {:induction false} HealthSettlesAnonymity(s: System, r: nat, answer: Answer, now: nat, victim: string)
    requires Enabled(s, EndRead(r, answer, now, victim)) && s.readers[r].kind == ApplicationHealth
    ensures var t := Next(s, EndRead(r, answer, now, victim));
            t.m.anonymousRead ==
            if InPlace(s.m, s.readers[r]) && s.m.anonymous && answer == Answered then ReadAllowed
            else if InPlace(s.m, s.readers[r]) && s.m.anonymous && answer == Unauthorized then ReadRefused
            else s.m.anonymousRead
  {
  }

  /** A client is handed out unless it is tokenless and no read was allowed. */
  lemma {:induction false} ClientIsHandedOutIff(m: Argo)
    ensures Get(m) == m.client <==> m.client == None || !m.anonymous || m.anonymousRead == ReadAllowed
    ensures Get(m) == m.client || Get(m) == None
  {
  }
}
