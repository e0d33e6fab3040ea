/** The Argo CD manager and its forwards as the objects the process keeps. Every
    method of the manager is one section under its mutex; a forward that a
    section frees is handed back to be stopped once the mutex is released. */
module ArgoObject {
  import opened Wrappers
  import opened ArgoState

  class Manager {
    var seeded: bool
    var config: Config
    var generation: nat
    var base: Option<Address>
    var client: Option<Client>
    var forward: Option<nat>
    var anonymous: bool
    var anonymousRead: AnonymousRead
    var cache: map<string, Cached>
    var revisions: map<string, Cached>
    var health: map<string, CachedHealth>
    var repositories: Option<Cached>
    var nextClient: nat

    ghost function State(): Argo
      reads this
    {
      Argo(seeded, config, generation, base, client, forward, anonymous, anonymousRead, cache, revisions, health, repositories)
    }

    constructor ()
      ensures !seeded && config == EMPTY_CONFIG && generation == 0 && State() == Dropped(State())
    {
      seeded, config, generation := false, EMPTY_CONFIG, 0;
      base, client, forward := None, None, None;
      anonymous, anonymousRead := false, ReadUnknown;
      cache, revisions, health, repositories := map[], map[], map[], None;
      nextClient := 0;
    }

    // -------------------------------------------------------------- settings

    method DropConnection() returns (freed: Option<nat>)
      modifies this
      ensures State() == Dropped(old(State())) && freed == old(forward) && nextClient == old(nextClient)
    {
      base := None;
      client := None;
      cache := map[];
      health := map[];
      revisions := map[];
      repositories := None;
      anonymous := false;
      anonymousRead := ReadUnknown;
      freed := forward;
      forward := None;
    }

    method BumpAndReset() returns (freed: Option<nat>)
      modifies this
      ensures State() == Bumped(old(State())) && freed == old(forward) && nextClient == old(nextClient)
    {
      generation := generation + 1;
      freed := DropConnection();
    }

    method EnsureSeeded(stored: Config)
      modifies this`seeded, this`config
      ensures State() == Seeded(old(State()), stored)
    {
      if !seeded {
        seeded := true;
        config := stored;
      }
    }

    /** A preserved token keeps its binding; only a fresh one is bound anew. */
    method ApplyConfig(url: string, token: string, insecureTLS: bool, isFresh: bool, currentContext: string, currentBinding: string)
      returns (freed: Option<nat>)
      modifies this
      ensures State() == Changed(old(State()), SetConfig(url, token, insecureTLS, isFresh, currentContext, currentBinding))
      ensures freed == old(forward)
    {
      var tokenContext, tokenBinding := "", "";
      if isFresh && url == "" && token != "" {
        tokenBinding := currentBinding;
        if tokenBinding != "" {
          tokenContext := currentContext;
        }
      }
      seeded := true;
      config := config.(manualURL := url, token := token, insecureTLS := insecureTLS);
      if isFresh {
        config := config.(tokenContext := tokenContext, tokenBinding := tokenBinding);
      }
      freed := BumpAndReset();
    }

    method Seed(url: string, token: string, insecureTLS: bool, currentContext: string, currentBinding: string)
      returns (freed: Option<nat>)
      modifies this
      ensures State() == Changed(old(State()), SeedFromEnv(url, token, insecureTLS, currentContext, currentBinding))
      ensures freed == old(forward)
    {
      var tokenContext, tokenBinding := "", "";
      if url == "" && token != "" {
        tokenBinding := currentBinding;
        if tokenBinding != "" {
          tokenContext := currentContext;
        }
      }
      seeded := true;
      config := Config(url, token, insecureTLS, tokenContext, tokenBinding);
      freed := BumpAndReset();
    }

    method SeedFailed() returns (freed: Option<nat>)
      modifies this
      ensures State() == Changed(old(State()), SeedFromEnvFailed) && freed == old(forward)
    {
      seeded := true;
      config := EMPTY_CONFIG;
      freed := BumpAndReset();
    }

    method Restore(url: string, token: string, insecureTLS: bool, tokenContext: string, tokenBinding: string)
      returns (freed: Option<nat>)
      modifies this
      ensures State() == Changed(old(State()), RestoreConfig(url, token, insecureTLS, tokenContext, tokenBinding))
      ensures freed == old(forward)
    {
      seeded := true;
      config := Config(url, token, insecureTLS, tokenContext, tokenBinding);
      freed := BumpAndReset();
    }

    // -------------------------------------------------------------- probes

    /** Drops the health answers that only said the server could not be reached. */
    method ForgetTransportFailures()
      modifies this`health
      ensures health == WithAnswers(old(health))
    {
      var left := health.Keys;
      while left != {}
        invariant left <= old(health).Keys
        invariant health == map k | k in old(health) && (k in left || !old(health)[k].transportFailure) :: old(health)[k]
        decreases left
      {
        var k :| k in left;
        left := left - {k};
        if health[k].transportFailure {
          health := health - {k};
        }
      }
    }

    method CommitProbe(snap: Snapshot, address: Address, tunnel: Option<nat>, exited: bool)
      returns (unused: Option<nat>, committed: bool)
      modifies this
      ensures var c := Committed(old(State()), snap, address, tunnel, exited, old(nextClient));
              State() == c.state && unused == c.unused && committed == c.committed
    {
      if generation != snap.generation {
        return tunnel, false;
      }
      if tunnel.Some? && exited {
        return tunnel, false;
      }
      unused := Install(snap, address, tunnel);
      ForgetTransportFailures();
      committed := true;
    }

    /** A new address brings its own forward and client; a confirmed one keeps both. */
    method Install(snap: Snapshot, address: Address, tunnel: Option<nat>) returns (unused: Option<nat>)
      modifies this`forward, this`base, this`cache, this`revisions, this`anonymousRead, this`client, this`anonymous, this`nextClient
      ensures old(State()).Moves(address) ==>
                unused == old(forward) && forward == tunnel && base == Some(address) &&
                cache == map[] && revisions == map[] && anonymousRead.ReadUnknown?
      ensures !old(State()).Moves(address) ==>
                unused == tunnel && forward == old(forward) && base == old(base) &&
                cache == old(cache) && revisions == old(revisions) && anonymousRead == old(anonymousRead)
      ensures if old(State()).Moves(address) || old(client).None?
              then client == Some(Client(old(nextClient), address, snap.config.token, snap.config.insecureTLS, snap.generation)) &&
                   anonymous == (snap.config.token == "")
              else client == old(client) && anonymous == old(anonymous)
    {
      var moves := base.None? || base.value.url != address.url;
      var newConnection := client.None? || moves;
      if moves {
        unused := forward;
        forward := tunnel;
        base := Some(address);
        cache := map[];
        revisions := map[];
        anonymousRead := ReadUnknown;
      } else {
        unused := tunnel;
      }
      if newConnection {
        client := Some(Client(nextClient, address, snap.config.token, snap.config.insecureTLS, snap.generation));
        anonymous := snap.config.token == "";
      }
      nextClient := nextClient + 1;
    }

    method RejectProbe(snap: Snapshot, result: AuthResult) returns (freed: Option<nat>)
      modifies this
      ensures State() == if RejectionDrops(old(State()), snap, result) then Dropped(old(State())) else old(State())
      ensures freed == if RejectionDrops(old(State()), snap, result) then old(forward) else None
    {
      freed := None;
      if generation == snap.generation && !(result.TooSlow? && client.Some?) {
        freed := DropConnection();
      }
    }

    /** The watcher's section, once the exit has been recorded. */
    method ForwardExited(f: nat) returns (freed: Option<nat>)
      modifies this
      ensures State() == if old(forward) == Some(f) then Dropped(old(State())) else old(State())
      ensures freed == if old(forward) == Some(f) then Some(f) else None
    {
      if forward != Some(f) {
        return None;
      }
      freed := DropConnection();
    }

    method LiveClient() returns (c: Option<Client>)
      ensures c == Get(State())
    {
      if client.None? {
        return None;
      }
      if anonymous && !anonymousRead.ReadAllowed? {
        return None;
      }
      return client;
    }

    // -------------------------------------------------------------- caches

    static method Sweep(entries: map<string, Cached>, now: nat) returns (kept: map<string, Cached>)
      ensures kept == Fresh(entries, now)
    {
      kept := entries;
      var left := entries.Keys;
      while left != {}
        invariant left <= entries.Keys
        invariant kept == map k | k in entries && (k in left || now <= entries[k].expires) :: entries[k]
        decreases left
      {
        var k :| k in left;
        left := left - {k};
        if now > kept[k].expires {
          kept := kept - {k};
        }
      }
    }

    method StoreManaged(through: nat, gen: nat, key: string, answer: Answer, now: nat)
      modifies this`cache
      ensures State() == ManagedStored(old(State()), through, gen, key, answer, now)
    {
      if !answer.Answered? {
        return;
      }
      if generation == gen && client.Some? && client.value.id == through {
        cache := Sweep(cache, now);
        cache := cache[key := Cached(through, gen, now + 15)];
      }
    }

    /** At the cap, whichever entry the map yields first makes room. */
    method StoreRevision(through: nat, gen: nat, key: string, answer: Answer, now: nat)
      modifies this`revisions
      ensures exists victim ::
                (|Fresh(old(revisions), now)| >= REVISION_CACHE_CAP ==> victim in Fresh(old(revisions), now)) &&
                State() == RevisionStored(old(State()), through, gen, key, answer, now, victim)
    {
      ghost var victim := "";
      if |Fresh(revisions, now)| >= REVISION_CACHE_CAP {
        victim :| victim in Fresh(revisions, now);
      }
      if !answer.Answered? || generation != gen || client.None? || client.value.id != through {
        assert State() == RevisionStored(old(State()), through, gen, key, answer, now, victim);
        return;
      }
      var kept := Sweep(revisions, now);
      if |kept| >= REVISION_CACHE_CAP {
        var k :| k in kept;
        victim := k;
        kept := kept - {k};
      }
      revisions := kept[key := Cached(through, gen, now + 300)];
      assert State() == RevisionStored(old(State()), through, gen, key, answer, now, victim);
    }

    static method SweepHealth(entries: map<string, CachedHealth>, now: nat) returns (kept: map<string, CachedHealth>)
      ensures kept == FreshHealth(entries, now)
    {
      kept := entries;
      var left := entries.Keys;
      while left != {}
        invariant left <= entries.Keys
        invariant kept == map k | k in entries && (k in left || now <= entries[k].expires) :: entries[k]
        decreases left
      {
        var k :| k in left;
        left := left - {k};
        if now > kept[k].expires {
          kept := kept - {k};
        }
      }
    }

    method StoreHealth(through: nat, gen: nat, key: string, answer: Answer, now: nat)
      modifies this`health, this`anonymousRead
      ensures State() == HealthStored(old(State()), through, gen, key, answer, now)
    {
      if generation != gen || client.None? || client.value.id != through || answer.Canceled? {
        return;
      }
      if anonymous {
        if answer.Answered? {
          anonymousRead := ReadAllowed;
        } else if answer.Unauthorized? {
          anonymousRead := ReadRefused;
        }
      }
      var kept := SweepHealth(health, now);
      health := kept[key := CachedHealth(through, gen, answer.TransportFailure?, now + 15)];
    }
  }

  // ---------------------------------------------------------------- discovery

  /** A server that may be there: its service address, whether a forward to it
      can be started, and where the forward's local end would be. */
  datatype Candidate = Candidate(url: string, startable: bool, local: string)

  class Forwards {
    var started: set<nat>
    var stopped: set<nat>
    var next: nat

    ghost predicate Valid()
      reads this
    {
      stopped <= started && forall f :: f in started ==> f < next
    }

    /** Forwards nobody has stopped yet. */
    ghost function Open(): set<nat>
      reads this
    {
      started - stopped
    }

    constructor ()
      ensures Valid() && Open() == {}
    {
      started, stopped, next := {}, {}, 0;
    }

    method Start() returns (f: nat)
      requires Valid()
      modifies this
      ensures Valid() && f !in old(started) && started == old(started) + {f} && Open() == old(Open()) + {f}
    {
      f := next;
      started := started + {f};
      next := next + 1;
    }

    /** Stopping twice is harmless. */
    method Stop(f: nat)
      requires Valid() && f in started
      modifies this
      ensures Valid() && started == old(started) && Open() == old(Open()) - {f}
    {
      stopped := stopped + {f};
    }
  }

  /** A forwarded candidate answers over one scheme or the other. */
  predicate Tunnels(c: Candidate, answers: string -> bool) {
    c.startable && (answers("https://" + c.local) || answers("http://" + c.local))
  }

  /** Tries the local end of a running forward, https before http. */
  method Connect(c: Candidate, answers: string -> bool) returns (connected: Option<string>)
    ensures connected == if answers("https://" + c.local) then Some("https://" + c.local)
                         else if answers("http://" + c.local) then Some("http://" + c.local)
                         else None
  {
    connected := None;
    if answers("https://" + c.local) {
      connected := Some("https://" + c.local);
    } else if answers("http://" + c.local) {
      connected := Some("http://" + c.local);
    }
  }

  /** Finds a reachable server: the first candidate that answers at its service
      address, or else, outside the cluster, the first that answers through a
      forward. Every forward it starts is stopped except the one it returns. */
  method Discover(cands: seq<Candidate>, answers: string -> bool, inCluster: bool, forwards: Forwards)
    returns (url: Option<string>, tunnel: Option<nat>)
    requires forwards.Valid()
    modifies forwards
    ensures forwards.Valid()
    ensures forwards.Open() == old(forwards.Open()) + (if tunnel.Some? then {tunnel.value} else {})
    ensures tunnel.Some? ==> tunnel.value !in old(forwards.started) && url.Some?
    // a service address is that of the first candidate that answers there
    ensures url.Some? && tunnel.None? ==>
              exists i :: 0 <= i < |cands| && url == Some(cands[i].url) && answers(cands[i].url) &&
                          forall j :: 0 <= j < i ==> !answers(cands[j].url)
    // a forward is that of the first candidate that tunnels, if none answers
    ensures tunnel.Some? ==>
              && !inCluster && (forall j :: 0 <= j < |cands| ==> !answers(cands[j].url))
              && exists i :: 0 <= i < |cands| && Tunnels(cands[i], answers) &&
                             (forall j :: 0 <= j < i ==> !Tunnels(cands[j], answers)) &&
                             url == Some((if answers("https://" + cands[i].local) then "https://" else "http://") + cands[i].local)
    ensures url.None? ==>
              && (forall j :: 0 <= j < |cands| ==> !answers(cands[j].url))
              && (inCluster || forall j :: 0 <= j < |cands| ==> !Tunnels(cands[j], answers))
  {
    var i := 0;
    while i < |cands|
      invariant 0 <= i <= |cands|
      invariant forall j :: 0 <= j < i ==> !answers(cands[j].url)
    {
      if answers(cands[i].url) {
        return Some(cands[i].url), None;
      }
      i := i + 1;
    }
    if inCluster {
      return None, None;
    }
    i := 0;
    while i < |cands|
      invariant 0 <= i <= |cands|
      invariant forwards.Valid() && forwards.Open() == old(forwards.Open()) && old(forwards.started) <= forwards.started
      invariant forall j :: 0 <= j < i ==> !Tunnels(cands[j], answers)
    {
      if cands[i].startable {
        var f := forwards.Start();
        var connected := Connect(cands[i], answers);
        if connected.Some? {
          return connected, Some(f);
        }
        forwards.Stop(f);
      }
      i := i + 1;
    }
    return None, None;
  }
}
