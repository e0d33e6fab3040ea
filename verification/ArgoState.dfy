/** The connection to Argo CD as a value, and what each critical section of the
    manager's mutex does to it. */
module ArgoState {
  import opened Wrappers

  datatype Config = Config(manualURL: string, token: string, insecureTLS: bool, tokenContext: string, tokenBinding: string)

  const EMPTY_CONFIG := Config("", "", false, "", "")

  /** When a probe captured what it uses, counted in context switches: the
      source binding was read `before`, the cluster's client was captured, and
      the binding was read again `after`. */
  datatype Span = Span(before: nat, cluster: nat, after: nat)

  /** Where an address comes from. A server that was found was found with the
      client of the cluster in `span`. */
  datatype Source = Given | Discovered(span: Span) | Forwarded(forward: nat, span: Span)

  /** `generation` is that of the snapshot the address was resolved for. */
  datatype Address = Address(url: string, source: Source, generation: nat)

  /** Clients are compared by identity; `generation` is that of the probe that
      resolved the address. */
  datatype Client = Client(id: nat, address: Address, token: string, insecureTLS: bool, generation: nat)

  datatype AnonymousRead = ReadUnknown | ReadAllowed | ReadRefused

  /** A cached answer, with the client and generation it was fetched under. */
  datatype Cached = Cached(client: nat, generation: nat, expires: nat)

  datatype CachedHealth = CachedHealth(client: nat, generation: nat, transportFailure: bool, expires: nat)

  const REVISION_CACHE_CAP: nat := 256

  datatype Argo = Argo(
    seeded: bool,
    config: Config,
    generation: nat,
    base: Option<Address>,
    client: Option<Client>,
    forward: Option<nat>,
    anonymous: bool,
    anonymousRead: AnonymousRead,
    cache: map<string, Cached>,
    revisions: map<string, Cached>,
    health: map<string, CachedHealth>,
    repositories: Option<Cached>)
  {
    predicate Moves(address: Address) { base.None? || base.value.url != address.url }
  }

  /** Immutable capture of what one probe uses, with the epochs of the first
      binding read and of the capture. */
  datatype Snapshot = Snapshot(generation: nat, config: Config, before: nat, cluster: nat)

  function Dropped(m: Argo): Argo {
    m.(base := None, client := None, forward := None, anonymous := false, anonymousRead := ReadUnknown,
       cache := map[], revisions := map[], health := map[], repositories := None)
  }

  /** Every change of the settings invalidates probes in flight and drops the connection. */
  function Bumped(m: Argo): Argo { Dropped(m.(generation := m.generation + 1)) }

  function Reconfigured(m: Argo, config: Config): Argo { Bumped(m.(seeded := true, config := config)) }

  /** Settings stored by an earlier run are loaded once, before anything uses them. */
  function Seeded(m: Argo, stored: Config): Argo {
    if m.seeded then m else m.(seeded := true, config := stored)
  }

  // ---------------------------------------------------------------- settings

  datatype Change =
    /** `stamp` is the current source's context name and binding. */
    | SetConfig(url: string, token: string, insecureTLS: bool, isFresh: bool, stampContext: string, stampBinding: string)
    | SeedFromEnv(url: string, token: string, insecureTLS: bool, stampContext: string, stampBinding: string)
    | SeedFromEnvFailed
    | RestoreConfig(url: string, token: string, insecureTLS: bool, tokenContext: string, tokenBinding: string)
    | Reset

  /** A fresh token without a URL is bound to the current source, if it has one. */
  function Stamped(url: string, token: string, stampContext: string, stampBinding: string): (string, string) {
    if url == "" && token != "" && stampBinding != "" then (stampContext, stampBinding) else ("", "")
  }

  function ConfigAfter(old_: Config, change: Change): Config {
    match change
    case SetConfig(url, token, tls, isFresh, c, b) =>
      if isFresh then Config(url, token, tls, Stamped(url, token, c, b).0, Stamped(url, token, c, b).1)
      else old_.(manualURL := url, token := token, insecureTLS := tls)
    case SeedFromEnv(url, token, tls, c, b) => Config(url, token, tls, Stamped(url, token, c, b).0, Stamped(url, token, c, b).1)
    case SeedFromEnvFailed => EMPTY_CONFIG
    case RestoreConfig(url, token, tls, c, b) => Config(url, token, tls, c, b)
    case Reset => old_
  }

  /** Reset alone leaves unseeded settings unseeded. */
  function Changed(m: Argo, change: Change): Argo {
    if change.Reset? then Bumped(m) else Reconfigured(m, ConfigAfter(m.config, change))
  }

  // ---------------------------------------------------------------- probes

  /** Whether a probe may go on: an auto-discovery token must be bound to the
      source that was current before and after the capture. */
  predicate BindingAllows(config: Config, before: string, after: string) {
    config.manualURL == "" && config.token != "" ==>
      config.tokenBinding != "" && before != "" && before == after && config.tokenBinding == after
  }

  /** The health answers that did not merely say the server could not be reached. */
  function WithAnswers(health: map<string, CachedHealth>): map<string, CachedHealth> {
    map k | k in health && !health[k].transportFailure :: health[k]
  }

  datatype CommitResult = CommitResult(state: Argo, unused: Option<nat>, committed: bool)

  /** The committing section. `tunnel` is the forward the probe reached the
      server through, `exited` whether its tunnel is known to be down. The
      forward that this leaves unused is stopped once the lock is released. */
  function Committed(m: Argo, snap: Snapshot, address: Address, tunnel: Option<nat>, exited: bool, newId: nat): CommitResult {
    if m.generation != snap.generation || (tunnel.Some? && exited) then CommitResult(m, tunnel, false)
    else
      var moves := m.Moves(address);
      var m1 := if moves
                then m.(forward := tunnel, base := Some(address), cache := map[], revisions := map[], anonymousRead := ReadUnknown)
                else m;
      var m2 := if moves || m.client.None?
                then m1.(client := Some(Client(newId, address, snap.config.token, snap.config.insecureTLS, snap.generation)),
                         anonymous := snap.config.token == "")
                else m1;
      CommitResult(m2.(health := WithAnswers(m2.health)),
                   if moves then m.forward else tunnel, true)
  }

  datatype AuthResult = Accepted | Rejected | TooSlow

  /** A failed token check drops the connection unless the settings changed
      meanwhile, or the server was only slow and a connection is in place. */
  predicate RejectionDrops(m: Argo, snap: Snapshot, result: AuthResult) {
    m.generation == snap.generation && !(result.TooSlow? && m.client.Some?)
  }

  // ---------------------------------------------------------------- reads

  datatype Answer = Answered | Unauthorized | Canceled | TransportFailure | OtherFailure

  predicate Current(m: Argo, client: nat, generation: nat) {
    m.generation == generation && m.client.Some? && m.client.value.id == client
  }

  function Fresh(entries: map<string, Cached>, now: nat): map<string, Cached> {
    map k | k in entries && now <= entries[k].expires :: entries[k]
  }

  function FreshHealth(entries: map<string, CachedHealth>, now: nat): map<string, CachedHealth> {
    map k | k in entries && now <= entries[k].expires :: entries[k]
  }

  function ManagedStored(m: Argo, client: nat, generation: nat, key: string, answer: Answer, now: nat): Argo {
    if !answer.Answered? || !Current(m, client, generation) then m
    else m.(cache := Fresh(m.cache, now)[key := Cached(client, generation, now + 15)])
  }

  /** At the cap an arbitrary entry makes room: whichever the map yields. */
  function Capped(entries: map<string, Cached>, victim: string): map<string, Cached> {
    if |entries| >= REVISION_CACHE_CAP then entries - {victim} else entries
  }

  function RevisionStored(m: Argo, client: nat, generation: nat, key: string, answer: Answer, now: nat, victim: string): Argo {
    if !answer.Answered? || !Current(m, client, generation) then m
    else m.(revisions := Capped(Fresh(m.revisions, now), victim)[key := Cached(client, generation, now + 300)])
  }

  function HealthStored(m: Argo, client: nat, generation: nat, key: string, answer: Answer, now: nat): Argo {
    if !Current(m, client, generation) || answer.Canceled? then m
    else
      var read := if !m.anonymous then m.anonymousRead
                  else if answer.Answered? then ReadAllowed
                  else if answer.Unauthorized? then ReadRefused
                  else m.anonymousRead;
      m.(anonymousRead := read,
         health := FreshHealth(m.health, now)[key := CachedHealth(client, generation, answer.TransportFailure?, now + 15)])
  }

  function RepositoriesStored(m: Argo, client: nat, generation: nat, answer: Answer, now: nat): Argo {
    if !answer.Answered? || !Current(m, client, generation) then m
    else m.(repositories := Some(Cached(client, generation, now + 60)))
  }

  /** The client the rest of the product may use. */
  function Get(m: Argo): Option<Client> {
    if m.client.None? || (m.anonymous && !m.anonymousRead.ReadAllowed?) then None else m.client
  }
}
