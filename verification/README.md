# Radar's concurrent cores, modelled and proved in Dafny

Radar is a Kubernetes console. This project models three of its components whose rules have to
survive every interleaving or every input, and proves those rules.

**Investigations** (`internal/ai`). An investigation is a small state machine over an append-only
event log. Its agent, stop requests, context switches, clears, evictions, subscribers, lazy
hydration and shutdown race on it, and the log is mirrored through a bounded write queue into a
database that may be cut off by a crash at any point.

- `RunEvents` states the grammar of a log once, as an automaton. `RunSpec` says what each critical
  section of one run does, as a function from the state before to the state after and the writes it
  enqueues. `RunObject` is the run as an object whose methods are proved against those functions.
- `DurableLog` and `RunStore` model the two tables, the queue, its writer and the reads.
- `RunProtocol` puts one run, its agent, the queue, the database, hydrating reads, subscribers,
  clears, crashes and restarts together as a transition system, for a manager with a store and for
  one without. `RunSteps` says what each of its steps does to the log, the status, the turn and the
  writes, in those terms alone. `RunMemory`, `RunGrammar`, `RunDurability`, `RunSafety` and `RunInvariant` prove one
  inductive invariant of it; `RunTheorems` says what that means for every run of the system.
- `RunLedger` follows the fate of every write and `RunHistory` shows that every run of the protocol
  keeps such a ledger, losses included. `RunRecovery` derives which open turns a restart misses,
  `RunReads` which hydrating reads are whole; both conditions are exact.
- `RunRegistry` and `RunManagement` model the manager: the cap on turns in flight, the order,
  eviction, clearing, staleness, the sweep of foreign contexts.
- `ApplyOutcome` decides what an apply turn did from the results of its write calls, `LastWord`
  settles which of a call's rows those are.
  `EvidenceLinks` decides which tool results a verdict may cite. `ToolNames` holds their vocabulary.

**The Argo CD connection** (`internal/argocd`). Settings carry a generation; a probe captures them,
does its network work without the lock, and commits only if the generation is unchanged. `ArgoState`
gives each section as a function, `ArgoObject` the object and the discovery loop, `ArgoProtocol` the
interleaving of one probe with settings changes, context switches, reads, dying tunnels and their
watchers. `ArgoSteps` says what each step does to settings, connection and answers; `ArgoInvariant`
and `ArgoTheorems` prove what holds in every reachable state.

**Capacity** (`internal/capacity`). `Requirements` is the decision procedure over label
requirements with 64-bit bounds, `Selectors` the three-valued evaluation around it, whose evidence is
a proof of incompatibility and is complete. `SchedulerReasons` is an online top ten. `Canonical` says
what the canonical form of a pod's scheduling constraints is, `PodMeaning` that it keeps what the pod
says and no more, `Fingerprints` computes it and settles for which pods it is the only one,
`DemandGroups` groups pods by it. `ActivityFold` is the fold of events into episodes, `ClaimEpisodes`
its result for a node claim in closed form. `Strings`, `Sorting` and `Int64` are what these share.

Each critical section under a mutex is one atomic step. Network answers, agent events, map iteration
order and crash points are nondeterministic. JSON decoding, whitespace trimming, event
classification and scheduler-message parsing are function parameters, so the theorems hold for any
of them. Digests are taken to be injective, and resource quantities to be integers.

## Where the code does not keep its promise

Each of these is proved by a concrete run or input, next to the exact condition under which the
promise does hold.

- **Clearing history can delete the rows of a run it keeps.** If the kept run's turn ends after the
  run was selected and before the delete is queued, its rows go while memory still lists it
  (`ClearLosesAKeptRun`). The rows survive exactly when the run is still running as the delete is
  queued (`ClearSparesExactlyTheStillRunning`).
- **Stopping between reserving and launching a follow-up** speaks of the turn before: after an apply
  it reports an unknown outcome although nothing is open (`StopBeforeLaunchMisattributes`). It is
  right in every other case and in no other (`InterruptionAttribution`).
- **Hydrating from a closed store** runs no barrier and can install a log that predates its closing
  marker (`ClosedStoreHydratesTooEarly`). The installed log is the whole durable log if and only if
  the run was over, or the read went through its barrier, or no append of the run was queued as it
  ran (`InstalledLogIsWholeIff`); which losses came before does not matter. At the read itself the
  last of these alone decides (`ReadIsWholeIff`).
- **Recovery depends on one save.** If the save of the running status is refused by a full queue or
  its transaction fails, a crash can leave an open turn no restart repairs
  (`RefusedSaveLeavesAnOpenTurn`). Whatever was lost, an open turn is missed if and only if the save
  that announces it was lost, no row was written since, and the row is not one a crash left saying
  running (`OpenTurnIsMissedExactly`); a restart repairs exactly the others (`RestartRepairs`). The
  third condition cannot be dropped: a row whose repair was lost stands in for the lost save
  (`LeftoverRowStandsIn`).
- **The two binding reads do not always keep a token at home.** If the context goes to another
  cluster and comes back around the capture, each switch resetting the connection, the token bound
  to the one is sent to a server of the other (`TokenReachesAnotherCluster`). It stays home if and
  only if the context did not leave and come back around that very capture (`TokenStaysHomeIff`,
  `InstalledTokenStaysHomeIff`); it takes two switches between the two reads.
- **A re-check can reconnect to a dead tunnel.** It confirms the forwarded address, the tunnel dies
  and its watcher drops the connection, and the commit puts the address back with no forward and
  nobody left to notice (`DeadTunnelIsReconnected`, `CommitKeepsBacking`).

The scheduling fingerprint keeps its promise for every pod a cluster can hold
(`AdmittedPodsAreOrderBlind`). As a function on any strings without NUL it depends on the order of
two requirements of one key and operator, one without values and one with only the empty value, and
on no other order (`OrderBlindIffClashFree`, `ClashDependsOnOrder`); the API server admits no such pair.

## Model

| member | source | states |
|---|---|---|
| `RunEvents.ModeOfExtension` | internal/ai/runs.go:1513-1542 | Reading one more event advances the log's grammar by exactly that event |
| `RunEvents.ClosedOnlyAtTheEnd` | internal/ai/runs.go:1556-1580 | In a log inside the grammar the `closed` sentinel occurs at most once, and last |
| `RunEvents.TurnsNeverOverlap` | internal/ai/runs.go:616-638 | A turn is recorded only while none is open; phase, step, thinking and done only while one is |
| `RunEvents.ApplyClosesHonestly` | internal/ai/runs.go:754-826 | A `done` closing an apply is confirmed, an apply's terminal always has an outcome, and a scheduled verification is the very next event |
| `RunEvents.SealedIsLast` | internal/ai/runs.go:1471-1478 | Nothing that extends a finalized log stays inside the grammar |
| `RunEvents.LastOpenTurnWasApply` | internal/ai/runs.go:346-358 | The backward scan computes whether the nearest turn without a terminal event after it is an apply |
| `RunEvents.ScanFindsTheOpenApply` | internal/ai/runs.go:346-358 | On every log inside the grammar that scan answers yes exactly when an apply turn is open |
| `RunEvents.LastTurnIsTheOpenOne` | internal/ai/runs.go:1042-1052 | While a turn is open the most recent turn marker is that turn's |
| `RunTheorems.LogObeysTheGrammar` | internal/ai/runs.go:593-597 | In every reachable interleaving the in-memory log is numbered 1..n, inside the grammar, open only while running, and sealed exactly when finalized |
| `RunTheorems.OneProcessIsSound` | internal/ai/runs.go:796-800 | Within one process no lost write, closed store or clear can take that away |
| `RunTheorems.AppliesCloseHonestly` | internal/ai/runs.go:658-753 | In every reachable log a `done` closing an apply is confirmed and a scheduled verification follows at once |
| `RunSteps.ApplyIsVerifiedIff` | internal/ai/runs.go:698-753 | An apply that owns its turn goes on into a verification if and only if the context is unchanged and the change is confirmed or uncertain; its terminal event carries the outcome, and says done only of a confirmed change reported to the end in an unchanged context |
| `RunSteps.InterruptedApplyYields` | internal/ai/runs.go:801-842 | An apply that lost its turn logs nothing and only releases the reservation |
| `RunSteps.TurnIsReserved` | internal/ai/runs.go:453-486 | A reservation needs a run that is neither in flight nor stale and has a session; it makes the run running and saves that |
| `RunSteps.TurnIsLaunched` | internal/ai/runs.go:616-638 | A turn is logged and begun exactly while its reservation stands |
| `RunSteps.ReportIsLogged` | internal/ai/runs.go:1489-1500 | What the agent reports is logged while it owns the turn and never after |
| `RunSteps.ReadTurnEnds` | internal/ai/runs.go:855-910 | A reading turn ends in error exactly when the agent failed and done otherwise, and only then adopts the session; the event, the status and the saved row agree |
| `RunSteps.InterruptedReadYields` | internal/ai/runs.go:868-874 | A reading turn that was interrupted only releases the reservation |
| `RunSteps.TurnIsStopped` | internal/ai/runs.go:1056-1088 | Stopping an owned turn logs one error, uncertain exactly for an apply, and leaves the reservation; stopping anything else does nothing |
| `RunSteps.RunGoesStale` | internal/ai/runs.go:1365-1407 | A context switch closes the log of a run that is not final, with one marker, and nobody stays subscribed |
| `RunSteps.UnreadRunGoesStale` | internal/ai/runs.go:1365-1407 | The closing batch of a run whose log is not in memory is left for the store to number; a final run stays as it is |
| `RunSteps.RunIsEvicted` | internal/ai/runs.go:1245-1273 | Eviction closes the log in memory alone and asks the store to forget the rows |
| `RunSteps.FinalizingClosesTheLog` | internal/ai/runs.go:1556-1580 | The sentinel comes once, reaches every subscriber with room, and is written down by a run that has its store and its whole log |
| `RunSteps.SubscriberJoins` | internal/ai/runs.go:1443-1465 | Subscribing opens one channel with the backlog, and none on a final run |
| `RunSteps.SubscriberLeaves` | internal/ai/runs.go:1457-1464 | Leaving closes the subscriber's channel once and touches nothing else |
| `RunSteps.EventIsTaken` | internal/ai/runs.go:1532-1541 | Taking an event makes room for one more |
| `RunSteps.ReadIsInstalledIff` | internal/ai/runs.go:1334-1356 | A log that was read is installed if and only if the run is attached and not hydrated, and either not final or closed in that log |
| `RunSteps.ReadHolds` | internal/ai/store.go:291-329 | A read holds what the database holds as it runs, or nothing |
| `RunSteps.RunIsRestored` | internal/ai/runs.go:251-344 | A restart knows of a run what its row says; one that was running is in error with a marker that is uncertain exactly for an open apply or an unreadable log |
| `RunTheorems.VerificationSharesTheBatch` | internal/ai/runs.go:801-826 | The apply's terminal event and its verification turn are one durable batch whose row still says running |
| `RunTheorems.SubscribersSeeNoGap` | internal/ai/runs.go:1425-1465 | What a subscriber is handed follows the sequence number it asked to continue after, without a gap; an open subscriber has everything, a slow one was cut off and closed once |
| `RunMemory.BacklogIsSuffix` | internal/ai/runs.go:1443-1449 | For every sequence number a client may send, the backlog is the log from that point on |
| `RunTheorems.WriteSessionsAreNeverResumed` | internal/ai/runs.go:883-889 | The session an apply opened is never the resumable one, in memory or in the database |
| `RunTheorems.StaleMeansFinalized` | internal/ai/runs.go:1359-1407 | A registered run is stale exactly when its subscriber map is gone |
| `RunTheorems.HydratedLogIsTheDurableLog` | internal/ai/runs.go:1303-1357 | With no write lost, draining the queue leaves the database with exactly the log and status in memory |
| `RunTheorems.DrainedHydrationIsExact` | internal/ai/runs.go:1313-1357 | With no write lost, a hydration whose read went through the barrier installs exactly the durable log, whatever raced it, and leaves the run sound |
| `RunReads.ReadIsWholeIff` | internal/ai/store.go:291-329 | Whatever was lost, a hydrating read finds the whole durable log if and only if no append of the run is queued as it runs |
| `RunReads.InstalledLogIsWholeIff` | internal/ai/runs.go:1313-1357 | Whatever was lost and whatever raced it, the installed log is the whole durable log if and only if the run was over, the read went through its barrier, or no append was queued as it ran |
| `RunTheorems.ClosedStoreHydratesTooEarly` | internal/ai/store.go:179-198 | A run of the system in which hydration from a closed store, which runs no barrier, installs a log that ends in an open turn |
| `RunTheorems.LostWritesYieldAPrefix` | internal/ai/store.go:291-329 | Whatever batches were lost, reading back yields an exact prefix of the log or is refused as corrupt |
| `RunTheorems.OpenTurnImpliesRunningRow` | internal/ai/runs.go:475-483 | With no write lost: at every point where a crash may cut the queue the readable log is inside the grammar, and an open turn is announced by a persisted status of running |
| `RunRecovery.OpenTurnIsMissedExactly` | internal/ai/store.go:145-174 | With any writes lost: an open durable turn is under a row that does not say running if and only if its own save was refused or failed, no row was written since, and no row of an earlier process stands in |
| `RunRecovery.RestartRepairs` | internal/ai/runs.go:251-344 | Whatever was lost, a restart leaves the durable log as it was plus a marker for a run found running; a turn stays open exactly when it was open and unannounced; the marker says unknown exactly when the open turn was an apply or the log was unreadable |
| `RunLedger.ActionKeeps` | internal/ai/store.go:145-174 | Every write, accepted, refused, taken or failed, keeps the account of which turns were announced and what the row may say |
| `RunHistory.StepIsNoted` | internal/ai/runs.go:1513-1542 | Every step of the protocol does to the database and the queue what the ledger's writes do |
| `RunHistory.HistoryStep` | internal/ai/runs.go:28-33 | Every step keeps the protocol invariant and the ledger together, with a store or without one |
| `RunHistory.EveryRunIsRecorded` | internal/ai/runs.go:28-33 | Every reachable state is the state of a recorded history, so what is proved of histories holds of every run |
| `RunTheorems.RefusedSaveLeavesAnOpenTurn` | internal/ai/runs.go:475-483 | A run of the system in which the one refused save of the running status leaves an open turn that recovery does not see |
| `RunTheorems.LeftoverRowStandsIn` | internal/ai/runs.go:321-344 | A run of the system in which the turn's save was lost and no row was written since, yet recovery sees the turn, because the row a crash had left running was never replaced |
| `RunTheorems.ClearLosesAKeptRun` | internal/ai/runs.go:1168-1241 | A run of the system in which ClearHistory keeps a run and deletes its rows, because its turn ended before the delete was queued |
| `RunTheorems.ClearSparesExactlyTheStillRunning` | internal/ai/runs.go:1171-1241 | The durable copy of a kept run survives exactly when the run is still running as the delete is queued |
| `RunGrammar.InterruptionIsHonest` | internal/ai/runs.go:1078-1082 | Interrupting an open apply turn always reports an unknown outcome |
| `RunTheorems.StopBeforeLaunchMisattributes` | internal/ai/runs.go:1040-1082 | A run of the system in which Stop, between reserving a follow-up and launching it, calls the outcome unknown although the log has just said that the apply failed |
| `RunGrammar.InterruptionAttribution` | internal/ai/runs.go:1040-1082 | The interruption's outcome is right if and only if it does not fall between reserving a turn and launching it after an apply |
| `RunInvariant.InvariantStep` | internal/ai/runs.go:28-33 | Every step of every thread, of the writer and of a crash keeps the whole protocol invariant |
| `RunInvariant.ReachableInvariant` | internal/ai/runs.go:28-33 | The protocol invariant holds in every reachable state |
| `RunSafety.InstallIsExact` | internal/ai/runs.go:1335-1356 | A log that may be installed equals what the drained queue leaves in the database |
| `RunSafety.RepairClosesTheTurn` | internal/ai/runs.go:321-344 | The restart marker takes any interrupted log back to no open turn |
| `DurableLog.BatchExtends` | internal/ai/store.go:221-267 | A batch, numbered by the run or left for the store to number, extends the stored log by exactly its events |
| `DurableLog.HeldLogIsRead` | internal/ai/store.go:291-329 | Reading a table that holds a log gives back that log |
| `DurableLog.ReadLogIsHeld` | internal/ai/store.go:291-329 | Whatever is read back is what the table holds |
| `DurableLog.ReadingYieldsAPrefix` | internal/ai/store.go:291-329 | A table that only repeats the log reads as a prefix of it or as corrupt |
| `RunStore.RunsAreIndependent` | internal/ai/store.go:145-156 | Draining the shared queue does to each run what draining that run's own operations does |
| `RunStore.WriterRefinesTheProtocol` | internal/ai/store.go:145-156 | Whatever becomes of an operation, it does to each run what the protocol's writer steps do with that run's own view of it |
| `RunStore.NothingIsLost` | internal/ai/store.go:145-156 | If no write fails the database gets everything that was queued |
| `RunStore.FailuresStayLocal` | internal/ai/store.go:145-156 | Failed writes of other runs do nothing to a run |
| `RunStore.ReadTable` | internal/ai/store.go:291-329 | The row loop returns the stored log, or corrupt at the first gap or undecodable row |
| `RunStore.Store.Enqueue` | internal/ai/store.go:160-174 | Never blocks: refused when closed, dropped and degraded when full, appended otherwise |
| `RunStore.Store.WriteNext` | internal/ai/store.go:145-156 | The writer takes the oldest operation; one that fails changes nothing, or loses only the event rows of a deletion, and degrades the store |
| `RunStore.Store.WaitForWriter` | internal/ai/store.go:179-198 | Returns once everything queued before has been taken, with the exact database and degraded flag the failures leave; on a closed store it waits for nothing |
| `RunStore.Store.LoadEvents` | internal/ai/store.go:291-329 | Reads past a barrier: the log of the table as the writes left it, corrupt, or unavailable |
| `RunStore.Store.ClearTerminalRows` | internal/ai/store.go:341-375 | Leaves exactly the rows and events of runs that are running once the queue is drained, or fails and leaves the drained database |
| `RunStore.Store.Close` | internal/ai/store.go:385-396 | Drains every pending write, with the exact database left, and refuses later ones |
| `RunObject.Run.PublishEvent` | internal/ai/runs.go:1532-1541 | Every subscriber with room gets the event, every full one is closed, nobody is skipped |
| `RunObject.Run.AppendEventsLocked` | internal/ai/runs.go:1513-1542 | The batch is numbered, recorded, persisted in one write and published in order |
| `RunObject.Run.LaunchTurn` | internal/ai/runs.go:616-638 | Records the turn if the reservation still stands, otherwise only releases it |
| `RunObject.Run.AppendStreamEvent` | internal/ai/runs.go:1489-1500 | Admits an agent event exactly while the turn is owned |
| `RunObject.Run.FinishTurnLocked` | internal/ai/runs.go:855-910 | Closes the turn as done or error, or yields to whoever interrupted it, and never adopts an apply's session |
| `RunObject.Run.FinishApplyAndBeginVerification` | internal/ai/runs.go:801-826 | Records outcome and verification turn together and keeps the reservation, or only releases it |
| `RunObject.Run.FinishApplyWithoutVerification` | internal/ai/runs.go:831-842 | Closes the apply with its outcome and releases the reservation |
| `RunObject.Run.ActiveTurnApplies` | internal/ai/runs.go:1042-1052 | The backward scan for the reserved turn's marker |
| `RunObject.Run.Stop` | internal/ai/runs.go:1056-1088 | Marks an owned turn stopped with one terminal event and leaves the reservation to the agent |
| `RunObject.Run.MarkStaleLocked` | internal/ai/runs.go:1365-1407 | Finalizes once: numbered pair when hydrated, store-numbered pair when not, all channels closed |
| `RunObject.Run.CloseSubscribers` | internal/ai/runs.go:1593-1597 | Every open channel is closed exactly once and the subscriber map dropped |
| `RunObject.Run.FinalizeLocked` | internal/ai/runs.go:1558-1580 | Appends the sentinel once, offers it to subscribers with room, and closes them all |
| `RunObject.Run.DetachAndFinalize` | internal/ai/runs.go:1263-1266 | Detaches the store first, so the sentinel never reaches deleted rows |
| `RunObject.Run.Attach` | internal/ai/runs.go:1443-1465 | Returns the backlog and registers a live channel, or a closed one for a finalized run |
| `RunObject.Run.Cancel` | internal/ai/runs.go:1457-1464 | Closes a channel that is still registered and does nothing otherwise |
| `RunObject.Run.InstallEvents` | internal/ai/runs.go:1334-1356 | Installs a read log unless the run was hydrated, detached or finalized meanwhile |
| `RunObject.Run.EnsureHydrated` | internal/ai/runs.go:1313-1357 | Installs what the drained store holds, or leaves the run as it was and tells a corrupt transcript from an unavailable one |
| `RunRegistry.RegistryStep` | internal/ai/runs.go:28-33 | Every step keeps the registry: the order lists the runs once each, the in-flight cap, stale exactly when finalized; stale is absorbing |
| `RunRegistry.RegistryAlways` | internal/ai/runs.go:453-486 | That invariant holds after any history of starts, reservations, sections and clears |
| `RunRegistry.StartedIff` | internal/ai/runs.go:502-531 | Start focuses the oldest running run of its target, else refuses at the cap, else registers a run and evicts |
| `RunRegistry.ReservedIff` | internal/ai/runs.go:453-486 | A turn is reserved exactly on a registered run, below the cap, not in flight, not stale, and with a session where one is to be resumed |
| `RunRegistry.SweepEndsTheForeign` | internal/ai/runs.go:1093-1166 | A sweep leaves the runs of the current context alone and every other final |
| `RunRegistry.StaleCountIsSafe` | internal/ai/runs.go:438-448 | Counting in-flight runs one by one while their sections go on never counts too few |
| `RunRegistry.EvictionDropsTheOldestIdle` | internal/ai/runs.go:1245-1273 | Victims are idle, as many as the cap is exceeded by or all there are, no older idle run is spared, and everything else stays |
| `RunRegistry.EvictionSparesTheRunning` | internal/ai/runs.go:1243-1256 | A running run is never evicted, and only running runs can exceed the cap |
| `RunRegistry.EvictionStep` | internal/ai/runs.go:1245-1256 | Taking the first idle run of what is left is dropping one more of the oldest |
| `RunRegistry.EvictionEndsEarly` | internal/ai/runs.go:1253-1255 | When nothing idle is left, the runs dropped so far are all that eviction drops |
| `RunRegistry.ClearKeepsExactlyTheRunning` | internal/ai/runs.go:1171-1241 | ClearHistory keeps exactly the running runs, in order, and drops each of the others once, or changes nothing at all |
| `RunRegistry.SweepingAgainChangesNothing` | internal/ai/runs.go:1149-1166 | Sweeping the same context again leaves a run as it is and writes nothing |
| `RunRegistry.PerformKeeps` | internal/ai/runs.go:1365-1407 | No section of a run takes a reservation or revives a stale run, and finalized stays the same as stale |
| `RunManagement.RunManager.CountInFlight` | internal/ai/runs.go:438-448 | Counts exactly the registered runs with a turn in flight |
| `RunManagement.RunManager.FindRunning` | internal/ai/runs.go:505-512 | Finds the oldest running investigation of the same target, if there is one |
| `RunManagement.RunManager.EvictLocked` | internal/ai/runs.go:1245-1273 | The loop evicts as the registry's eviction does, finalizes each victim detached, and asks the store to forget exactly those runs |
| `RunManagement.RunManager.Start` | internal/ai/runs.go:502-531 | Focuses a running run of the target, refuses at the cap, or registers a reserved run that survives its own eviction pass |
| `RunManagement.RunManager.BeginTurn` | internal/ai/runs.go:453-486 | Reserves under the cap or refuses without changing anything, and saves the running status whenever the manager has a store |
| `RunManagement.RunManager.MarkForeignStale` | internal/ai/runs.go:1093-1166 | Visits every run once, marks stale exactly those of other contexts, or all of them on a switch, and enqueues their closing batches in the order visited |
| `RunManagement.RunManager.SweepForeign` | internal/ai/runs.go:1149-1166 | Sweeps once per observed context: nothing at all for an unknown or already swept one, otherwise every run of another context goes stale |
| `RunManagement.RunManager.ClearHistory` | internal/ai/runs.go:1171-1226 | Drops what is not running from memory and store together and finalizes each, or restores the registry exactly |
| `ApplyOutcome.ApplyMutationTracker.Observe` | internal/ai/apply_outcome.go:35-71 | One stream event updates only the call it names, or the anonymous flag |
| `ApplyOutcome.ApplyMutationTracker.Decide` | internal/ai/apply_outcome.go:168-201 | The loop's verdict: unknown, confirmed or failed, whatever order the map yields |
| `ApplyOutcome.OneCallAtATime` | internal/ai/apply_outcome.go:35-71 | What is tracked of a call depends on that call's own events only |
| `ApplyOutcome.InterleavingDoesNotMatter` | internal/ai/apply_outcome.go:35-71 | Streams with the same per-call subsequences have the same outcome |
| `ApplyOutcome.TrackedIffWriteSeen` | internal/ai/apply_outcome.go:35-43 | A call is tracked exactly when one of its events names a write tool |
| `ApplyOutcome.ConfirmedMeans` | internal/ai/apply_outcome.go:168-201 | Confirmed if and only if the profile is trusted, no anonymous write was seen, every write call provably changed something or provably nothing, and one changed something |
| `ApplyOutcome.FailedMeans` | internal/ai/apply_outcome.go:168-201 | Failed if and only if the profile is trusted, no anonymous write was seen and every write call provably changed nothing |
| `ApplyOutcome.EvidenceMeans` | internal/ai/apply_outcome.go:85-166 | A clean, accepted result is no change when it or its input says dry run or no change, and a change when neither does and a GitOps input is readable; everything else is unknown |
| `LastWord.TrackedIsTheLastWord` | internal/ai/apply_outcome.go:35-71 | What is tracked of a call is its last result, the last tool it was said to run and the last input, from its first write row on |
| `ApplyOutcome.UnfinishedWriteForcesUnknown` | internal/ai/apply_outcome.go:85-90 | One write call without a clean terminal row forces an unknown outcome |
| `ApplyOutcome.FailedMeansNothingLanded` | internal/ai/apply_outcome.go:194-200 | Failed means every write call ended cleanly and was declared a dry run or no-op |
| `EvidenceLinks.EvidenceValidator.Validate` | internal/ai/diagnoser.go:972-998 | Marks an arrival exactly when its payload is the issued one and its reference is unclaimed |
| `EvidenceLinks.MarkedAtMostOnce` | internal/ai/diagnoser.go:968-998 | Each reference is marked at most once per turn, whatever is replayed |
| `EvidenceLinks.MarkedIsStillIssued` | internal/investigationrefs/registry.go:103-139 | A marked, uncut result equals what the closing snapshot still vouches for |
| `EvidenceLinks.IdentifyTools` | internal/ai/runs.go:967-993 | The first pass gives each call of each turn its tool identity and whether its names conflict |
| `EvidenceLinks.MatchEvidence` | internal/ai/runs.go:951-1033 | A reference is linked exactly when one event of the whole log carries it and that event is a clean, authenticated read result with one tool identity |
| `EvidenceLinks.LinkVouchesFor` | internal/ai/runs.go:1000-1031 | A linked reference vouches for a marked, complete, successful, uncut result of one reading tool, issued with that payload if it is of the last turn and foreign to its scope otherwise |
| `EvidenceLinks.SameTurnIff` | internal/ai/runs.go:976-984 | Two events are of one turn if and only if no turn begins in between |
| `ToolNames.PrefixesDoNotMatter` | pkg/investigation/prompt.go:44-48 | A tool has one name under every prefix an agent host gives it |
| `EvidenceLinks.CurrentLinksWereMarked` | internal/ai/runs.go:1006-1020 | A current-turn link rests on the one result the validator marked for it, with the issued payload |
| `EvidenceLinks.MarkedResultsStand` | internal/ai/runs.go:1006-1031 | A marked, uncut, successful read result that no other event repeats is linked |
| `ArgoTheorems.ConnectionMatchesSettings` | internal/argocd/manager.go:1208-1227 | An installed client uses the recorded address, the current token and TLS mode, and an address resolved under the current generation |
| `ArgoTheorems.TokensFollowTheirSnapshot` | internal/argocd/manager.go:1137-1167 | A token check pairs the snapshot's token only with an address resolved for a snapshot of the same generation: the configured URL, or a server found by a probe that read the token's own binding before and after its capture |
| `ArgoTheorems.TokenStaysHomeIff` | internal/argocd/manager.go:1128-1167 | The token of a check goes to a server of the cluster it is bound to if and only if the context did not leave and come back around that probe's capture, as it cannot with fewer than two switches between the reads |
| `ArgoTheorems.InstalledTokenStaysHomeIff` | internal/argocd/manager.go:1128-1222 | The same of the token of an installed client and the capture that found its address |
| `ArgoTheorems.TokenReachesAnotherCluster` | internal/argocd/manager.go:1128-1162 | A run of the system in which the context goes away and comes back around the capture and the token is sent to the other cluster's server |
| `ArgoTheorems.StaleProbesAreDiscarded` | internal/argocd/manager.go:1192-1199 | A probe whose settings were replaced commits nothing and hands over its forward |
| `ArgoSteps.SettingsBecome` | internal/argocd/manager.go:528-658 | Every change of settings disconnects under a new generation; a carried-over token keeps its binding, a fresh one without a URL is bound to the current source, a restored one as it was |
| `ArgoSteps.ProbeCaptures` | internal/argocd/manager.go:1128-1134 | A probe captures the settings in force, adopting stored ones only where none were adopted, and the cluster of that moment |
| `ArgoSteps.ProbeGoesOnIff` | internal/argocd/manager.go:1137-1155 | A probe goes on if and only if it has a URL, or no token, or a token bound to the source found both before and after its capture |
| `ArgoSteps.SlowServerStays` | internal/argocd/manager.go:1718-1747 | A slow server keeps its connection: searched for again behind a forward, left alone while it takes connections, else treated as gone |
| `ArgoSteps.GoneServerIsDropped` | internal/argocd/manager.go:1748-1758 | A server that is gone loses the connection unless another address took its place |
| `ArgoSteps.AnsweringServerIsChecked` | internal/argocd/manager.go:1718-1728 | A server that answers is checked where it is, through the forward it has |
| `ArgoSteps.RefusalDisconnectsIff` | internal/argocd/manager.go:1167-1190 | A refused token disconnects if and only if the settings are the probe's and the server was not merely slow with a connection in place |
| `ArgoSteps.VerifiedIsConnectedIff` | internal/argocd/manager.go:1192-1242 | A verified address is connected if and only if the settings are the probe's and its tunnel is not known dead; a new address replaces forward, client and caches, a known one keeps them |
| `ArgoSteps.WatcherDisconnectsIff` | internal/argocd/discovery.go:223-237 | A watcher disconnects if and only if its forward is the installed one |
| `ArgoSteps.AnswerIsKeptIff` | internal/argocd/manager.go:1412-1708 | An answer is cached if and only if it came through the client in place under the generation in force; whatever else the cache holds was there and had not expired |
| `ArgoSteps.HealthSettlesAnonymity` | internal/argocd/manager.go:1509-1552 | A health read through a tokenless client in place settles whether anonymous reads are served, and nothing else does |
| `ArgoSteps.ClientIsHandedOutIff` | internal/argocd/manager.go:750-770 | The client is handed out if and only if it has a token or an anonymous read was answered |
| `ArgoTheorems.ForwardsAreConserved` | internal/argocd/discovery.go:162-213 | Every started forward is in exactly one place: installed, held by the probe, about to be stopped, or stopped |
| `ArgoTheorems.DeadForwardsAreNoticed` | internal/argocd/discovery.go:215-237 | An installed forward whose tunnel is down has a watcher that has not run its drop |
| `ArgoTheorems.WatcherDropsItsConnection` | internal/argocd/discovery.go:223-237 | That drop takes the whole connection down and frees the forward |
| `ArgoTheorems.CachesBelongToTheConnection` | internal/argocd/manager.go:1412-1708 | Cached diffs and revisions came through the installed client, health and repositories under the current generation, and the revision cache never exceeds its cap |
| `ArgoTheorems.AnonymousClientsHaveAnswered` | internal/argocd/manager.go:746-770 | A tokenless client is handed out only after a read succeeded through it |
| `ArgoTheorems.CommitKeepsBacking` | internal/argocd/manager.go:1163-1222 | A commit leaves a forwarded connection owning its forward if and only if it did not re-install a confirmed forwarded address that had been dropped |
| `ArgoTheorems.OtherStepsKeepBacking` | internal/argocd/manager.go:724-744 | No other step separates a forwarded connection from its forward |
| `ArgoTheorems.DeadTunnelIsReconnected` | internal/argocd/manager.go:1200-1222 | A run of the system in which a re-check commits the address of a tunnel that died and was dropped meanwhile, with no forward and no watcher left |
| `ArgoInvariant.InvariantStep` | internal/argocd/manager.go:1101-1242 | Every step of probes, settings, reads and tunnels keeps the connection invariant |
| `ArgoInvariant.ReachableInvariant` | internal/argocd/manager.go:1101-1242 | The connection invariant holds in every reachable state |
| `ArgoObject.Manager.ApplyConfig` | internal/argocd/manager.go:528-554 | New settings bump the generation and drop the connection; only a fresh token is bound anew |
| `ArgoObject.Manager.EnsureSeeded` | internal/argocd/manager.go:1902-1913 | Adopts the stored settings with the binding recorded beside them, once |
| `ArgoObject.Manager.Seed` | internal/argocd/manager.go:563-582 | Settings from the environment replace everything, and a token without a URL is bound to the current context's source |
| `ArgoObject.Manager.SeedFailed` | internal/argocd/manager.go:592-604 | An unusable environment leaves no credential to fall back on |
| `ArgoObject.Manager.Restore` | internal/argocd/manager.go:644-658 | A rollback restores the token's binding as captured |
| `ArgoObject.Manager.DropConnection` | internal/argocd/manager.go:724-744 | Everything tied to the connection is cleared and its forward handed back |
| `ArgoObject.Manager.CommitProbe` | internal/argocd/manager.go:1192-1242 | Installs a verified address with its forward, keeps a confirmed connection, or discards a superseded or dead result |
| `ArgoObject.Manager.RejectProbe` | internal/argocd/manager.go:1168-1190 | A failed token check drops the connection unless superseded, or merely slow with a connection in place |
| `ArgoObject.Manager.ForwardExited` | internal/argocd/discovery.go:223-237 | The watcher drops the connection only if its forward is still the installed one |
| `ArgoObject.Manager.StoreManaged` | internal/argocd/manager.go:1444-1464 | Stores a result only for the client and generation it was fetched through, sweeping expired entries |
| `ArgoObject.Manager.StoreRevision` | internal/argocd/manager.go:1610-1639 | Sweeps, makes room at the cap by dropping one entry, then stores under the same guard |
| `ArgoObject.Manager.StoreHealth` | internal/argocd/manager.go:1509-1552 | Stores hits and misses under the guard and settles whether anonymous reads are allowed |
| `ArgoObject.Manager.LiveClient` | internal/argocd/manager.go:750-770 | Answers the client the rest of the product may use |
| `ArgoObject.Discover` | internal/argocd/discovery.go:130-196 | Returns the service address of the first candidate that answers there, else outside the cluster the local address, https before http, of the first that answers through a forward, and stops every forward it started except that one |
| `Int64.ParsePrinted` | internal/capacity/demand.go:1401-1410 | Every 64-bit integer is the value of its decimal notation |
| `Int64.SignedDigitsParse` | internal/capacity/demand.go:986-994 | Digits with or without a sign parse to their value exactly when it fits 64 bits |
| `Int64.OnlySignedDigitsParse` | internal/capacity/demand.go:986-994 | Nothing else parses |
| `Strings.SortedUniqueStrings` | internal/capacity/demand.go:1499-1513 | The in-place squeeze returns the strictly ascending list of exactly the given values |
| `Strings.OnlyMembersMatter` | internal/capacity/demand.go:1499-1513 | Permuting or repeating values never changes the result |
| `Requirements.Decide` | internal/capacity/demand.go:947-1035 | When supported, feasible if and only if some label state satisfies every requirement; unsupported exactly for malformed requirements and for exclusions with bounds and no list |
| `Requirements.Conclude` | internal/capacity/demand.go:995-1034 | The final case analysis is exact and its bound arithmetic cannot overflow |
| `Requirements.GatherIsExact` | internal/capacity/demand.go:955-994 | Taking in one requirement narrows the allowed label states by exactly that requirement |
| `Selectors.Evaluate` | internal/capacity/demand.go:746-846 | Evidence implies that no node the pool can provision matches the pod; neither evidence nor unknowns implies a term whose labels both sides accept |
| `Selectors.EvidenceIsComplete` | internal/capacity/demand.go:746-846 | Evidence is reported if and only if every term is empty or has a label that rules the pool out: contradictory, a pinned or forbidden hostname, or a custom label the pool never declares; one piece per such label and term |
| `Selectors.EvidenceIsFounded` | internal/capacity/demand.go:848-936 | Each of the first ten pieces names what rules the pool out, a contradiction before anything else |
| `Selectors.QuestionsAreThese` | internal/capacity/demand.go:746-846 | A question is reported exactly for a minimum the pool's list does not settle, or, when no term is free of doubt and not all rule the pool out, for a term's own open parts, requirements not understood together, and provider labels the pool lists no values for |
| `Selectors.PoolSays` | internal/capacity/demand.go:747-770 | The pool's name, its template labels and its requirements have their say about a label, and nothing else |
| `Selectors.EvaluateTerm` | internal/capacity/demand.go:848-936 | The loop over sorted keys collects the judgement of every key, counting all evidence and keeping the first ten |
| `Selectors.KeyEvidenceIsProof` | internal/capacity/demand.go:868-926 | Evidence about one label: no provisionable node meets the pod's requirements on it |
| `Selectors.PassingKeyHasAValue` | internal/capacity/demand.go:927-936 | A label that passes has a value both sides accept, absent when the pool does not declare it |
| `Selectors.MergeCollects` | internal/capacity/demand.go:143-162 | Merging capped collections keeps every count and the first of all the evidence |
| `Selectors.NothingOpenMeans` | internal/capacity/demand.go:778-797 | Nothing is reported exactly when the pool's own list settles every minimum-value requirement |
| `Selectors.BaseUnknown` | internal/capacity/demand.go:778-797 | Reports an unknown exactly for the minimum-value requirements the pool's own list does not settle |
| `SchedulerReasons.ReasonTable.AddReason` | internal/capacity/demand.go:1142-1168 | After each arrival the table covers the whole stream and retains the smallest reasons |
| `SchedulerReasons.OnlineIsSortThenTake` | internal/capacity/demand.go:1132-1168 | The retained code and message pairs are those of sorting everything and taking ten, with counts and first-seen times over the whole stream |
| `SchedulerReasons.SmallestAreUnique` | internal/capacity/demand.go:1266-1271 | Which pairs are retained, and how often, does not depend on the order of arrival |
| `SchedulerReasons.Populate` | internal/capacity/demand.go:1169-1240 | Blocked if an ungated pod waits for a volume, else held if one is gated, else unknown if one gives no reason or another one, else awaiting capacity if one lacks nothing else, else waiting |
| `SchedulerReasons.ReasonsAreReported` | internal/capacity/demand.go:1169-1222 | The reasons counted are the gates of gated pods, what the messages of unschedulable ones parse into, and other conditions under their own reason |
| `SchedulerReasons.ReasonsAreReadOnce` | internal/capacity/demand.go:1169-1222 | Each of them as often as it is given |
| `ActivityFold.BuildActivityRecords` | internal/capacity/activity.go:73-202 | Folds the events by time, sequence number and id, with UIDs taken only from resources whose events agree |
| `ClaimEpisodes.StagesShareAnEpisode` | internal/capacity/activity.go:257-271 | Events of the four provisioning kinds that are not blocked share an episode if and only if they are about one subject: its UID, own or known, else its resource |
| `ClaimEpisodes.OccurrencesStandAlone` | internal/capacity/activity.go:560-589 | Any other event shares an episode exactly with those of its kind, subject and attempt |
| `ClaimEpisodes.EventMoves` | internal/capacity/activity.go:131-152 | A result stands, except that a failure does not undo a completion; anything else only moves the episode on, and a block hides all but a failure |
| `ActivityFold.KnownUidsAreDetermined` | internal/capacity/activity.go:84-98 | The events settle which UIDs are known, so the fold has one result |
| `ActivityFold.CollectUids` | internal/capacity/activity.go:84-98 | A resource has a known UID exactly when all its events that carry one carry the same |
| `ClaimEpisodes.ClaimOutcome` | internal/capacity/activity.go:100-202 | A claim's provisioning ends with the state, time, kind and reason of its last completion, else of its last failure in any stage, else with its deletion, else is open or observed |
| `ClaimEpisodes.ClaimStart` | internal/capacity/activity.go:273-281 | It starts at the earliest creation or event time told of the claim |
| `ClaimEpisodes.ClaimEvidence` | internal/capacity/activity.go:142-187 | Its evidence is one piece per event told of it, and one more if a deletion cut it short |
| `ActivityFold.DurationsAreNotNegative` | internal/capacity/activity.go:204-221 | No episode ends before it starts, so the clamp never acts |
| `ActivityFold.PositionsAreDistinct` | internal/capacity/activity.go:142-187 | Distinct positive event sequences give distinct positions to distinct episodes |
| `ActivityFold.StepPositions` | internal/capacity/activity.go:142-187 | An event moves the position of the episode it feeds and of no other, deletions included |
| `Canonical.KeysCollideExactly` | internal/capacity/demand.go:1330-1337 | The sort key tells requirements apart except for no values against only the empty value |
| `Canonical.ValuesAreASet` | internal/capacity/demand.go:1320-1328 | Reordering or repeating an expression's values changes nothing, and nothing else about it is forgotten |
| `PodMeaning.MeaningIsContent` | internal/capacity/demand.go:472-583 | The form is made of exactly what the pod says, its values as sets, its lists in any order, an omitted operator as Equal |
| `PodMeaning.SameMeaningSameForm` | internal/capacity/demand.go:472-583 | Pods that mean the same and whose requirements the sort key tells apart have the same canonical form |
| `PodMeaning.SameFormSameMeaning` | internal/capacity/demand.go:472-583 | Pods with the same canonical form mean the same |
| `Canonical.FormIsDeterminedIffSettled` | internal/capacity/demand.go:1320-1337 | A term's canonical form is determined if and only if no two of its distinct requirements share a sort key |
| `Canonical.SettledMeans` | internal/capacity/demand.go:1330-1337 | For lists without NUL, no two requirements share a sort key exactly when none has no values where another has only the empty one |
| `Fingerprints.SchedulingModel` | internal/capacity/demand.go:472-583 | The loops and sorts compute a canonical form of the pod, whatever order the selector map yields |
| `Fingerprints.SettledIffClashFree` | internal/capacity/demand.go:1330-1337 | For strings without NUL, a pod's lists are all determined if and only if none holds one key and operator both without values and with only empty ones |
| `Fingerprints.OrderBlindIffClashFree` | internal/capacity/demand.go:472-583 | For strings without NUL, a pod's fingerprint depends on nothing but what the pod means if and only if it has no such pair |
| `Fingerprints.AdmittedPodsAreOrderBlind` | internal/capacity/demand.go:472-583 | With as many values as each operator takes, the fingerprint always depends on the meaning alone |
| `Fingerprints.EqualMayBeOmitted` | internal/capacity/demand.go:1339-1351 | Spelling an omitted toleration operator out as Equal leaves the canonical form as it is |
| `Fingerprints.TolerationsAreKept` | internal/capacity/demand.go:1339-1351 | Each toleration of the form agrees with one of the pod's in key, value, effect, seconds and any operator given, and conversely |
| `Fingerprints.ClashDependsOnOrder` | internal/capacity/demand.go:1330-1337 | Every such pair, in its two orders, gives two pods of one meaning with two different forms |
| `Fingerprints.EmptyValuesAreConfusable` | internal/capacity/demand.go:1330-1337 | One of them: a zone among no values and a zone among the empty value |
| `DemandGroups.BuildGroups` | internal/capacity/demand.go:170-210 | The eligible pods in the order of their keys, each placed under the key of its namespace, owner, requests and canonical form, and nothing else |
| `DemandGroups.SameKeyIffAlike` | internal/capacity/demand.go:181-190 | Two admitted pods get one key if and only if they agree on namespace, owner and requests and mean the same scheduling constraints, permuted or spelled differently |
| `DemandGroups.EqualMayBeOmitted` | internal/capacity/demand.go:1339-1351 | Two pods that differ in whether Equal is spelled out share a group |
| `DemandGroups.ReadInOrder` | internal/capacity/demand.go:1550-1552 | Pods are read by namespace, name and UID |
| `DemandGroups.GroupMatesAreAlike` | internal/capacity/demand.go:181-190 | Pods under one key are alike, admitted or not |
| `DemandGroups.GroupsPartitionEligiblePods` | internal/capacity/demand.go:176-210 | Each admitted eligible pod is in exactly one group, as often as it was read, with exactly the eligible pods alike to it |
| `DemandGroups.AggregateIsTheSum` | internal/capacity/demand.go:229-235 | A group's aggregate, one member's requests times their number, equals the sum over its members |
| `Sorting.SortIsUnique` | internal/capacity/demand.go:516-518 | Sorting by a key that tells the elements apart depends only on which elements there are |
| `Sorting.SortIsAmbiguous` | internal/capacity/demand.go:1330-1337 | Sorting by one that does not may answer in two ways |
| `Sorting.SortSlice` | internal/capacity/demand.go:516-518 | The list sorted by its key: the same elements as often, in an order the key allows |

## Left out

- RunSpec.Started: Start's first summary is enqueued outside the run's lock in the source; the model makes registration and that write one step.
- RunManagement.RunManager.BeginTurn: the manager's map holds run states instead of references, so "still the same object" is "still registered under this id", which random ids make the same; its sections apply RunSpec's functions, which RunObject.Run's methods are proved against.
- RunManagement.RunManager.Start: stops at registration; saving the first summary and launching the turn are RunProtocol's initial state and its LaunchTurn step.
- RunObject.Run.EnsureHydrated: proved for a read with nothing in between; what races it is RunProtocol's LoadBegin, LoadFetch and LoadInstall steps.
- RunObject.Run.PublishEvent: a channel is a value that counts what is buffered; closed channels are kept in the run so that their subscribers stay accountable.
- ApplyOutcome.ApplyMutationTracker.Decide: JSON text, trimming and case folding are parameters.
- EvidenceLinks.EvidenceValidator.Validate: payloads are sequences of characters; how invalid UTF-8 is cut is not modelled.
- EvidenceLinks.MatchEvidence: which references the verdict's binding then asks for, and how an item is dropped, is not modelled.
- ArgoObject.Manager.ApplyConfig: URLs arrive already trimmed; whether the settings came from the environment, and why that failed, is not modelled.
- ArgoObject.Discover: candidates arrive in priority order, and the local end a forward would have is part of its candidate.
- Fingerprints.SchedulingModel: spread constraints, affinities between pods, claims and the like arrive as strings already digested one by one; the capped signature shown to users is not modelled.
- Fingerprints.AdmittedPodsAreOrderBlind: what the API server admits is taken from its validation rules, which are not part of the repository.
- DemandGroups.BuildGroups: the result is the map of groups; sorting it by identifier and capping the pod references of a group are left out.
- Sorting.SortSlice: the library's sort is an insertion into a sorted list; only that it sorts is used.
- Requirements.Decide: the text of evidence built from requirements is not modelled.
- Selectors.Evaluate: source paths and explanations of evidence are reduced to its kind and label; taints, limits and instance shapes of a pool are not judged.
- SchedulerReasons.ReasonTable.AddReason: reasons are kept by key in one map; the source keeps pointers into the retained list and clears an evicted message.
- SchedulerReasons.Populate: a condition's first-seen time arrives with its fallbacks applied, and the order in which retained reasons are shown is not modelled.
- ActivityFold.BuildActivityRecords: which event means what is a parameter; evidence is counted, not listed, and correlation keys are structured values instead of NUL-joined strings.
- Several processes sharing one history database, process ids and age-based retention: a single process without retention by age.
- SQLite, file handling and JSON: tables are maps, a transaction is one step that may fail; deleting a run is two statements, as in the source.
- Agent subprocesses, prompts and stream parsing: the agent is any source of events and one result, with no callback after it returns.
- Shutdown as one call: it is a stop of every run followed by closing the store, both of which are steps of the protocol.
- A run's preview, timestamps, owner and scratch directory: they carry no rule modelled here.
- Background probe scheduling, retry throttling and error wording of the Argo CD manager: they decide when a probe runs, not what it may do.
- Real HTTP, TLS, DNS and port forwarding: probes and reads answer, time out or fail.
- Pool ranking, resource limits, summaries, aggregate counts and the trimming of evidence lists in the capacity package: single-branch or text-only logic.
