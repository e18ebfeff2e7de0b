# NexusNet: verified model

A Dafny model of the coordination core of NexusNet, with theorems that hold of every run,
every interleaving or every input.

- **Service registry.** `Registry` gives the state machine on values, `RegistryActor` the same as
  objects updated in place with the planner's loops, and `RegistryRuns`, `RegistryMarks`,
  `RegistryGrace` and `RegistrySchedule` what holds in every run: any commands, readiness changes and
  job results, of any generation, at nondecreasing times. `RegistryServices` shows that the registry is
  the product of one small machine per service, which reads only the events about that service.
  `RegistryWitness` has runs that reach the corner cases. `TypesCodec` and `TypesConvergence` cover the
  type-index record and its convergence.
- **DHT read cache.** `DhtCache` has eviction, the store rules and the cache object; `DhtCacheRuns`
  has every interleaving of its lock-held sections; `DhtCacheVersions` follows the version guard, and
  `DhtCacheUse` sizes and access times, over the whole life of a key.
- **Inbound requests.** `ReplyFlow`, `Inbound`, `InboundRuns` and `InboundRouting` follow one reply
  token through swarm actor, authorization queues and workers, dispatcher and backends, and
  `InboundFates` reads off the steps what becomes of each request and what its caller is told.
  `Waiters` and `WaiterReplies` have the outbound tables, and `SwarmActor` the objects.
- **Authorization.** `AuthRecords` verifies and selects records; `AuthGate` and `AuthGateRuns`
  interleave calls, cache refreshes and reloads; `AuthDecisions` says what must be decided, stored and
  forgotten; `AuthDomains` is about versions across trust domains.
- **Frames** is the streaming frame decoder; `RelayModel` and `RelayManager` the relay reservations,
  and `RelayPeers` the same one peer at a time.

The references that theorems compare the model with (`Tracked`, `Life`, `Kept`, `Told`, `History`, …) are
computed from the events of a run, with the numbers and texts of the source written out again.

`hide` statements in proofs only keep the verifier from unfolding definitions it does not need.

Results where the code falls short of what it says, each with an input or run that shows it and the
exact condition:

- *A finished `invalidate` may still be followed by a stale entry.* `src/dht_cache.rs` checks the
  generation and stores under different locks, and `invalidate_all` clears the key generations last,
  so that an earlier generation pair can come back (`PairComesBack`). `StepIsSafeIff` names exactly the
  steps that can end so: reading the key generation inside an `invalidate_all` whose beginning the
  refresh has seen, invalidating a key between its refresh's check and store, and `invalidate_all`
  after the first half of a check that will pass. All other steps are safe
  (`DisciplinedRunsStayFresh`), and all three windows are reachable (`RaceIsReachable`).
- *The cache's version guard can be disarmed*: a successful empty lookup, a find without a version or a
  loss of the key between two finds lets a lower version replace a higher one (`LowerVersionWins`).
  `HoldsHighestIff` and, over every interleaving, `RunsHoldHighestIff` say exactly when the highest
  version ever found is held.
- *A service can leave the announced set within the three seconds of grace*, when a withdrawal was
  already running at the disconnect: `GraceIsHonoured`, `WithdrawsEarlyIff`, `CaughtIsReachable`.
- *A late result of an earlier generation can remove a newer job's in-flight mark*, because the mark
  is removed before the generation is compared; `LateResultKeepsMarksIff` says exactly when, and
  `LateResultDoublesTheJob` has the run, in which one service is announced twice at a time.
- *A version of an old trust domain can be recorded for the new one*, and then locks out the new
  domain's lower versions (`StaleCallLocksOutNewDomain`). A recorded version is foreign exactly when the
  caches were of another domain than the version table's when its call took them: `ForeignIff`,
  `VersionsAreOwnIff`.
- *A type-index record that does not parse is never repaired*: a failed read ends the chain without a
  write (`UnreadableRegisterStays`). `TwoRoundsConvergeIff` says exactly when two rounds converge.
- *The size-limited encoder exceeds its limit exactly when the limit is below two bytes*
  (`EncodeTypesLimited`).

## Model

| member | source | states |
|---|---|---|
| RegistryRuns.RunKeepsInvariant | src/controller/service_registry.rs:134-661 | in every run, late results of older generations and Resets included, the state and the running jobs satisfy the whole registry invariant |
| RegistryRuns.RunTracksEvents | src/controller/service_registry.rs:229-292 | the bootstrapped flag, the generation, the relay state and the announced set equal references computed from the events alone; announced is exactly what the results of the current generation add up to |
| RegistryRuns.BootstrapGatesAnnouncing | src/controller/service_registry.rs:274-408 | until bootstrap completes after a Reset nothing is announced, in flight, scheduled, forced or retried, no current provider job runs and none is issued, although the retry loop does not test the flag |
| RegistryRuns.RelayGatesAnnouncing | src/controller/service_registry.rs:250-273 | without relay everything announced is in the forced-withdraw set and no announcement is issued; with relay the set is empty; its retry times belong to members |
| RegistryRuns.DownServicesLeave | src/controller/service_registry.rs:201-216 | an announced service whose backend is down has a deadline, is forced out, or is being withdrawn; a ready service has no deadline |
| RegistryRuns.TypeIndexIsKept | src/controller/service_registry.rs:410-437 | no announced type name is lost, the reconcile chain is single-flight, matches its running jobs one to one and never goes dormant once bootstrapped |
| RegistryRuns.KnownTypesOnlyGrow | src/controller/service_registry.rs:50-59 | no event removes a known type, a Reset included |
| RegistryRuns.JobsStayBounded | src/controller/service_registry.rs:735-742 | never do more than sixteen jobs run, nor more than configured, one being the least |
| RegistryRuns.MarksHaveJobs | src/controller/service_registry.rs:318-407 | in every run, late results included, a service marked in flight has a running job of the current generation |
| RegistryRuns.PumpConservesWork | src/controller/service_registry.rs:735-742 | after every pump below the limit each service that must leave (deadline passed while down, or forced out with no later retry time) or may enter has a running provider job of the current generation, and each due index step runs |
| RegistryRuns.IssuedRun | src/controller/service_registry.rs:735-742 | in every run each issued job is due at the time of its pump, has the current generation and runs afterwards |
| RegistryServices.ServicesAreIndependent | src/controller/service_registry.rs:189-635 | in every run all that the registry knows of a service, deadlines, retry times and failure count included, is what the events and jobs of that service alone make of it: 3 s of grace, waits of 5, 10, 20, 40, 60 s by consecutive announce failures, 5 s after a failed withdrawal |
| RegistryServices.IndexFollowsItsChain | src/controller/service_registry.rs:194-199 | in every run, step by step: what marks the index for a read, that a chain ends or writes by whether the known types differ from the record, and that the next one waits the sync interval, 30 s after a failure, or not at all if something changed |
| RegistrySchedule.PlanStartsOnlyDue | src/controller/service_registry.rs:294-440 | a pass starts a Withdraw only for a free service whose deadline passed while down or that is forced out with no later retry time, an Announce only for a free, ready, unannounced one with relay open and no later retry time, a read only if the index is dirty or its time has come |
| RegistrySchedule.PlanLeavesNothingDue | src/controller/service_registry.rs:294-440 | unless it uses every slot, a pass leaves nothing behind that these conditions, spelled out on the fields, call for |
| RegistrySchedule.PlanPriority | src/controller/service_registry.rs:294-440 | withdrawals come first and the index last: starting anything else means no due withdrawal is left, starting an index step that no provider work is |
| RegistrySchedule.PhasesServeInOrder | src/controller/service_registry.rs:316-408 | when slots run out, withdrawals and retries are served by name and announcements as configured, exactly the first ones that are due and free |
| RegistryInvariant.ResultKeeps | src/controller/service_registry.rs:442-633 | any result of any running job, of whatever generation, keeps the invariant |
| RegistryInvariant.MergeTypesFacts | src/controller/service_registry.rs:50-59 | merging only adds valid names, adds all of them unless the cap is reached, and never exceeds the cap |
| RegistryMarks.LateResultKeepsMarksIff | src/controller/service_registry.rs:449-452 | a late result breaks the match of marks and running jobs exactly when the service has a newer mark of the same kind |
| RegistryWitness.LoneNodes | src/controller/service_registry.rs:134-180 | the runs below exist for every valid service name, on a node with that one service and eight job slots |
| RegistryWitness.LateResultDoublesTheJob | src/controller/service_registry.rs:442-452 | the run connect, bootstrap, Reset, bootstrap, late result: two Announce jobs of one generation run for one service |
| RegistryMarks.MarksAreRunningJobs | src/controller/service_registry.rs:318-407 | without late results the marks are exactly the running provider jobs, disjoint, one job per service |
| RegistryGrace.GraceIsHonoured | src/controller/service_registry.rs:201-216 | without Reset and relay loss, a service announced when its backend went down leaves the announced set within three seconds only to be announced afresh or by a withdrawal already running at the disconnect |
| RegistryGrace.WithdrawsEarlyIff | src/controller/service_registry.rs:505-546 | while the grace lasts, a result can take the service out of the announced set exactly when a withdrawal was running at the disconnect and has not ended since |
| RegistryGrace.NoEarlyStart | src/controller/service_registry.rs:298-336 | no withdrawal is started within the grace period, nor for a service that is ready |
| RegistryWitness.CaughtIsReachable | src/controller/service_registry.rs:201-216 | a run in which a due withdrawal, a reconnect and a second disconnect end the announcement at the moment of the disconnect |
| RegistryActor.RegistryState.ReplaceBackendReady | src/controller/service_registry.rs:201-217 | the in-place update computes the specified state and touches nothing else |
| RegistryActor.RegistryState.HandleCommand | src/controller/service_registry.rs:229-292 | every command's in-place update computes the specified state |
| RegistryActor.RegistryState.PlanWithdrawLoop | src/controller/service_registry.rs:298-336 | the withdraw loop starts the sorted due services that are not in flight until the slots run out |
| RegistryActor.RegistryState.PlanRetryLoop | src/controller/service_registry.rs:338-368 | the retry loop starts the sorted due announce retries that are not in flight until the slots run out |
| RegistryActor.RegistryState.PlanAnnounceLoop | src/controller/service_registry.rs:370-408 | the announce loop follows the configured order |
| RegistryActor.RegistryState.PlanJobs | src/controller/service_registry.rs:294-440 | the loops together compute the specified plan and state |
| RegistryActor.RegistryState.MergeKnownTypes | src/controller/service_registry.rs:50-59 | the merging loop computes the specified union |
| RegistryActor.RegistryState.ApplyResult | src/controller/service_registry.rs:442-635 | applying a result in place computes the specified state |
| RegistryActor.ServiceRegistryActor.Pump | src/controller/service_registry.rs:735-742 | a pump spawns exactly the planned jobs |
| RegistryActor.ServiceRegistryActor.OnCommand | src/controller/service_registry.rs:796-854 | a command's turn of the loop is a step of the transition system |
| RegistryActor.ServiceRegistryActor.OnJobEnded | src/controller/service_registry.rs:796-854 | a finished job's turn is a step of the transition system |
| RegistryActor.ServiceRegistryActor.OnJobAborted | src/controller/service_registry.rs:796-854 | an aborted job's turn is a step of the transition system |
| RegistryActor.ServiceRegistryActor.OnReadiness | src/controller/service_registry.rs:796-854 | a readiness change's turn is a step of the transition system |
| TypesCodec.ArrayRoundTrip | src/controller/service_registry.rs:856-885 | the JSON array of any list of strings reads back as the list (sections 5 and 7 of RFC 8259) |
| TypesCodec.BlanksDoNotMatter | src/controller/service_registry.rs:878-885 | with any blanks between the tokens the array still reads as the list |
| TypesCodec.TypesRoundTrip | src/controller/service_registry.rs:878-885 | up to 4096 valid names read back unchanged |
| TypesCodec.EncodeTypesLimited | src/controller/service_registry.rs:856-876 | the binary search returns the longest prefix that fits; the result is within the limit exactly when the limit is at least two |
| TypesCodec.PublishedReadsBack | src/controller/service_registry.rs:856-885 | what is published reads back as exactly that prefix |
| TypesConvergence.ChainMerges | src/controller/service_registry.rs:548-585 | one reconcile chain leaves in node and record the union of what both held and what is announced |
| TypesConvergence.UnreadableRegisterStays | src/controller/service_registry.rs:548-585 | over any chains of any nodes a record that does not parse stays, and so does what every node knows |
| TypesConvergence.SomeTextIsUnreadable | src/controller/service_registry.rs:878-885 | the empty record does not parse, and a node announcing a name it does not know stays short of the union with it |
| TypesConvergence.TwoRoundsConverge | README.md:263 | two rounds of chains, in any order within each, bring every node and the record to the full union |
| TypesConvergence.TwoRoundsConvergeIff | README.md:263 | two rounds converge exactly when the record can be read or every node holds the union already |
| Names.Sort | src/controller/service_registry.rs:298-312 | sorting lists exactly the set, in strictly increasing byte order |
| Names.ServiceNamesAre | src/auth.rs:327-338 | valid are exactly 1 to 64 ASCII letters, digits, `_` and `-`, the reserved name excepted |
| DhtCache.Evict | src/dht_cache.rs:349-369 | what stays is within the limits or a single entry, is more recent than what went, and would be over the limits with the last victim back |
| DhtCache.EvictDropsShortestPrefix | src/dht_cache.rs:349-369 | with distinct access times exactly the shortest least-recently-used prefix goes |
| DhtCache.EvictIsUnique | src/dht_cache.rs:349-369 | with distinct access times the result does not depend on iteration order |
| DhtCache.StoredKeeps | src/dht_cache.rs:262-321 | a stored result keeps the limits, puts no lower version in place of a version, leaves the key with the content, version, size and time the result calls for, and changes no other entry |
| DhtCacheVersions.ReaderFinds | src/dht_cache.rs:262-339 | after any results, losses and reads a reader finds nothing, an empty entry, or what the version guard let through, as told from the events alone |
| DhtCacheVersions.HighestVersionWins | src/dht_cache.rs:262-339 | in any history a reader finds the highest version found since the key was last lost, known to be absent or found without a version and, of that version, the content that came first |
| DhtCacheVersions.HoldsHighestIff | src/dht_cache.rs:262-339 | the table holds the highest version ever found exactly when each version found was found again or exceeded since then |
| DhtCacheVersions.LowerVersionWins | src/dht_cache.rs:307-321 | for every key and all limits, an empty lookup or a loss of the key between two finds leaves the lower version in the table |
| DhtCacheVersions.RunsHoldHighestIff | src/dht_cache.rs:209-339 | the same in every interleaving of refreshes and invalidations, the results read off its store steps |
| DhtCacheVersions.WinnerIsEarliest | src/dht_cache.rs:262-290 | the winning find has the highest version found and is the first of that version |
| DhtCacheUse.RunsFollowTheirEvents | src/dht_cache.rs:243-339 | in every interleaving the whole entry of a key, error and access time included, is what the stores and reads of that key make of it |
| DhtCacheUse.SizesAreFetched | src/dht_cache.rs:295-321 | an entry has the content, version and size of the last find let through, or holds nothing and has size zero |
| DhtCacheUse.AccessIsLastUse | src/dht_cache.rs:243-248 | an entry's access time is that of the key's last store, conflict, error or read; a find held back as older does not count |
| DhtCacheUse.FetchedBytesAreBounded | src/dht_cache.rs:349-369 | in every interleaving from an empty cache the sizes fetched for the keys held add up to no more than the byte limit, unless one key is left |
| DhtCacheUse.LeastUsedGoFirst | src/dht_cache.rs:349-369 | in every interleaving a store that drops one key and keeps another drops one that was stored or read no later |
| DhtCache.Cache.constructor | src/dht_cache.rs:107-117 | an empty cache with limits of at least one |
| DhtCache.Cache.Access | src/dht_cache.rs:243-248 | a read returns the entry and only refreshes its access time |
| DhtCache.Cache.Reserve | src/dht_cache.rs:186-194 | exactly one caller gets to refresh a key that is not being refreshed |
| DhtCache.Cache.StoreResult | src/dht_cache.rs:227-240 | storing in place keeps the limits, follows the store rules, and leaves the key with the size of the find and the time of the store |
| DhtCache.Cache.DropKey | src/dht_cache.rs:167-171 | `invalidate` then removes the key's entry only, keeping the limits |
| DhtCache.Cache.ClearEntries | src/dht_cache.rs:176-179 | `invalidate_all` then empties the entries only |
| DhtCacheRuns.EmptyInv | src/dht_cache.rs:107-117 | a new cache satisfies the invariant from which all runs start |
| DhtCacheRuns.EveryRunIsBounded | src/dht_cache.rs:186-321 | in every interleaving at most one refresh per key runs, the in-flight table lists exactly their keys, and the entry and byte limits hold of the recorded sizes |
| DhtCacheRuns.PairUnchangedIff | src/dht_cache.rs:157-184 | until key generations are cleared, the (global, key) pair never falls and is unchanged exactly when no invalidation of the key or of everything began |
| DhtCacheRuns.PairComesBack | src/dht_cache.rs:174-184 | a run from the empty cache in which an invalidation of the key inside an `invalidate_all` leaves the pair as it was |
| DhtCacheRuns.DisciplinedRunsStayFresh | src/dht_cache.rs:157-260 | along every disciplined interleaving no entry comes from a fetch begun before a finished invalidation of its key |
| DhtCacheRuns.StepIsSafeIff | src/dht_cache.rs:157-260 | a step is safe for all disciplined continuations exactly when it is disciplined itself |
| DhtCacheRuns.RaceIsReachable | src/dht_cache.rs:174-240 | all three undisciplined windows are reachable from an empty cache for every key |
| ReplyFlow.TokensAreUnique | src/network/actor.rs:941-980 | a request's reply token lies in at most one place, once |
| ReplyFlow.DrainLinear | src/service_dispatcher.rs:602-605 | draining a table resolves exactly the requests whose token lay there |
| InboundRuns.TokensStayLinear | src/service_dispatcher.rs:465-627 | in every run at most one reply token per request exists anywhere |
| InboundRuns.RunTracksVerdicts | src/controller/node_controller.rs:271-386 | the recorded refusals and positive verdicts are those read off the run's states and steps |
| InboundRuns.AnsweredAtMostOnce | src/network/actor.rs:1500-1546 | no request is answered twice, or answered and still pending |
| InboundRuns.LeavesForGood | src/network/actor.rs:701-702 | a request out of the pending table at any point of a run is never in it again, and answers given by then stay given |
| InboundRuns.RefusalsKeepTheirText | src/controller/node_controller.rs:271-311 | a denied, overloaded or undeliverable request is told its own refusal or that the node reloads, never that its handler was dropped |
| InboundFates.FatesFollowTheSteps | src/service_dispatcher.rs:227-627 | in every run where each request's token lies and what it is resolved with is what the steps that touch it say, queue limits and texts written out |
| InboundFates.AnswersTellTheFate | src/network/actor.rs:961-979 | every other answer but a reload's is the backend's reply (success with its data or empty, failure with its error or "backend error"), the error of the step that gave the request up, or "request handler dropped" exactly when its token was dropped |
| InboundFates.WireFollowsTheSteps | src/network/actor.rs:1500-1546 | pending is exactly what has arrived and was not yet handled, closed or reloaded; on the wire is exactly the first reply handled while pending, unless it could not be sealed, or the reload's rejection |
| InboundFates.HubFollowsTheSteps | src/controller/node_controller.rs:271-311 | the workers' turn, closed workers, the dispatcher and the connected and ended backends are what the steps alone make of them |
| InboundRuns.OnlyAllowedReachBackends | src/controller/node_controller.rs:322-386 | only requests with a positive verdict are queued for or written to a backend, each once |
| InboundRuns.NoRequestIsLost | src/network/actor.rs:961-979 | for every pending request a token, a waiter or a queued reply exists |
| InboundRuns.ReloadRejectsAll | src/network/actor.rs:1680-1687 | a reload empties the table and tells every request whose reply can be sealed |
| InboundRouting.ReplyReachesItsRequest | src/service_dispatcher.rs:530-550 | in every run a reply resolves exactly the request last written to that backend under that wire id, if it still awaits one there, and no other |
| InboundRouting.RequestsAreRouted | src/service_dispatcher.rs:227-250 | every token keeps its request's service and payload, reaches only that service's backend, and in its table stands under the wire id it was last written with |
| Waiters.WaitersAreAccounted | src/network/actor.rs:375-417 | in every run each waiter is in one table entry, answered once, or dropped, also when ids are reused |
| Waiters.QueriesGather | src/network/actor.rs:841-869 | a waiting query holds exactly what was reported since it was opened |
| Waiters.RecordReplyIsComplete | src/network/actor.rs:841-869 | a record query is answered with all records in arrival order, and fails only on an error with none |
| Waiters.ProviderReplyIsUnion | src/network/actor.rs:419-462 | a provider query is answered with the union of its batches |
| WaiterReplies.WaitersAreToldIff | src/network/actor.rs:841-911 | in every run each waiter is told exactly what the steps say: all that was reported, the closest peers, success or the reported error of its own query, its request's reply, or that the swarm was reloaded |
| Waiters.DropsIff | src/network/actor.rs:841-911 | a sender is dropped unanswered exactly when a result of another kind, not a provider result, is reported for it |
| Waiters.ReloadFailsEach | src/network/actor.rs:1699-1707 | a reload tells each outstanding waiter once, sends nothing else, and empties every table |
| SwarmActor.Actor.OpenQuery | src/network/actor.rs:1243-1326 | a started query is entered in the table under its id, as the specified step |
| SwarmActor.Actor.HandleKadEvent | src/network/actor.rs:805-911 | the handler's removal and reinsertion make the specified step |
| SwarmActor.Actor.HandleOutbound | src/network/actor.rs:982-1008 | a response or failure answers and removes its request only |
| SwarmActor.Actor.SendResponse | src/network/actor.rs:1500-1546 | answers and removes a pending request, and nothing otherwise |
| SwarmActor.Actor.FailTable | src/network/actor.rs:1699-1707 | the draining loop notifies each waiter of the table once |
| SwarmActor.Actor.RejectInbound | src/network/actor.rs:1680-1687 | the draining loop rejects each pending request once |
| SwarmActor.Actor.Reload | src/network/actor.rs:1677-1727 | the loops together are the specified reload of all four tables |
| SwarmActor.AuthIntake.Enqueue | src/controller/node_controller.rs:271-311 | jobs go to the workers' queues in turn, are refused exactly when the queue is closed or holds 32, and no other queue changes |
| AuthRecords.KeyPathsAreInjective | src/auth.rs:130-141 | key paths determine network and service, and no service path is an index path |
| AuthRecords.VerifyIndexIff | src/auth.rs:234-255 | an index record verifies exactly when it is at most 1 MiB, opens under the authority for the path /oahd/auth/<hash>/service to a document of at most 10,000 entries, each with a valid name and a 32-byte hash, and has not expired |
| AuthRecords.VerifyWhitelistIff | src/auth.rs:257-275 | a whitelist record verifies exactly when it has the length and hash of the entry and opens under the authority for the service's path to a document of at most 100,000 members |
| AuthRecords.RecordsAreBoundToOnePlace | src/auth.rs:130-141 | where signatures bind the path, a record signed for one service of one network passes for no other and not as an index |
| AuthRecords.SelectIndex | src/controller/auth_gate.rs:162-185 | the loop computes the selection; a choice is signed for the index path and unexpired, newer than or equal to every such record, and nothing is chosen only if there is none |
| AuthRecords.SelectWhitelist | src/controller/auth_gate.rs:187-211 | the loop computes the selection over the whitelist records that verify for the index entry |
| AuthRecords.PickMeans | src/controller/auth_gate.rs:162-211 | selection fails exactly when a record disagrees with an earlier one of the highest version so far; otherwise it returns a record of the highest version with which all of that version agree |
| AuthRecords.SelectMeans | src/controller/auth_gate.rs:162-211 | a selection from records is one of the highest version among those that verify, with which all of that version agree; nothing is selected exactly when none verifies |
| AuthRecords.OrdersAgree | src/controller/auth_gate.rs:162-211 | two orders of the same records that both succeed choose the same document |
| AuthRecords.TopConflictAlwaysFails | src/controller/auth_gate.rs:162-211 | two differing records of the highest verified version make selection fail in every order of the records |
| AuthRecords.SucceedsInEveryOrderIff | src/controller/auth_gate.rs:162-211 | selection succeeds in every order of the records exactly when no two that verify with one version differ |
| AuthRecords.SelectedIndexIsVerified | src/controller/auth_gate.rs:162-185 | the same of the selection function, in terms of signatures and paths |
| AuthRecords.WhitelistsNeverConflict | src/controller/auth_gate.rs:187-211 | with an injective hash the conflict branch is never taken |
| AuthRecords.AuthVersions.CheckIndex | src/auth.rs:285-296 | accepts and records a version exactly when it is not below the last |
| AuthRecords.AuthVersions.CheckWhitelist | src/auth.rs:298-308 | accepts and records a service's whitelist version exactly when it is not below its last |
| AuthGateRuns.AllowIsBacked | src/controller/auth_gate.rs:299-373 | in every interleaving a call whose state read found authorization active and required ends in Allow only with an index signed for the index path of the network, unexpired, and a whitelist record signed for the service's path with the listed length and hash, naming the peer, both versions accepted, under the state's network unless a reload began meanwhile |
| AuthGateRuns.UnprotectedIsUnlisted | src/controller/auth_gate.rs:340-342 | a request let through as unprotected rests on an index so signed, unexpired and accepted, that does not list the service |
| AuthGateRuns.WaiversComeFromTheState | src/controller/auth_gate.rs:299-308 | in every run Allow without evidence comes from a state read that found authorization off or not required |
| AuthGateRuns.VersionsNeverGoBack | src/auth.rs:285-308 | between two clears a later accepted version is never lower |
| AuthDecisions.AuthorizeIff | src/controller/auth_gate.rs:299-373 | an undisturbed call is allowed exactly when authorization is off or not required, or the current caches hold an unexpired index that is no rollback and the whitelist its first entry binds, no rollback, naming the peer; it is unprotected exactly when such an index does not list the service |
| AuthDecisions.RefreshStoresIff | src/controller/auth_gate.rs:162-185 | a refresh of the index leaves the cache alone on a conflict, empties it when no record is signed and unexpired, and stores the newest one exactly when the cached one is older or the same |
| AuthDecisions.ReloadForgetsIff | src/controller/auth_gate.rs:264-295 | after any run a reload keeps the version history exactly when the trust domain stays, and an active state's caches exactly then |
| AuthDomains.VersionsAreOwnIff | src/controller/auth_gate.rs:264-295 | the versions accepted since the last clear all belong to the current trust domain exactly when no call has had one accepted from the caches of another since |
| AuthDomains.ForeignIff | src/controller/auth_gate.rs:299-361 | an accepted version is of another domain than the table's exactly when the caches current at its call's taking of them were |
| AuthDomains.ForeignCallsAreStale | src/controller/auth_gate.rs:278-288 | outside a reload such a call holds caches that are no longer current |
| AuthDomains.StaleCallLocksOutNewDomain | src/controller/auth_gate.rs:325-338 | a run in which a call of the old domain is accepted after the reload and the new domain's lower version is denied as a rollback |
| AuthGateRuns.RunKeepsInvariant | src/controller/auth_gate.rs:264-295 | through all reloads caches hold only documents signed for their network and path, and the current caches belong to the state or the one being set |
| Frames.ChunksDoNotMatter | src/sidecar_protocol.rs:240-257 | for any byte stream, valid or not, the messages and the first error do not depend on how it is cut, nor, without an error, do the left-over bytes |
| Frames.MessagesSurviveAnyChunking | src/sidecar_protocol.rs:209-268 | the frames of any encodable messages, cut anyhow, are read back exactly with no bytes left |
| Frames.DecodeOneIff | src/sidecar_protocol.rs:240-257 | on the bytes: waits exactly while no frame is complete, refuses a big-endian length above 16 MiB as soon as four bytes are there, and otherwise takes exactly the first frame |
| Frames.EncodeFrameIff | src/sidecar_protocol.rs:209-219 | a message is framed exactly when its body is at most 16 MiB, and the frame carries it after its big-endian length |
| Frames.ReaderSeesWhatIsSpelled | src/sidecar_protocol.rs:240-257 | the messages read from any bytes are those of the frames they spell, up to the first incomplete, oversized or undecodable one |
| Frames.SidecarCodec.DecodeNext | src/sidecar_protocol.rs:240-257 | an incomplete frame consumes nothing; a complete one exactly itself |
| Frames.SidecarCodec.Append | src/sidecar_protocol.rs:263-268 | refuses exactly what does not encode or is too large, leaving the buffer alone; otherwise what the buffer held is read back followed by the message |
| RelayModel.RelaysStayConsistent | src/controller/relay_manager.rs:101-257 | in every run active and pending are disjoint, failure counts and deadlines have the same keys, none of them active |
| RelayModel.TickTopsUp | src/controller/relay_manager.rs:167-220 | attempts go to distinct bootstrap peers that are not this node, active, pending or in back-off; the load stays within three, the candidates, or what it was, and falls short only when no candidate is eligible |
| RelayModel.CandidatesAre | src/controller/relay_manager.rs:179-189 | candidates are exactly the bootstrap peers other than this node, once each |
| RelayModel.DelayIsMonotone | src/controller/relay_manager.rs:250-273 | the wait never shrinks with more consecutive failures |
| RelayModel.FailuresAccumulate | src/controller/relay_manager.rs:243-257 | a failure record is dropped only by a confirmation or a reset and otherwise never falls |
| RelayPeers.PeersAreIndependent | src/controller/relay_manager.rs:101-273 | in every run active, pending since, failure count and back-off of a peer are what the events and attempts that name it make of it: 30, 60, 120, 240, 480, 600 s by failures in a row, 3600 s from the configured maximum on |
| RelayPeers.ActiveIff | src/controller/relay_manager.rs:101-163 | in every run a peer is active exactly when it was confirmed and since then neither a circuit address of it closed nor everything reset |
| RelayPeers.PendingIff | src/controller/relay_manager.rs:167-239 | a peer is pending, from the time of an attempt, exactly when that attempt started and was since neither confirmed, closed, timed out nor reset |
| RelayPeers.TicksTryInOrder | src/controller/relay_manager.rs:190-220 | a tick tries the eligible candidates from the first on, and all of them while the load stays below three and below their number |
| RelayPeers.CandidatesInOrder | src/controller/relay_manager.rs:179-189 | candidates come in the order the configuration first names them |
| RelayManager.Manager.OnCircuitReady | src/controller/relay_manager.rs:101-113 | a circuit to another peer makes it active and clears its record; tells whether it is new |
| RelayManager.Manager.OnReservationAccepted | src/controller/relay_manager.rs:116-138 | makes the peer active and clears its pending entry, failures and back-off |
| RelayManager.Manager.RecordFailure | src/controller/relay_manager.rs:243-257 | counts a failure and sets the matching deadline |
| RelayManager.Manager.OnListenerClosed | src/controller/relay_manager.rs:141-163 | the loop fails each tracked relay among the addresses, and reports a loss exactly when an address named an active or pending relay when its turn came |
| RelayManager.Manager.ExpirePending | src/controller/relay_manager.rs:223-239 | the loop fails exactly the reservations that timed out, each once |
| RelayManager.Manager.CollectCandidates | src/controller/relay_manager.rs:179-189 | the deduplicating loop lists the candidates in configured order |
| RelayManager.Manager.DoTick | src/controller/relay_manager.rs:167-220 | the tick's loops compute the specified attempts and state |

## Left out

- The libp2p swarm, Kademlia routing, transports and behaviours: an arbitrary source of events.
- Cryptography (COSE, ed25519, SHA-256, post-quantum sealing) and CBOR: arbitrary functions or outcomes.
- Clocks, timers, TCP connects and handshakes, DHT results and scheduling: nondeterministic inputs.
- Task panics, poisoned mutexes and process shutdown; a registry job that panics would leave its mark.
- Counter wrap-around: runs have fewer than 2^64 Resets and cache invalidations, fewer than 2^32 failures per relay.
- The registry's and the relay manager's configuration is fixed during a run; the job's record key is a function of its service.
- Relaxed memory order of the cache's global generation: atomic accesses are taken as sequentially consistent.
- UTF-8 decoding of the type-index record: text is a sequence of code points.
- Request ids, wire ids and query ids between reloads are fresh.
- Dispatcher, backend tasks, auth workers and waiter tasks are steps on values rather than objects, as several of them interleave; replies to a backend's own calls appear only as entries that fill its queue.
- A refresh's fetched content is chosen at its store step; the watch channel that reports it to `get` is not modelled.
- Eviction and the rollback invalidation of the auth caches are free steps that drop entries at any time.
- The requests of the old swarm that a reload rejects while draining it never enter the pending table.
- Configuration, control commands, bootstrap discovery, peer tracking, logging, snapshots and status queries: they would only add easy members.
