# Verified model of the rebar runtime and cluster

This project models the parts of rebar where state and ordering matter, and proves
what they promise over every run.

- **GenStage** (`StageDispatch`, `StageLoop`, `StageNetwork`, `StageCredit`, `StageRuns`,
  `StageOrder`, `StageFlow`, `StageLimits`, `StageStall`, `StageCancel`, `StageTerms`):
  demand-driven producers and consumers. A network of stages with channels between them is
  a state machine; each step is one stage handling one command. User callbacks are
  arbitrary, and a channel may be open, full or closed.
- **GenStatem** (`Statem`, `StatemRuns`): the event loop with postponed events, internal
  events, enter events and three kinds of timeout.
- **Name registry** (`OrSet`, `OrSetRegistry`): an observed-remove set with tombstones, a
  tombstone cap and last-writer-wins lookup.
- **Application manager** (`TopoSort`, `AppManager`): dependency sorting, starting with
  rollback, stopping in reverse order.
- **SWIM** (`SwimMembers`, `SwimDetector`, `SwimGossip`, `SwimService`, `SwimRuns`,
  `SwimTimers`, `SwimBurials`, `SwimNews`): membership, failure detection and
  gossip of one node that receives arbitrary envelopes.
- **Coordinator** (`Coordinator`, `CoordinatorChoice`, `CoordinatorRuns`, `CoordinatorFlights`,
  `CoordinatorPool`): least-loaded dispatch with failover, and the life of every submitted task.
- **Wire** (`Wire`): frames and addressing headers.

Each component has a specification on values, with a step function or relation and
theorems about all its runs, and a class or method in the form of the original whose
contract ties it to that specification.

## Reading the model

- User code (stage callbacks, `handle_event`, whether an application's `start` succeeds) is
  a parameter and unconstrained.
- Time is a number, random choice and hash-map order are left open, tags are unique.
- Counters are unbounded unless the original saturates or wraps and it matters: SWIM
  incarnations, failed-probe counts, load scores, buffer and tombstone caps are exact.
- Where a tempting claim is false of the code, a lemma shows when it fails and another
  says exactly when it holds: full channels and cancels (`StageLimits`), stalling
  (`StageStall`), early cancels (`StageCancel`), failover (`CoordinatorRuns`), tombstone
  cap, expiry and lookup ties (`OrSet`), recorded winners (`OrSetRegistry`), the order of
  stopping (`AppManager`), merging and seeding (`SwimMembers`, `SwimRuns`), refuted
  suspicions (`SwimTimers`), postponed calls (`StatemRuns`).

Where code and documentation disagree, the model follows the code:

- `NextEvent` is documented to insert at the front of the queue
  (crates/rebar-core/src/gen_statem/types.rs:63); the code appends at the back.
- A conflict's `winner` is documented as what `lookup` resolves to
  (crates/rebar-cluster/src/registry/orset.rs:31); on equal keys it is not.
- A postponed call is documented as staying answerable
  (crates/rebar-core/src/gen_statem/engine.rs:194-198); the code drops it.

## Model

| member | source | states |
|---|---|---|
| `StageRuns.CreditConservation` | crates/rebar-core/src/gen_stage/engine.rs:599-813 | over every interleaving of any network of stages with open channels: for every subscription not cancelled and not asked by hand, the consumer's outstanding demand equals asks in transit plus the producer's pending demand plus events in transit |
| `StageRuns.WindowNeverExceeded` | crates/rebar-core/src/gen_stage/engine.rs:599-643 | in every reachable state outstanding demand is at most `max_demand`, no batch in transit exceeds it (so the saturating subtraction never saturates), and the producer's record of it is at most `max_demand` too |
| `StageRuns.ConsumerNeverStalls` | crates/rebar-core/src/gen_stage/engine.rs:783-802 | an automatic pure consumer always has demand outstanding and `outstanding + pending events = max_demand`, for all options including `min_demand > max_demand` |
| `StageRuns.ReaskWindow` | crates/rebar-core/src/gen_stage/engine.rs:783-802 | a re-ask never widens the window, and a full window is full again exactly when the downstream room does not limit the re-ask |
| `StageCredit.HandleBalanced` | crates/rebar-core/src/gen_stage/engine.rs:551-813 | every handler, for every stage type, dispatcher and callback result, changes a subscription's balance by exactly the credit it sends minus the credit it consumes |
| `StageFlow.EmissionOrder` | crates/rebar-core/src/gen_stage/engine.rs:323-381 | in every run, what a stage routed or lost to overflow, in order, followed by its buffer, is exactly what it emitted; while events wait nothing more could be sent |
| `StageFlow.DemandKeepsEvents` | crates/rebar-core/src/gen_stage/dispatcher.rs:83-109 | in every run of a sequential stage each emitted event is in exactly one subscription, lost to overflow, or buffered, and a non-empty buffer means no consumer has demand |
| `StageFlow.ConsumerSeesEmissionOrder` | crates/rebar-core/src/gen_stage/engine.rs:711-745 | end to end in every run, what a consumer handled followed by what is in its channel is what its producer routed to it, in emission order |
| `StageFlow.BroadcastAgreement` | crates/rebar-core/src/gen_stage/dispatcher.rs:137-185 | in every run without cancel or overflow, what a broadcast subscriber handled, what is on its way and the buffer together are everything emitted since it joined |
| `StageFlow.HandleFlow` | crates/rebar-core/src/gen_stage/engine.rs:711-745 | what a handler sends on each subscription is what its log routes there, in order |
| `StageOrder.HandleAccounted` | crates/rebar-core/src/gen_stage/engine.rs:323-381 | every handler accounts for its events in emission order, overflow included; only an unsafe cancel loses the settled state |
| `StageOrder.CancelSettled` | crates/rebar-core/src/gen_stage/engine.rs:657-680 | a cancel leaves the stage settled if and only if it is safe: sequential, or nothing is held back that the remaining subscribers could take |
| `StageCancel.CancelStep` | crates/rebar-core/src/gen_stage/engine.rs:657-680 | a stage that is one end of a subscription lets go of it, tells exactly the other end, and changes nothing else; with nothing on record it does nothing |
| `StageCancel.CancelReachesBothEnds` | crates/rebar-core/src/gen_stage/engine.rs:657-680 | over every run, an end has let go of a subscription if and only if some step handled a cancel there with the subscription on record, and then the other end has let go too or has a cancel waiting behind any confirmation |
| `StageCancel.BothEndsOrNeither` | crates/rebar-core/src/gen_stage/engine.rs:657-680 | whenever nothing about a subscription is in transit, both ends have it or neither does |
| `StageCancel.DoneSendsNothing` | crates/rebar-core/src/gen_stage/engine.rs:688-813 | an end that has let go sends no more events (producer) or asks (consumer) on the subscription, in any run |
| `StageCancel.CancelTakesIff` | crates/rebar-core/src/gen_stage/engine.rs:657-680 | handling a cancel ends the subscription at that end if and only if the request, and at the consumer the confirmation too, was handled before |
| `StageCancel.NoCancelIsLost` | crates/rebar-core/src/gen_stage/engine.rs:134-170 | in every run in which nobody cancels before `subscribe` returned, every cancel ends the subscription at the end that handles it |
| `StageCancel.EarlyCancelIsLost` | crates/rebar-core/src/gen_stage/engine.rs:657-680 | a run in which a cancel that overtakes the confirmation is lost and the subscription becomes active |
| `StageTerms.NegotiatedAsAsked` | crates/rebar-core/src/gen_stage/engine.rs:599-643 | over every run, the window on record for a subscription is the one its subscriber asked for, at least one event wide and with the threshold inside it; in manual mode nothing is counted |
| `StageTerms.ClosedConsumerIsDropped` | crates/rebar-core/src/gen_stage/engine.rs:520-535 | a dispatch drops a consumer and its demand if and only if its channel is closed and the batch has something for it, read off the recorded demand |
| `StageTerms.ClosedProducerIsDropped` | crates/rebar-core/src/gen_stage/engine.rs:688-812 | an ask to a closed producer drops it at once; events do if and only if the threshold is reached and there is something to ask for |
| `StageLimits.FullChannelLosesCredit` | crates/rebar-core/src/gen_stage/engine.rs:822-858 | a dispatch charges a consumer whose channel is not closed exactly what it sends if and only if the channel is open or the recorded demand leaves the consumer nothing: it has none, earlier demand absorbs the batch (sequential), or somebody has none (broadcast) |
| `StageLimits.FullChannelKeepsOrderIff` | crates/rebar-core/src/gen_stage/engine.rs:353-370 | events held back by a full channel go behind the leftover of their batch; what stays in the buffer is in emission order if and only if, by demand and channels alone, all of the batch fits or nothing is held back (sequential), or nothing goes out, no channel is shut, or just one is and the batch fits (broadcast) |
| `StageLimits.UnservedIff` | crates/rebar-core/src/gen_stage/dispatcher.rs:83-185 | whether a consumer gets anything of a batch can be read off the recorded demand |
| `StageLimits.UnsafeCancelOvertakes` | crates/rebar-core/src/gen_stage/engine.rs:665-671 | after a cancel on a broadcast stage that holds events back, the next emission waits behind them if and only if the cancel was safe |
| `StageStall.ReaskStallsIff` | crates/rebar-core/src/gen_stage/engine.rs:783-802 | a re-ask leaves nothing outstanding if and only if the batch uses up the window and the threshold is not reached or there is no room downstream |
| `StageStall.HandleStallsIff` | crates/rebar-core/src/gen_stage/engine.rs:749-813 | handling a batch leaves nothing outstanding if and only if it uses up the window and either stays below the threshold or, in a producer-consumer, what is forwarded uses up all demand of its own consumers |
| `StageStall.StepStallsIff` | crates/rebar-core/src/gen_stage/engine.rs:390-486 | after any step of any reachable network an undisturbed automatic subscription is stalled if and only if it was before or the step is its consumer using up the window in that way |
| `StageStall.StalledIffSomeStepStalled` | crates/rebar-core/src/gen_stage/engine.rs:783-802 | over every run, an undisturbed subscription (not cancelled, not asked by hand) is stalled at the end if and only if some step of the run met that guard |
| `StageStall.StallIsForever` | crates/rebar-core/src/gen_stage/engine.rs:688-813 | however a run goes on, a stalled subscription that stays undisturbed has nothing outstanding and its consumer handles nothing more, whatever is asked for further downstream |
| `StageStall.StallsWhenServed` | crates/rebar-core/src/gen_stage/engine.rs:790-801 | a run whose last step stalls it: forwarding the one event wanted downstream leaves no room to ask |
| `StageStall.StallsBelowThreshold` | crates/rebar-core/src/gen_stage/engine.rs:783-790 | a run that stalls below the threshold while an event is still wanted downstream |
| `StageDispatch.DispatchConservesDemand` | crates/rebar-core/src/gen_stage/dispatcher.rs:83-185 | for both dispatchers, what a consumer's pending demand loses is exactly the number of events it is handed |
| `StageDispatch.DemandDispatchSplits` | crates/rebar-core/src/gen_stage/dispatcher.rs:83-109 | sequential deliveries concatenated, then the leftover, are the batch |
| `StageDispatch.DemandDispatchExhausts` | crates/rebar-core/src/gen_stage/dispatcher.rs:83-109 | events are left over only when every consumer is out of demand |
| `StageDispatch.BroadcastDispatchSplits` | crates/rebar-core/src/gen_stage/dispatcher.rs:137-185 | every subscriber gets the same prefix, as long as the least demand, and the rest is kept |
| `StageDispatch.LeftoverMeansSaturated` | crates/rebar-core/src/gen_stage/dispatcher.rs:83-185 | whatever is left over, nothing of a further batch could leave afterwards |
| `StageLoop.LoopState.DispatchByDemand` | crates/rebar-core/src/gen_stage/dispatcher.rs:83-109 | the draining loop computes the sequential dispatch that conserves demand and order |
| `StageLoop.LoopState.DispatchToAll` | crates/rebar-core/src/gen_stage/dispatcher.rs:137-185 | the loop computes the broadcast dispatch: one common prefix for all |
| `StageLoop.LoopState.PushLeftover` | crates/rebar-core/src/gen_stage/engine.rs:323-339 | leftover goes behind the buffer and the oldest events beyond the cap are dropped |
| `StageLoop.LoopState.DispatchAndDeliverEvents` | crates/rebar-core/src/gen_stage/engine.rs:353-370 | dispatch, delivery and buffering have the effect the run theorems are about, for open, full and closed channels |
| `StageLoop.LoopState.DeliverEvents` | crates/rebar-core/src/gen_stage/engine.rs:822-858 | only open channels carry events, full ones give their batch back, closed ones are reported |
| `StageLoop.LoopState.CleanupDeadDownstreams` | crates/rebar-core/src/gen_stage/engine.rs:520-535 | exactly the dead subscriptions lose their downstream and demand records |
| `StageLoop.LoopState.OnSubscribe` | crates/rebar-core/src/gen_stage/engine.rs:551-593 | a request creates the downstream and demand records and is confirmed |
| `StageLoop.LoopState.OnConfirmed` | crates/rebar-core/src/gen_stage/engine.rs:599-643 | a confirmation opens the negotiated window and asks for it in automatic mode |
| `StageLoop.LoopState.OnCancel` | crates/rebar-core/src/gen_stage/engine.rs:657-680 | the in-place form of the cancel that the theorems of `StageCancel` are about |
| `StageLoop.LoopState.OnAsk` | crates/rebar-core/src/gen_stage/engine.rs:688-746 | demand drains the buffer before new events are produced |
| `StageLoop.LoopState.OnEvents` | crates/rebar-core/src/gen_stage/engine.rs:749-813 | events are forwarded by a producer-consumer and then replenished |
| `StageLoop.LoopState.ReplenishUpstream` | crates/rebar-core/src/gen_stage/engine.rs:783-802 | the re-ask of the window |
| `StageLoop.LoopState.HandleCommand` | crates/rebar-core/src/gen_stage/engine.rs:390-486 | one iteration of the loop is the handler function whose runs are proved safe |
| `StatemRuns.ArrivalOrder` | crates/rebar-core/src/gen_statem/engine.rs:169-192 | in every run, for any `handle_event`, the postponed events followed by the waiting external events are strictly increasing in arrival order, over any number of postponements and state changes |
| `StatemRuns.NoEventLost` | crates/rebar-core/src/gen_statem/engine.rs:158-288 | in every run each accepted external event is in exactly one place: finished, postponed, queued, or dropped, and only postponed calls are dropped; what waits keeps its type and payload |
| `StatemRuns.PostponeKeepsIff` | crates/rebar-core/src/gen_statem/engine.rs:516-528 | a handler that postpones an external event gets it back if and only if it is not a call |
| `StatemRuns.PostponedSinceChange` | crates/rebar-core/src/gen_statem/engine.rs:560-578 | everything on the postponed list was postponed since the last state change |
| `StatemRuns.TimerRunsIff` | crates/rebar-core/src/gen_statem/engine.rs:540-707 | in every run a state, event or generic timer runs with a payload if and only if some step set it so and nothing since set, cancelled or fired it, changed the state (state timeout) or brought an external event (event timeout) |
| `StatemRuns.FiredTimeoutInScope` | crates/rebar-core/src/gen_statem/engine.rs:207-237 | a timeout of any kind that fires was set by an earlier step with the payload it fires with, and was neither set again, cancelled, fired nor out of scope since |
| `StatemRuns.EnterComesNext` | crates/rebar-core/src/gen_statem/engine.rs:560-578 | with enter enabled, the next event handled after a state change is that change's enter event |
| `StatemRuns.PendingAfter` | crates/rebar-core/src/gen_statem/engine.rs:496-638 | what is pending after a step is the postponed events, the kept event, then the rest of the queue, whether or not the state changed |
| `StatemRuns.StateAndData` | crates/rebar-core/src/gen_statem/engine.rs:496-638 | in every run the state is the one the last `NextState` asked for and the data what the last result with data handed back, or the initial ones; the machine has stopped if and only if its last step stops it |
| `StatemRuns.NextStepIff` | crates/rebar-core/src/gen_statem/engine.rs:158-237 | exactly what can come next in a run: nothing once stopped, the queue first, then external events or a timer that is set and was left alone since |
| `StatemRuns.EnterComesFirst` | crates/rebar-core/src/gen_statem/engine.rs:158-192 | with enter enabled, the first event of all is the enter event of the initial state |
| `Statem.Engine.ProcessActions` | crates/rebar-core/src/gen_statem/engine.rs:644-707 | actions run in order, internal events go to the back, and the result says whether one was a postponement |
| `Statem.Engine.ApplyResult` | crates/rebar-core/src/gen_statem/engine.rs:496-638 | the five results: which state and data follow, whether the machine stops, and the queues and timers the run theorems are about |
| `Statem.Engine.Settle` | crates/rebar-core/src/gen_statem/engine.rs:516-558 | the event joins the postponed list unless it is a call |
| `Statem.Engine.Advance` | crates/rebar-core/src/gen_statem/engine.rs:158-333 | one iteration of the loop is the step function whose runs are proved |
| `OrSet.Convergence` | crates/rebar-cluster/src/registry/orset.rs:303-346 | two replicas that merged the same deltas, in any order and with any repetition, hold the same live entries and tombstones, as long as the distinct removes fit the cap |
| `OrSet.MergeAllOutcome` | crates/rebar-cluster/src/registry/orset.rs:93-134 | merging deltas in any order leaves the adds whose tag is not removed, and the union of tombstones |
| `OrSet.ConvergesIffUnderCap` | crates/rebar-cluster/src/registry/orset.rs:136-149 | arrival order is irrelevant if and only if the distinct removed tags fit the cap |
| `OrSet.OverCapDiverges` | crates/rebar-cluster/src/registry/orset.rs:136-149 | beyond the cap there are two arrival orders of the same deltas that disagree |
| `OrSet.ExpiryHarmlessIff` | crates/rebar-cluster/src/registry/orset.rs:156-161 | while the tombstone cap is not reached, merging any further deltas after forgetting the oldest tombstones gives the same live entries if and only if no later add carries a forgotten tag that is not removed again; otherwise exactly those entries come back |
| `OrSet.FullSyncIsJoin` | crates/rebar-cluster/src/registry/orset.rs:369-388 | merging a replica's full sync gives the union of live entries minus the union of tombstones |
| `OrSet.JoinLaws` | crates/rebar-cluster/src/registry/orset.rs:303-346 | that join is commutative, associative and idempotent |
| `OrSet.TwoWaySyncAgrees` | crates/rebar-cluster/src/registry/orset.rs:369-388 | after each side merges the other's full sync both know the same |
| `OrSet.WinnerIsHighest` | crates/rebar-cluster/src/registry/orset.rs:202-210 | the winner has the highest timestamp, among those the highest node, and is the last to arrive of its key |
| `OrSet.LookupAgrees` | crates/rebar-cluster/src/registry/orset.rs:202-210 | replicas with the same entries agree on the winner's (timestamp, node), and on the entry when keys are distinct |
| `OrSet.LookupStableIff` | crates/rebar-cluster/src/registry/orset.rs:350-354 | lookup is independent of arrival order if and only if the highest key is unique |
| `OrSetRegistry.RecordedWinnerIff` | crates/rebar-cluster/src/registry/orset.rs:324-337 | the winner a merge records is what lookup resolves to if and only if the keys differ |
| `OrSetRegistry.ConflictRecordedIff` | crates/rebar-cluster/src/registry/orset.rs:303-338 | an add records a conflict, once and between the two registrations, if and only if it takes effect and another process resolved the name before |
| `OrSetRegistry.Conflict` | crates/rebar-cluster/src/registry/orset.rs:324-337 | winner and loser are the two registrations; the newer wins, then the higher node, then the earlier one |
| `OrSetRegistry.SameLiveSameLookup` | crates/rebar-cluster/src/registry/orset.rs:202-210 | registries with the same live entries resolve every name to the same (timestamp, node), and to the same entry when keys are distinct |
| `OrSetRegistry.TwoWaySync` | crates/rebar-cluster/src/registry/orset.rs:303-388 | while the tombstone cap is not reached, after two registries merge each other's full sync both know the join of what they knew and every lookup agrees on (timestamp, node) |
| `OrSetRegistry.Registry.EnforceTombstoneCap` | crates/rebar-cluster/src/registry/orset.rs:136-149 | exactly the oldest tombstones beyond the cap go |
| `OrSetRegistry.Registry.BuryTag` | crates/rebar-cluster/src/registry/orset.rs:93-113 | a tag is buried once and keeps its age; a tombstone without a name gains the one given, any other keeps its own, and no other tombstone changes |
| `OrSetRegistry.Registry.ExpireTombstones` | crates/rebar-cluster/src/registry/orset.rs:156-161 | exactly the tombstones up to the generation go, which are the oldest ones |
| `OrSetRegistry.Registry.ReapTag` | crates/rebar-cluster/src/registry/orset.rs:117-134 | exactly the entries of that tag go, whatever name they are under |
| `OrSetRegistry.KeepInOrder` | crates/rebar-cluster/src/registry/orset.rs:117-134 | what a reaping keeps stays in the order it came, which decides ties in lookup |
| `OrSetRegistry.Registry.Lookup` | crates/rebar-cluster/src/registry/orset.rs:202-210 | a result exists if and only if the name is registered; it is a live entry of that name, and every other is older, or as old and of no higher node |
| `OrSetRegistry.Registry.Register` | crates/rebar-cluster/src/registry/orset.rs:181-195 | registering is merging an add under a fresh tag |
| `OrSetRegistry.Registry.MergeAdd` | crates/rebar-cluster/src/registry/orset.rs:303-338 | an add takes effect unless its tag is buried or present; a second process for the name is recorded |
| `OrSetRegistry.Registry.MergeRemove` | crates/rebar-cluster/src/registry/orset.rs:339-344 | a remove buries the tag and reaps its entry |
| `OrSetRegistry.Registry.MergeDelta` | crates/rebar-cluster/src/registry/orset.rs:303-346 | merging a delta in place is the merge the convergence theorem is about |
| `OrSetRegistry.Registry.MergeDeltas` | crates/rebar-cluster/src/registry/orset.rs:303-346 | merging a stream in place is the merge of the stream |
| `OrSetRegistry.Registry.Unregister` | crates/rebar-cluster/src/registry/orset.rs:216-231 | the returned deltas, merged into the registry as it was, have the effect the call has locally |
| `OrSetRegistry.Registry.GenerateDeltas` | crates/rebar-cluster/src/registry/orset.rs:369-388 | the deltas are a full sync: all live entries and all buried tags |
| `TopoSort.TopologicalSort` | crates/rebar-core/src/application/manager.rs:346-404 | terminates; succeeds if and only if everything reachable is registered and acyclic; the order has no duplicates, is exactly the reachable set and puts dependencies first; errors name a real cycle or a reachable unregistered application |
| `TopoSort.DepsFirstAcyclic` | crates/rebar-core/src/application/manager.rs:346-404 | a list with dependencies first leaves no room for a cycle |
| `TopoSort.StartOrderMeansSortable` | crates/rebar-core/src/application/manager.rs:346-404 | a start order exists only if everything reachable is registered and acyclic |
| `AppManager.StopAllStopsUsersFirst` | crates/rebar-core/src/application/manager.rs:304-321 | in every sequential run in which no call started an application that a running one already depended on, reverse start order stops every application before each of its running dependencies |
| `AppManager.NextKeepsUsersLaterIff` | crates/rebar-core/src/application/manager.rs:99-321 | a call keeps that order if and only if it starts nothing that a running application already depends on |
| `AppManager.StartKeepsUsersLaterIff` | crates/rebar-core/src/application/manager.rs:146-193 | the same for one start |
| `AppManager.EnsureKeepsUsersLaterIff` | crates/rebar-core/src/application/manager.rs:206-229 | the same for all that an ensure starts |
| `AppManager.StopKeepsUsersLater` | crates/rebar-core/src/application/manager.rs:260-287 | a stop never breaks that order |
| `AppManager.StopsUsersFirstIff` | crates/rebar-core/src/application/manager.rs:304-321 | reverse start order stops users first if and only if users started after their running dependencies |
| `AppManager.WithoutStopsUsersFirst` | crates/rebar-core/src/application/manager.rs:304-321 | in every run without individual stops all dependencies of running applications run and users stop first |
| `AppManager.StopKeepsOrderIff` | crates/rebar-core/src/application/manager.rs:260-287 | stopping one application leaves every other with all its dependencies running and started before it if and only if none of them depends on it |
| `AppManager.RestartedDependencyStopsFirst` | crates/rebar-core/src/application/manager.rs:260-321 | a run in which a stopped dependency is restarted behind its user and then stopped before it; up to the restart the order is still right |
| `AppManager.NextKeeps` | crates/rebar-core/src/application/manager.rs:99-321 | every call keeps the running set and start order consistent; all but a stop of something needed keep dependencies running |
| `AppManager.ApplicationManager.Start` | crates/rebar-core/src/application/manager.rs:99-140 | a start succeeds if and only if the application is registered, not running, has all its dependencies running and its own start succeeds; otherwise the manager is unchanged and the reason is exact, a missing dependency being the first in declaration order |
| `AppManager.ApplicationManager.StartReserved` | crates/rebar-core/src/application/manager.rs:146-193 | a reserved start succeeds if and only if all dependencies run and the application's own start succeeds; the first dependency that is not running is reported |
| `AppManager.ApplicationManager.EnsureAllStarted` | crates/rebar-core/src/application/manager.rs:206-229 | everything the application needs runs afterwards if and only if it can be sorted and every application that was not running starts; otherwise nothing has changed, and the one reported is needed, was not running and failed |
| `AppManager.ApplicationManager.RollBack` | crates/rebar-core/src/application/manager.rs:220-222 | stopping what this call started, last first, restores the manager exactly |
| `AppManager.ApplicationManager.Stop` | crates/rebar-core/src/application/manager.rs:260-287 | the application leaves the running set and the start order; anything else is NotFound |
| `AppManager.ApplicationManager.StopAll` | crates/rebar-core/src/application/manager.rs:304-321 | everything stops, in exactly the reverse start order, without error |
| `SwimRuns.SelfNeverLost` | crates/rebar-cluster/src/swim/service.rs:150-453 | in every run with arbitrary envelopes the node stays in its own list, Alive, at its own incarnation, which never goes back; it is never timed, probed or suspected by itself |
| `SwimRuns.ChallengeIsAnswered` | crates/rebar-cluster/src/swim/member.rs:158-202 | for every Suspect, Dead or Leave about the node in an envelope that is not stale, the node's current Alive is queued; it outranks the rumour if and only if the rumour is below `u64::MAX` |
| `SwimRuns.DeathNeedsEvidenceInRuns` | crates/rebar-cluster/src/swim/detector.rs:76-128 | in every run each newly dead node had at least `1 + indirect_probe_count` failed probes since its last ack or expiry, the threshold was reached at least the timeout before, and no ack came since |
| `SwimRuns.PeersNeverGoBack` | crates/rebar-cluster/src/swim/member.rs:36-91 | while a peer stays listed, over any periods and envelopes, its incarnation never goes back and it leaves Dead only for a strictly higher incarnation that an envelope vouched for |
| `SwimTimers.DeclaredDeadExactlyWhen` | crates/rebar-cluster/src/swim/detector.rs:57-128 | over every run, a period declares a node dead if and only if a period at least the timeout before started its timer and the node was neither heard from nor declared dead since; gossip does not enter |
| `SwimTimers.OnlyAnAckSavesASuspect` | crates/rebar-cluster/src/swim/detector.rs:57-128 | at the first period past the deadline of a suspicion its node is declared dead if and only if no sign of life was recorded since |
| `SwimTimers.RefutedPeerStillDies` | crates/rebar-cluster/src/swim/detector.rs:106-128 | a run in which a suspected peer is known alive again at a higher incarnation and is declared dead all the same |
| `SwimBurials.RemovedExactlyWhen` | crates/rebar-cluster/src/swim/detector.rs:132-163 | over every run, a period removes a node if and only if it is known dead then and a declaration of its death that still stands is at least the removal delay old |
| `SwimBurials.GraveIff` | crates/rebar-cluster/src/swim/detector.rs:99-163 | over every run, a declaration of death is remembered with its time if and only if some period made it and none since made it again or found it overdue |
| `SwimNews.PeriodSpreadsNews` | crates/rebar-cluster/src/swim/service.rs:274-296 | a node found suspect or declared dead in a period is news: with room in the queue and sends to spare, an update at least as recent is pending when the period ends |
| `SwimNews.RunsSpreadNews` | crates/rebar-cluster/src/swim/service.rs:274-317 | the same over runs, where the queue has room for 1024 entries and always sends to spare for something new |
| `SwimNews.ProbeFailsIff` | crates/rebar-cluster/src/swim/service.rs:249-273 | over every run, a probe counts against its target at the next period if and only if no envelope in between acknowledged the target |
| `SwimNews.AnsweredIff` | crates/rebar-cluster/src/swim/service.rs:386-423 | over every run, until the next period, a probe counts as answered if and only if an envelope since acknowledged its target other than by closing a relay |
| `SwimNews.FreshProbe` | crates/rebar-cluster/src/swim/service.rs:299-306 | a period probes a peer that is not dead, and does so if and only if there is one |
| `SwimNews.EnvelopeLogs` | crates/rebar-cluster/src/swim/service.rs:343-423 | the signs of life in an envelope are exactly its sender and whom it acknowledges, never the node itself |
| `SwimNews.SignsOfLifeCount` | crates/rebar-cluster/src/swim/service.rs:343-423 | after an envelope its sender is listed, and neither it nor whom it acknowledges has a suspicion timer |
| `SwimNews.GossipIsLearned` | crates/rebar-cluster/src/swim/member.rs:192-235 | gossip about another node is merged, update by update, into what is known of it and touches nobody else |
| `SwimNews.PingCarriesGossip` | crates/rebar-cluster/src/swim/service.rs:376-385 | a ping is answered with as much gossip as allowed, each update sent being paid for from its budget |
| `SwimNews.RelaysChange` | crates/rebar-cluster/src/swim/service.rs:386-450 | a request to probe is remembered with who asked, and exactly the direct ack with its number closes it |
| `SwimRuns.SeedSetsBackIff` | crates/rebar-cluster/src/swim/service.rs:150-156 | adding a listed peer as a seed does not set it back if and only if it was known at incarnation zero and not dead |
| `SwimRuns.SeedRevivesTheDead` | crates/rebar-cluster/src/swim/service.rs:150-156 | a peer known dead comes back at incarnation zero when added as a seed |
| `SwimRuns.NextKeepsHealthy` | crates/rebar-cluster/src/swim/service.rs:232-453 | every step keeps the whole invariant: own record, timers, probe, queue and justified counters |
| `SwimMembers.ApplyAllPeers` | crates/rebar-cluster/src/swim/member.rs:192-235 | any gossip leaves a listed peer at least as recent, and revives it only on a higher Alive |
| `SwimMembers.MergeKeepsHigher` | crates/rebar-cluster/src/swim/member.rs:36-91 | a merge keeps the belief that ranks higher by (incarnation, Alive < Suspect < Dead), except that an update that jumps too far is refused and a member known dead only listens to a higher Alive |
| `SwimMembers.MergeCommutesIff` | crates/rebar-cluster/src/swim/member.rs:192-235 | merging is not commutative; for every two updates about a listed or unknown node, either order gives the same if and only if they do not clash: a death before a newer rumour, a return from the dead before a rumour, a step up that brings a far jump within reach, and for an unknown node who lists it first |
| `SwimMembers.ApplyAllSelf` | crates/rebar-cluster/src/swim/member.rs:158-202 | any gossip leaves the node alive in its own list at a non-decreasing incarnation |
| `SwimMembers.RumoursOutlived` | crates/rebar-cluster/src/swim/member.rs:158-180 | the incarnation ends above every challenging rumour if and only if the rumour is below the maximum |
| `SwimMembers.RefutationsAreOwn` | crates/rebar-cluster/src/swim/member.rs:158-202 | refutations are the node's own Alive in increasing incarnations, and there is one if and only if the node was challenged |
| `SwimDetector.DeathNeedsEvidence` | crates/rebar-cluster/src/swim/detector.rs:99-128 | an expired suspicion has evidence in the log of acks and failed probes |
| `SwimDetector.SuspectedIffThreshold` | crates/rebar-cluster/src/swim/detector.rs:76-95 | a failed probe makes its target suspect, and starts its timer if none runs, if and only if the target is listed alive and the probes failed since the last sign of life reach the threshold; it changes nothing else |
| `SwimDetector.NackJustified` | crates/rebar-cluster/src/swim/detector.rs:76-95 | a failed probe keeps every counter and timer justified by the log |
| `SwimDetector.AckJustified` | crates/rebar-cluster/src/swim/detector.rs:57-68 | a sign of life keeps every counter and timer justified by the log |
| `SwimDetector.ExpireJustified` | crates/rebar-cluster/src/swim/detector.rs:99-128 | an expiry keeps every counter and timer justified by the log |
| `SwimDetector.DeclaredDeadIff` | crates/rebar-cluster/src/swim/detector.rs:99-128 | a period declares a listed node that is not dead dead if and only if its suspicion timer is overdue |
| `SwimDetector.AckOutcome` | crates/rebar-cluster/src/swim/detector.rs:57-68 | a sign of life clears failures and timer, turns Suspect back to Alive, and changes nothing else |
| `SwimDetector.RemovedIff` | crates/rebar-cluster/src/swim/detector.rs:132-163 | a listed node is removed if and only if it is dead and was declared so at least the removal delay ago |
| `SwimDetector.DetectorKeepsFresher` | crates/rebar-cluster/src/swim/detector.rs:57-163 | no detector operation sets a peer back or revives it, unless it removes it |
| `SwimDetector.DetectorSparesSelf` | crates/rebar-cluster/src/swim/detector.rs:57-163 | no detector operation touches the node's own record or timers |
| `SwimDetector.FailureDetector.Ack` | crates/rebar-cluster/src/swim/detector.rs:57-68 | a sign of life clears counter, timer and suspicion and nothing else |
| `SwimDetector.FailureDetector.Nack` | crates/rebar-cluster/src/swim/detector.rs:76-95 | a failed probe counts, and suspects only an alive node at the threshold |
| `SwimDetector.FailureDetector.CheckSuspectTimeouts` | crates/rebar-cluster/src/swim/detector.rs:99-128 | exactly the overdue suspects are declared dead, each once |
| `SwimDetector.FailureDetector.RemoveExpiredDead` | crates/rebar-cluster/src/swim/detector.rs:132-163 | exactly the dead nodes whose delay elapsed are removed |
| `SwimGossip.AlwaysSound` | crates/rebar-cluster/src/swim/gossip.rs:86-205 | in every run the queue has at most `max_entries` entries, one per node, with budgets from 1 to the assigned one |
| `SwimGossip.PendingIsMaximal` | crates/rebar-cluster/src/swim/gossip.rs:57-74 | the pending update is at least as recent as every update added since its node was last absent: of a higher incarnation, or of the same one and not milder (Alive, Suspect, Dead or Leave) |
| `SwimGossip.PendingWasAdded` | crates/rebar-cluster/src/swim/gossip.rs:146-170 | the pending update was itself added since the node was last absent |
| `SwimGossip.AddSupersedes` | crates/rebar-cluster/src/swim/gossip.rs:146-170 | after an add something at least as recent is pending: the update with a full budget, unless something more recent was, which stays as it is |
| `SwimGossip.AddKeepsOthers` | crates/rebar-cluster/src/swim/gossip.rs:146-183 | other entries stay as they are, except that one with the least budget goes when a full queue needs room for a new node |
| `SwimGossip.DrainSpendsBudget` | crates/rebar-cluster/src/swim/gossip.rs:189-205 | a drain lowers the sum of budgets by exactly the number returned, returns as many as it may, and those with the highest budgets |
| `SwimGossip.BudgetFor` | crates/rebar-cluster/src/swim/gossip.rs:123-130 | the budget b for cluster size n satisfies 2^(b-1) <= max(n, 1) < 2^b |
| `SwimGossip.GossipQueue.AddUpdate` | crates/rebar-cluster/src/swim/gossip.rs:146-170 | an update replaces what it supersedes, is ignored if it does not, and makes room when the queue is full |
| `SwimGossip.GossipQueue.EvictOne` | crates/rebar-cluster/src/swim/gossip.rs:174-183 | an entry with the least budget goes |
| `SwimGossip.GossipQueue.DrainUpdates` | crates/rebar-cluster/src/swim/gossip.rs:189-205 | the picked entries are sent, highest budgets first, and dropped when spent |
| `SwimMembers.MembershipList.RefuteAboutSelf` | crates/rebar-cluster/src/swim/member.rs:158-180 | the incarnation jumps past the rumour, saturating at the maximum |
| `SwimMembers.MembershipList.ApplyUpdate` | crates/rebar-cluster/src/swim/member.rs:192-235 | the merge whose effect on peers and on the node itself is proved |
| `SwimMembers.MembershipList.MarkDead` | crates/rebar-cluster/src/swim/member.rs:264-268 | marking a node dead does what a Dead rumour about it would, including for an unknown node, and touches nobody else |
| `SwimService.SwimNode.AddSeed` | crates/rebar-cluster/src/swim/service.rs:150-156 | a seed overwrites what was known, except for the node itself |
| `SwimService.SwimNode.Tick` | crates/rebar-cluster/src/swim/service.rs:232-324 | one period is the step the run theorems are about |
| `SwimService.SwimNode.ResolveProbe` | crates/rebar-cluster/src/swim/service.rs:249-284 | an unanswered probe counts against its target, and if that leaves the target suspect, an update at least as recent is pending afterwards |
| `SwimService.SwimNode.SpreadDeath` | crates/rebar-cluster/src/swim/service.rs:288-296 | queueing the death of a listed node leaves a Dead or Leave at its incarnation, or something newer, pending |
| `SwimService.SwimNode.DeclareDead` | crates/rebar-cluster/src/swim/service.rs:286-296 | exactly the overdue suspects are declared dead and queued |
| `SwimService.SwimNode.ProbeNext` | crates/rebar-cluster/src/swim/service.rs:299-317 | the next target is some peer that is not dead, never the node itself |
| `SwimService.SwimNode.HandleEnvelope` | crates/rebar-cluster/src/swim/service.rs:343-453 | one envelope is the step the run theorems are about |
| `SwimService.SwimNode.ApplyGossip` | crates/rebar-cluster/src/swim/service.rs:368-373 | gossip is merged in order and every refutation it calls for is queued |
| `SwimService.SwimNode.Hear` | crates/rebar-cluster/src/swim/service.rs:355-367 | hearing from another node adds it and counts as a sign of life |
| `SwimService.SwimNode.Reply` | crates/rebar-cluster/src/swim/service.rs:375-450 | the three kinds of message |
| `SwimService.SwimNode.RecordAlive` | crates/rebar-cluster/src/swim/service.rs:456-466 | a confirmation about the node itself is ignored |
| `CoordinatorRuns.AnsweredOnce` | crates/rebar-core/src/coordinator/engine.rs:456-605 | over any interleaving of submits, replies, losses and failovers, a task has at most one answer, exactly one once nothing outstanding owes it any, and is sent to at most as many workers as there were at submit |
| `CoordinatorRuns.EveryTaskIsAnswered` | crates/rebar-core/src/coordinator/engine.rs:420-605 | after any run at most a fixed number of further replies, losses and failovers advance a task, however they come; when none can any more every submitted task has exactly one answer |
| `CoordinatorRuns.StepsPayDebt` | crates/rebar-core/src/coordinator/engine.rs:456-605 | no step but a submit adds to what is owed and every advancing step takes from it |
| `CoordinatorRuns.FailureUsesAllAttempts` | crates/rebar-core/src/coordinator/engine.rs:564-600 | in every run a task told that its worker died or timed out has used all its attempts; if every process found alive was reachable, it was sent to as many workers as there were when it was submitted |
| `CoordinatorRuns.LostTaskGoesOn` | crates/rebar-core/src/coordinator/engine.rs:456-530 | in every run a lost task that is handed back has an attempt left, and goes to the first usable worker if and only if it has more attempts than there are unreachable workers picked before that one; if everyone alive is reachable, any worker left alive is enough |
| `CoordinatorRuns.AttemptsCanRunOut` | crates/rebar-core/src/coordinator/engine.rs:501-560 | a run in which a lost task with an attempt left is given up although a worker is alive and reachable |
| `CoordinatorPool.AnswersHaveCauses` | crates/rebar-core/src/coordinator/engine.rs:501-605 | in every run each answer was caused by a step that warrants it: a reply, a death or timeout on the last attempt, or a dispatch with nowhere to go |
| `CoordinatorPool.PoolAlwaysOk` | crates/rebar-core/src/coordinator/engine.rs:84-192 | in every run worker ids are distinct and were handed out, and a bounded pool keeps its bound |
| `CoordinatorPool.MembershipChanges` | crates/rebar-core/src/coordinator/engine.rs:84-113 | in every run a registration is refused if and only if a bounded pool is full and otherwise adds one idle worker with a new id; unregistering takes out exactly the worker with that id |
| `CoordinatorFlights.InFlightIsOutstanding` | crates/rebar-core/src/coordinator/engine.rs:124-192 | in every run without a process registered twice, each worker's `in_flight` is the number of its dispatches not yet processed, and each task was sent to distinct workers |
| `CoordinatorFlights.NeverSaturates` | crates/rebar-core/src/coordinator/engine.rs:165-192 | in such runs the saturating decrement never saturates |
| `Coordinator.RefusedIff` | crates/rebar-core/src/coordinator/engine.rs:501-605 | a submit is refused if and only if no worker is both alive and reachable |
| `Coordinator.DispatchShape` | crates/rebar-core/src/coordinator/engine.rs:501-605 | a dispatch drops only workers that cannot take the task and claims the least-loaded of the rest; besides the send, each worker dropped although alive takes one attempt |
| `CoordinatorChoice.DispatchOutcome` | crates/rebar-core/src/coordinator/engine.rs:501-564 | where a dispatch ends, read off the pool: the task goes to the first usable worker if and only if there are more attempts than unreachable workers picked before it, and exactly those and one more are used up |
| `CoordinatorChoice.DispatchSpends` | crates/rebar-core/src/coordinator/engine.rs:501-564 | a dispatch uses one attempt for each process dropped although alive, which was then not reachable, and one for the send; it gives up with attempts left only when the pool is empty |
| `Coordinator.PickLiveShape` | crates/rebar-core/src/coordinator/engine.rs:147-159 | picking claims the least-loaded worker once the dead ones in its way are gone, and finds none exactly when all are dead |
| `Coordinator.PickIndex` | crates/rebar-core/src/coordinator/engine.rs:124-138 | the pick has the least load, among those the fewest completed tasks, and is the first of them |
| `Coordinator.AverageIsSane` | crates/rebar-core/src/coordinator/engine.rs:165-187 | the first sample is the average; later ones move it towards the sample without passing it, between one microsecond and one hour, and each reply counts once |
| `Coordinator.AverageClosesTheGap` | crates/rebar-core/src/coordinator/engine.rs:165-187 | each further reply closes three tenths of the gap between average and sample, up to rounding |
| `Coordinator.LoadIsExact` | crates/rebar-core/src/coordinator/engine.rs:129-136 | the load score is tasks in flight plus one times the average, saturating, and exact below 2^32 in flight |
| `Coordinator.SwapRemoveMembers` | crates/rebar-core/src/coordinator/engine.rs:105-113 | unregistering removes exactly that worker |
| `Coordinator.CoordState.Register` | crates/rebar-core/src/coordinator/engine.rs:84-103 | a new id, or PoolFull with nothing changed |
| `Coordinator.CoordState.Unregister` | crates/rebar-core/src/coordinator/engine.rs:105-113 | the first worker with that id goes, or WorkerNotFound |
| `Coordinator.CoordState.PickWorker` | crates/rebar-core/src/coordinator/engine.rs:124-138 | the scanning loop finds the first least-loaded worker and claims it |
| `Coordinator.CoordState.PickLiveWorker` | crates/rebar-core/src/coordinator/engine.rs:147-159 | the retiring loop is the pick whose shape is proved |
| `Coordinator.CoordState.CompleteTask` | crates/rebar-core/src/coordinator/engine.rs:165-187 | the worker's count, total and average after a reply |
| `Coordinator.CoordState.RetireWorker` | crates/rebar-core/src/coordinator/engine.rs:476-480 | the claim is given back and the worker removed |
| `Coordinator.CoordState.DispatchTask` | crates/rebar-core/src/coordinator/engine.rs:501-605 | the recursion over failing routes is the dispatch whose shape is proved |
| `Coordinator.CoordState.HandleComplete` | crates/rebar-core/src/coordinator/engine.rs:456-499 | a failed task is dispatched again with the attempts it has left |
| `Wire.FrameRoundTrip` | crates/rebar-cluster/src/protocol/frame.rs:103-206 | decoding a frame's bytes, whatever follows them, gives the frame back if and only if it is within the size limit |
| `Wire.TrailingBytesIgnored` | crates/rebar-cluster/src/protocol/frame.rs:145-206 | once there are enough bytes for a verdict, further bytes do not change it |
| `Wire.CutFrameIsTooShort` | crates/rebar-cluster/src/protocol/frame.rs:145-206 | every proper prefix of a frame is reported too short |
| `Wire.StreamsDetermineFrames` | crates/rebar-cluster/src/protocol/frame.rs:103-206 | streams that start with two frames are equal only if the frames are |
| `Wire.BeRoundTrip` | crates/rebar-cluster/src/protocol/frame.rs:122-124 | big-endian fields read back what was written |
| `Wire.BePlaces` | crates/rebar-cluster/src/protocol/frame.rs:122-124 | earlier bytes of a number weigh more: each byte after them scales them by 256 |
| `Wire.LayoutBytes` | crates/rebar-cluster/src/protocol/frame.rs:103-129 | where version, type, request id, the two lengths, header and payload sit in a frame's bytes |
| `Wire.TypesAreNumbered` | crates/rebar-cluster/src/protocol/frame.rs:34-79 | the fourteen message types are numbered from one in their order, both ways |
| `Wire.FromByte` | crates/rebar-cluster/src/protocol/frame.rs:61-79 | a byte is a message type if and only if it is 0x01 to 0x0E, and then it is that type's byte |
| `Wire.Encode` | crates/rebar-cluster/src/protocol/frame.rs:103-129 | the appending writer produces the frame layout, or nothing when a section does not fit its length field |
| `Wire.DeliverInbound` | crates/rebar-cluster/src/router.rs:113-142 | the header loop delivers to the last value of each address field, zero if absent; malformed exactly when the header is not a map or an address field is not a word |
| `Wire.SendFrameFields` | crates/rebar-cluster/src/router.rs:61-86 | a send frame has type Send, version 1, request id 0 and the payload, and its header reads back as its addresses |
| `Wire.SendOverWire` | crates/rebar-cluster/src/router.rs:61-142 | built, encoded, decoded and delivered, a message keeps its sender, destination and payload |

## Left out

- GenStage calls, casts and DOWN messages, and subscription failures before confirmation: they do not move demand or events.
- GenStage demand asked by hand in unbounded amounts: `usize` overflow of a consumer's demand counter is not modelled.
- GenStatem durations: when a timer fires is left open; only which timers can fire is modelled.
- GenStatem replies: what a call is answered is user code; that a postponed call loses its reply channel is modelled as dropping it.
- Registry `remove_by_pid`, `remove_by_node`, `registered`: the same burial and filtering as `Unregister`, and a listing.
- OrSetRegistry.Registry.BuryTag: does not model saturation of the tombstone generation at `u64::MAX`.
- OrSetRegistry.Registry.Register: the fresh tag is an argument, because UUID generation is outside the model.
- Application manager concurrency: a `stop` racing a `start` of the same application can lose a start-order entry, so runs are sequential.
- AppManager.ApplicationManager.Start: the error carries the application's name instead of its own error text.
- Application environments and supervisor shutdown: the order of the hooks is modelled, the teardown of children is not.
- SWIM frames: which frames are sent is left out, except for the gossip a message drains; relays are remembered and closed as in the code, but what is forwarded is not modelled.
- SWIM cluster-wide spread: a node does not pass on gossip about others, so there is no such claim.
- SWIM locking: `tick` and `handle_envelope` are single steps; interleavings between their short critical sections are not modelled.
- SWIM membership lists without an own identity: the service always has one.
- SWIM `indirect_probe_count` of `usize::MAX`: the sum with one would overflow.
- SwimDetector.FailureDetector.CheckSuspectTimeouts: durations saturate at zero as in the standard library, so with a zero timeout a suspicion from the future expires at once.
- Coordinator shutdown: pending tasks then lose their reply channel; runs end before it.
- Coordinator in-flight and completion counters: unbounded, because overflow needs 2^64 tasks.
- Coordinator elapsed times and task contents: measured and opaque.
- Wire values: only the shapes the modelled code builds or inspects; msgpack itself is an arbitrary codec that reads back the header and payload in question.
- Transports, TLS, process table, mailboxes, monitors, supervisors, process groups, timers, GenServer, Agent, partition supervisor, connection manager, node drain, FFI and the language clients: input and output, or bookkeeping with easy claims.
