# A verified model of the vLLM orchestrator

The orchestrator is a Go proxy in front of several model servers (vLLM and
llama_cpp).  It starts a server when a request needs it, puts idle servers to
sleep in two steps (SLEEP1 keeps the weights in CPU RAM, SLEEP2 drops them),
kills them when unused, and evicts servers from GPU groups to make room.  This
project models that behaviour in Dafny and proves what the code keeps and
promises, and, where the code does not do what one would expect, exactly when it
does.

The files, from the bottom up:

| files | contents |
|---|---|
| `Lifecycle` | one entry's record and what each critical section does to it |
| `Protocol` | all goroutines of one entry as an interleaving step machine: one step per critical section, process handles as fencing tokens, a bounded queue, one program counter per goroutine |
| `ProtocolSafety`, `Requests`, `Delivery`, `Answers`, `Progress`, `Ledger` | invariants of that machine over every run |
| `Fleet` | all entries together: the mutex of a replica set and the shared CPU-RAM counter |
| `Witnesses` | concrete runs that reach the miscounts the previous files allow for |
| `Eviction`, `Snapshots`, `Candidates`, `Rules`, `Placement` | the VRAM scheduler as functions of a snapshot, with the outcomes of nvidia-smi, /proc/meminfo and the sleep endpoint as arbitrary functions of time and state; a physical model of memory |
| `Turns`, `Sweeps`, `Exhaustion`, `Completeness`, `PlacementFacts` | what those functions promise: order, frugality, exhaustion and replica safety for every outcome of the queries and calls, completeness under the physical model |
| `Workable`, `SmallestFit` | when the rules succeed on a group with room, and exactly when a load lands on the smallest workable group |
| `Orchestration`, `Scheduling`, `Assigning` | the scheduler as it runs: classes and loops, each method proved to do what the functions say |
| `Ttl`, `Runtime`, `Uninterrupted` | the idle timers as a refinement of an ideal ladder; the operations of one entry as methods that change its fields; both tied to runs of the step machine |
| `RoundRobin`, `Config`, `Routing`, `Accounting` | replica choice, configuration checks, the name table, group sums |
| `Deployment` | what an accepted configuration means for the other results |
| `Json`, `Escapes`, `Spelling`, `Replacements`, `Decoding`, `Stability`, `Splice`, `Lexical`, `Selection`, `Injection`, `Proxy` | the byte-exact scan and rewrite of the "model" field (RFC 8259), the streaming-decoder loop that refines it, and the merge of `orchestrator_state` |
| `Sums`, `Sequences`, `ByteStrings` | small shared theory |

Main results: stale completions are inert; LOADING has one owner; every state
change follows the life-cycle diagram; no request is lost; every request has one
fate, and its answer is the outcome of the load, wake or wait of the goroutine that
received it; the exact meaning of `activeRequests`, and exactly when the idleness tests
built on it are wrong; replicas never share a group; eviction is frugal, smallest
first and exhaustive whatever the queries and calls answer, spares siblings, and
fails only for lack of memory under the physical model; a load lands on the
smallest workable group exactly when the CPU counter is not too low; TTL ticks
refine the ideal ladder exactly up to two kinds of slips and are runs of the step
machine; CPU RAM is conserved exactly up to counted miscounts; the rewritten body
names the picked entry exactly for names that need no escaping; a nested "model"
is never selected; an accepted configuration makes names and totals unambiguous.

Assumptions of the interleaving machine: one iteration of an eviction loop is one
step; observing a sleeping entry (`state.go:357-365`) and capturing its process
for the wake call (`state.go:304-307`) are one step; releasing the assignment
mutex is one step with publishing the group.

Where the code and its comments or documentation differ, the model follows the
code: `waitVRAMStable` polls for 10 s while its comment says 30 s; the crash
handler is called only by the health watcher, not whenever a process exits;
`assignGroup` promises the smallest group, but its fallback takes the first one in
configuration order that can be freed (`SmallestFit` says when that matters).

## Model

| member | source | states |
|---|---|---|
| `ProtocolSafety.StepKeepsSafe` | state.go:161-466 | every step of every goroutine keeps: fields agree with the state, LOADING exactly while one loader exists, captured handles never name a process still being probed |
| `ProtocolSafety.StaleStaysStale` | state.go:420-439 | a process handle that is no longer current never becomes current again, whatever runs afterwards |
| `ProtocolSafety.StaleCompletionIsInert` | state.go:247-335 | the completion of a sleep, wake, kill or crash begun on a process the entry has since left changes neither the entry nor the CPU-RAM book, also after reloads |
| `ProtocolSafety.TransitionsFollowDiagram` | state.go:161-466 | in every reachable state every step leaves the state alone or follows an edge of the life-cycle diagram |
| `ProtocolSafety.LoadingHasOneOwner` | state.go:375-465 | LOADING holds exactly while a handler is between claim and publish or rollback, and there is never more than one |
| `ProtocolSafety.UnguardedWritesAreOwn` | state.go:389-461 | the loader's unchecked writes after assign, launch and health calls overwrite only what is its own: a checked write would do the same |
| `ProtocolSafety.FieldsFollowState` | state.go:247-261 | UNLOADED means no process, group -1, no reservation; a serving or sleeping entry has a process and a group; llama_cpp never sleeps |
| `Uninterrupted.UpKeepsPlace` | state.go:263-335 | from a serving or sleeping state every step either unloads the entry completely or leaves process, group and reservation alone |
| `Uninterrupted.PlaceFollowsLoad` | state.go:389-461 | in every run an entry that is up has the group and size of its last assignment, the process of its last launch, and the measured size if the load measured one |
| `ProtocolSafety.LateSleepWriteIsSafeIff` | scheduler.go:278-283 | Rule 1's unchecked SLEEP1 write keeps the invariant exactly when the entry is still up, follows the life-cycle diagram exactly when it is still ACTIVE, and equals the checked write of `transitionToSleep`, CPU-RAM book included, exactly when moreover the process is the one put to sleep |
| `ProtocolSafety.LateKillIsSafeIff` | scheduler.go:296-308 | the kill of Rules 2 and 4, which re-checks only the group, keeps the invariant exactly when no loader has claimed the entry since and published that group, and equals a fully re-checking one exactly when the entry is still that process, in SLEEP2 and idle, or off the group |
| `ProtocolSafety.LateDeepenIsSafeIff` | scheduler.go:343-345 | the unchecked SLEEP2 write of Rule 3 and `freeCPURam` keeps the invariant exactly when the entry is still up, follows the diagram exactly when it is ACTIVE or in SLEEP1, and equals a checked write exactly when the entry is still that process, in SLEEP1 and idle, or in SLEEP2 already |
| `Requests.StepKeepsOrder` | state.go:339-563 | every step keeps queue, receivers' hands and request records in agreement |
| `Requests.OneFate` | state.go:344-355 | every submitted request is in exactly one place: arriving, queued, in one drainer's hands, released, refused with 503, or rejected at a full queue; `done` is closed at most once |
| `Requests.QueueIsBoundedFifo` | state.go:349-355 | receives are a prefix of sends, no request is sent twice, the queue never exceeds its depth |
| `Requests.AnswerIsFinal` | state.go:531-544 | once `done` is closed the verdict never changes and a refused request is never forwarded |
| `Delivery.NoLostRequests` | state.go:339-466 | whenever the queue is not empty some goroutine is inside and will drain it; this includes the branch that returns without draining |
| `Delivery.QueuedHandlersStay` | state.go:361-466 | in every run that never takes that branch the handler of each queued request has not returned |
| `Delivery.FallThroughIsCovered` | state.go:376-388 | when that branch leaves a request in the queue, another goroutine is draining |
| `Delivery.RejectedWaits` | state.go:349-355 | a request rejected at a full queue is never closed, so a startup load that meets one waits for ever |
| `Answers.AnswersFollowOutcomes` | state.go:357-466 | in every run a request answered through the queue was received by a goroutine whose last load, wake or wait decides: counted and released if that worked, `err` and not counted if it failed |
| `Answers.OutcomeDecides` | state.go:516-563 | from every reachable state: a queued request, a step that works or fails (found ACTIVE, loaded, woken; failed assignment, launch, health check, wake, wait or a crash), its goroutine draining until the queue is empty: unless another goroutine receives the request first it is closed once, counted exactly if the step worked, with `err` exactly if it failed |
| `Witnesses.RefusedForEarlierFailure` | state.go:366-371 | a request can be refused although nothing has failed since it was sent: the goroutine that failed before is still emptying the queue |
| `Progress.NeverStuck` | state.go:339-563 | in every reachable state each goroutine has finished, is a startup load waiting at the door for its answer, or can step |
| `Progress.CallsMayFail` | state.go:389-461 | every slow call of the machine may succeed or fail |
| `Progress.FinishedForGood` | state.go:339-466 | a finished goroutine takes no step any more |
| `Progress.CancelledIsGone` | proxy.go:130-148 | a client that gives up is never forwarded nor completed |
| `Progress.FollowersNeverLoad` | state.go:379-400 | a handler claims at most once, and one that meets another's load never claims nor loads later |
| `Progress.UpIsWatched` | state.go:468-504 | in every reachable state a serving or sleeping process has a watcher |
| `Progress.WatcherMayStopIff` | state.go:476-486 | a watcher may stop exactly when its process is not current any more or does not serve |
| `Ledger.ActiveRequestsLedger` | state.go:517-529 | in every reachable state `activeRequests` is the released requests in flight, plus those that leave without completing, minus fast-path completions |
| `Ledger.CounterIsRightIff` | state.go:344-347 | the counter equals the requests being served, fast-path ones included, exactly when leaks plus waiting startup loads equal fast-path completions plus fast-path requests in flight |
| `Ledger.IdleTestIsRightIff` | scheduler.go:455-468 | in every reachable state, for an entry that serves somebody and for one that serves nobody, the exact count condition under which `active == 0` and `active <= 0` hold all the same or fail all the same |
| `Ledger.PlainHistoriesAreRight` | scheduler.go:455-468 | without fast-path requests, startup loads and leaks the counter is the number of requests being served |
| `Witnesses.ServedLooksIdle` | state.go:340-347 | a run after which one request is being forwarded, the counter is zero, leaks and fast completions balance, and an llama_cpp server may be killed |
| `Ledger.FastPathIsInvisible` | state.go:340-347 | a request released on the ACTIVE fast path is forwarded without the counter moving, and an llama_cpp server serving only it may be killed |
| `Fleet.ReplicasStayApart` | scheduler.go:60-68 | over all interleavings of loads, releases and evictions no two replicas of one model hold the same group |
| `Fleet.CpuBalance` | state.go:282-331 | counter plus offloaded weights minus the drift is constant over any run without a re-read, with overlapping wakes, crashes and evictions |
| `Fleet.CpuRamIsConservedIff` | state.go:316-331 | from every reachable state, between two re-reads, counter plus offloaded weights is conserved exactly when the double credits and the missing credits of that stretch cancel |
| `Fleet.MiscountsIff` | state.go:282-331 | exactly which steps miscount: a wake call begun in SLEEP1 that finds the model woken or deepened by others counts twice; a crash, a kill, Rule 3 and a wake call begun in SLEEP2 lose the credit of a model in SLEEP1; no completed sleep call miscounts |
| `Witnesses.OverlappingWakesCreditTwice` | state.go:301-331 | for all weights that fit: a run in which two requests wake the same SLEEP1 model and the counter ends too high by its weights |
| `Witnesses.CrashInSleep1CreditsNothing` | state.go:425-434 | for all weights that fit: a run in which the process dies in SLEEP1 and the counter ends too low by its weights |
| `Eviction.CeilingFalls` | scheduler.go:392-419 | eviction never raises the CPU RAM that demoting idle SLEEP1 models could make available |
| `Eviction.DeficitSurvives` | scheduler.go:122-127 | freeing another group does not make room on a group that lacked it |
| `Eviction.ExhaustedSurvives` | scheduler.go:122-127 | a group with nothing evictable left stays so while other groups are freed |
| `Candidates.InsertKeepsOrder` | scheduler.go:455-485 | insertion into a candidate list keeps it smallest first, without repetition, with exactly the given members |
| `Rules.ListingIsSorted` | scheduler.go:454-485 | a rule considers exactly its candidates, smallest first, none twice |
| `Snapshots.WaitEndsWhenSettled` | scheduler.go:427-452 | the wait after a kill ends with the first reading that shows 75% of the expected amount back and moved by at most 1% of it (at least 10 MB), and with the twentieth if there is none |
| `Snapshots.WaitsForExpected` | scheduler.go:427-452 | the wait for an expected amount takes the first of at most 20 readings that shows 75% of it back, to the MB, and moved by at most 1% of it or 10 MB, or the twentieth |
| `Turns.KillWaitsForReservation` | scheduler.go:296-318 | a kill unloads the model and waits for exactly what it had reserved, over what was free before |
| `Turns.TryFacts` | scheduler.go:216-388 | one candidate's turn: the state it ends in, who else may change, and for each way of being left alone the outcome that caused it |
| `Turns.FreeCpuIsFrugal` | scheduler.go:390-419 | CPU RAM is freed smallest weights first, each demotion after a counter reading that was too low, each refusal by a call that failed; all candidates are tried if it was not enough |
| `Turns.FreeCpuLeaves` | scheduler.go:390-419 | an idle SLEEP1 model left after that was refused by a level-2 call that failed in between |
| `Turns.CpuShortMeans` | scheduler.go:252-271 | a vLLM model skipped for lack of CPU RAM: the counter was below its weights before and after, and every idle SLEEP1 model still there had a failed call |
| `Exhaustion.RuleIsOrdered` | scheduler.go:216-388 | each rule acts on a prefix of exactly its candidates on the group in nondecreasing size, on all of them if it was not enough |
| `Exhaustion.TurnsGoBySize` | scheduler.go:220-385 | of any two turns of one rule the earlier took a model with no larger measured size (Rules 1, 2, 4) or no larger weights (Rule 3) |
| `Exhaustion.CpuTurnsGoByWeights` | scheduler.go:393 | CPU RAM is freed from idle SLEEP1 models in nondecreasing order of their weights |
| `Exhaustion.RulesAreFrugal` | scheduler.go:216-388 | for every outcome of the queries and calls: every eviction but a last one that sufficed is followed by a reading below the need; true is returned exactly on such a last reading; nobody rises on the ladder, other groups lose only idle SLEEP1 to SLEEP2 |
| `Exhaustion.RulesExhaust` | scheduler.go:216-388 | for every outcome: after false, on the group no idle SLEEP2 model is left, an idle SLEEP1 model only if its level-2 call failed during the run, an ACTIVE llama_cpp model only if busy, an ACTIVE vLLM model only if its level-1 call failed or the counter read at its turn was below its weights |
| `Exhaustion.RulesTouch` | scheduler.go:216-388 | the rules never return true without having evicted a model on the group |
| `Exhaustion.EmptyGroupFails` | scheduler.go:216-388 | for every outcome: on a group without models they return false, however much is free |
| `Workable.RoomyRulesSucceedIff` | scheduler.go:216-388 | from exact readings, on a group with enough free already, the rules return true exactly when some model there can be evicted: room alone is not success |
| `Workable.ExhaustedFails` | scheduler.go:216-388 | from exact readings the rules fail on a group where every model is stuck, whatever is free |
| `Completeness.RulesComplete` | scheduler.go:216-388 | under the physical model, unless the CPU counter was too low at the start, false means: every model still up there is a busy llama_cpp server, an ACTIVE vLLM model, busy or not, whose weights exceed the CPU RAM that demoting everything would leave, or asleep with a nonzero counter; and a group that lacked the memory still lacks it |
| `Placement.SmallestIsLeast` | scheduler.go:49-56 | the running minimum is the least group total |
| `Placement.PickIsBest` | scheduler.go:163-183 | the first of the smallest groups whose reading suffices outside the excluded set; none only if none fits |
| `Placement.OvercommitIff` | scheduler.go:139-143 | two loads decided on one reading, each with its siblings' groups excluded, overcommit a group exactly when both pick the same one and their sum exceeds its reading, that is when each one's pick would do for the other and cannot hold both |
| `Placement.FindPinIsFirst` | scheduler.go:16-18 | the first group with the pinned id, or there is none |
| `PlacementFacts.FreeFirstVisits` | scheduler.go:79-89 | for every outcome: each large enough, non-excluded group with other models on it either lost something in the pass or the rules ran there and gave up |
| `PlacementFacts.FirstFreedIsFirst` | scheduler.go:112-127 | for every outcome: the fallback takes the first target on which the rules succeed; they ran and gave up on every one before it |
| `PlacementFacts.SiblingsSpared` | scheduler.go:60-89 | for every outcome: an unpinned load leaves the requester as it was up to its reservation, never kills a sibling replica or puts one to sleep from ACTIVE, and lands on no group held by one, where its last reading suffices |
| `PlacementFacts.UnpinnedEvicts` | scheduler.go:70-127 | outside the target groups an unpinned load only takes idle SLEEP1 models to SLEEP2, and nobody rises |
| `PlacementFacts.UnpinnedReserves` | scheduler.go:43-58 | a placed unpinned load reserves, and has seen free on its group, the measured size if there is one, else the positive configured allocation, else 85% of the smallest group rounded down |
| `PlacementFacts.PinnedFacts` | scheduler.go:14-41 | a pinned load fails exactly when no group has the id, takes the first that has, evicts only there and nothing at all if the group is unshared or its new reading suffices, and reserves without asking again |
| `PlacementFacts.PinnedReadsTruth` | scheduler.go:28-37 | with exact readings: room means no eviction, and the allocation is subtracted from what is really free afterwards |
| `PlacementFacts.PinnedShortIff` | scheduler.go:28-37 | with exact readings: a pinned load overcommits its group exactly when the group lacked the allocation and either nobody else was on it or the rules gave up there, which leaves it exhausted |
| `PlacementFacts.SearchHopeless` | scheduler.go:91-137 | under the physical model every target of a failed search is short of memory with nothing left to evict |
| `PlacementFacts.FailureIsJustified` | scheduler.go:43-137 | completeness: when an unpinned load fails under the physical model, every group of sufficient size without a sibling has less free than the model needs, and every model on it is being loaded, a busy llama_cpp server, an ACTIVE vLLM model, busy or not, whose weights exceed the CPU RAM now free and all that demoting could free, or asleep with a nonzero counter |
| `Workable.PassDecides` | scheduler.go:79-89 | under the physical model and with a counter that is not too low, after the eviction pass each target group has room or nothing evictable is left on it |
| `Workable.FallbackFails` | scheduler.go:112-127 | from exact readings the fallback frees none of a set of exhausted groups |
| `SmallestFit.FairLoadsAreBest` | scheduler.go:70-137 | so an unpinned load then takes the best fit on what the pass left, and every preferable group is short of memory with nothing left to evict |
| `SmallestFit.LowCounterMisplaces` | scheduler.go:252-271 | the failing input: for every true value of at least zero and every lower recorded counter, a load that the fallback puts on the large group although the small one could have been freed |
| `SmallestFit.LandsOnSmallestIff` | scheduler.go:10-13 | under the physical model every unpinned load with recorded counter `c` and true value `ram >= 0` lands on the smallest workable group if and only if `c >= ram` |
| `Orchestration.ModelEntry.KillAndUnload` | state.go:247-261 | unloads the entry if the handle is current, does nothing otherwise |
| `Orchestration.Orchestrator.RefreshMemory` | memory.go:177-208 | changes no entry; each reading is replaced only if its query worked |
| `Orchestration.Orchestrator.SleepModel` | scheduler.go:274-277 | succeeds exactly when the endpoint does at that moment, and changes nothing but the time |
| `Orchestration.Orchestrator.WaitVramStable` | scheduler.go:427-452 | the polling loop ends in the state that `Snapshots.WaitEndsWhenSettled` describes and changes no entry |
| `Scheduling.IdleModels` | scheduler.go:454-468 | the loop yields the listing of the idle models in the given state, sorted as `Exhaustion.TurnsGoBySize` says |
| `Scheduling.ActiveModels` | scheduler.go:470-485 | the loop yields the sorted listing of the ACTIVE models, busy or not |
| `Scheduling.KillSleepers` | scheduler.go:295-323 | Rules 2 and 4 as loops: same result and same end state as the sweep of `Exhaustion.RuleIsOrdered` |
| `Scheduling.DeepenSleepers` | scheduler.go:325-355 | Rule 3 as a loop: same result and same end state as its sweep |
| `Scheduling.FreeCpuRam` | scheduler.go:390-419 | the loop ends where the function of `Turns.FreeCpuIsFrugal` ends |
| `Scheduling.EvictServer` | scheduler.go:228-251 | an llama_cpp server is killed exactly when its counter is not positive, its memory awaited |
| `Scheduling.EvictVllm` | scheduler.go:252-287 | a vLLM model is offloaded after making room in CPU RAM, charged, and measured; left alone if it does not fit or the call fails |
| `Scheduling.DemoteActives` | scheduler.go:216-293 | Rule 1 as a loop: same result and same end state as its sweep |
| `Scheduling.FreeMemoryRules` | scheduler.go:216-388 | all four rules: same result and same end state as the function of the `Exhaustion` and `Completeness` theorems |
| `Assigning.GroupHasOtherModels` | scheduler.go:146-161 | whether a model other than the requester is assigned to the group |
| `Assigning.GroupsOfSiblings` | scheduler.go:185-205 | exactly the groups held by the other replicas |
| `Assigning.PickGroup` | scheduler.go:163-183 | the loop with its running minimum makes the choice of `Placement.PickIsBest` |
| `Assigning.TwoPicks` | scheduler.go:139-143 | two picks on one reading, with any excluded groups, overcommit it exactly when they agree and the sum exceeds the reading |
| `Assigning.OvercommitWitness` | scheduler.go:139-143 | two loads that together exceed the only group are both placed there |
| `Assigning.NeededMB` | scheduler.go:43-58 | measured size, configured allocation, or 85% of the smallest group |
| `Assigning.EvictFirst` | scheduler.go:70-89 | the pass as a loop ends where the function of `PlacementFacts.FreeFirstVisits` ends |
| `Assigning.FirstWorkable` | scheduler.go:112-127 | the fallback as a loop: same group and same end state as the function of `PlacementFacts.FirstFreedIsFirst` |
| `Assigning.AssignUnpinned` | scheduler.go:43-144 | the unpinned path: same group, end state and reservation as the function of `PlacementFacts.SiblingsSpared` and `FailureIsJustified` |
| `Assigning.MakeRoomPinned` | scheduler.go:19-31 | the rules run only if the group is shared and its new reading below the allocation; then it is read again |
| `Assigning.AssignPinned` | scheduler.go:14-41 | the pinned path: same group, end state, reservation and subtraction as the function of `PlacementFacts.PinnedFacts` |
| `Ttl.TickTakesOneRung` | state.go:179-244 | with ample CPU RAM and a working sleep call a tick moves a vLLM model whose counter is not positive one rung towards the ideal depth and never beyond it; a positive counter stops it |
| `Ttl.ServerTick` | state.go:180-194 | one tick puts an ACTIVE llama_cpp server whose counter is not positive where the ideal says, never to sleep; a positive counter stops it |
| `Ttl.TickKeepsFields` | state.go:161-299 | no tick touches the counter; a model that it unloads has no process, group or reservation left, any other keeps all three |
| `Ttl.TickKeepsWorldOk` | state.go:161-299 | ticks keep what every reachable entry satisfies |
| `Uninterrupted.TickIsARun` | state.go:161-299 | every tick that does something is an uninterrupted run of the step machine, on the entry and its CPU-RAM book |
| `Uninterrupted.WakeIsARun` | state.go:301-335 | so is every wake |
| `Uninterrupted.CallsBeginIdle` | state.go:207-243 | a tick's call begins exactly if at its second look the counter is not positive and the state unchanged, on the current process |
| `Uninterrupted.EvictionsAreTurns` | scheduler.go:216-388 | the machine's eviction steps are enabled exactly for the candidates of the scheduler's rules, and change an entry and its book as a successful turn does |
| `Ttl.TooDeepIffSlip` | state.go:161-245 | over every history of ticks, activations and completions, whatever the counter, the CPU RAM and the sleep calls' outcomes, the first event that leaves a model too deep is the first slip: a tick in the first band on an ACTIVE vLLM model whose weights do not fit, or a request that completes after its model was put down; without a slip there is none |
| `Ttl.NeverDeeperThanIdeal` | state.go:161-245 | over every history without a slip, with any counter values, a model is never deeper asleep than its idle time warrants |
| `Ttl.AmpleNeverSlips` | state.go:198-217 | with ample CPU RAM at every tick and no completion after the model was put down there is no slip, whether sleep calls succeed or not |
| `Ttl.TicksCatchUp` | state.go:161-245 | within one band, with ample CPU RAM and working sleep calls, the depth is min(start + n, ideal) after n ticks that found no positive counter; three such ticks always reach the ideal |
| `Ttl.CpuRamConserved` | state.go:282-331 | over any run of uninterrupted ticks and wakes of all models counter plus offloaded weights is constant and the counter never negative |
| `Runtime.TransitionToSleep` | state.go:263-299 | new state and CPU-RAM booking of a sleep, nothing for a stale handle or failed call |
| `Runtime.WakeAndActivate` | state.go:301-335 | error exactly on a failed call; state, clock and credit of a wake |
| `Runtime.TickTTL` | state.go:161-245 | the method takes the entry and the counter exactly where the timer theorems' tick does |
| `Runtime.CompleteRequest` | state.go:591-597 | decrements the counter whatever it is and restarts the idle clock |
| `Runtime.DrainQueue` | state.go:516-529 | releases every queued request once, in order, and counts each |
| `Runtime.DrainQueueWith503` | state.go:531-544 | answers, marks and closes every queued request once, in order, and counts none |
| `Runtime.OnExit` | state.go:425-439 | nothing for a stale process; otherwise unloads and refuses the whole queue |
| `Runtime.Enqueue` | state.go:349-355 | appends if there is room; otherwise answers 503 and leaves the request open and unmarked |
| `RoundRobin.ReplicaSet.Pick` | state.go:77-85 | the entry at the counter, which advances in 64-bit arithmetic unless the set is a single entry |
| `RoundRobin.FairBeforeWrap` | state.go:77-85 | in any window of w picks before the wrap each of n entries is chosen w/n times, rounded down or up |
| `RoundRobin.FairAcrossWrapIff` | state.go:77-85 | fairness over every window, across the wrap too, holds exactly when n divides 2^64 |
| `Config.CheckGroups` | config.go:104-119 | accepts exactly groups with ids and devices in which no device repeats; a reported device is in both named groups |
| `Config.CheckModels` | config.go:132-224 | accepts exactly models whose names and aliases are pairwise distinct and that pass the checks of their own |
| `Config.CheckNames` | config.go:139-148 | rejects a name or alias exactly when it occurred before |
| `Config.CheckModel` | config.go:149-223 | pin, replicas, engine, timer and shard-count checks of one model |
| `Config.CheckFiles` | config.go:226-271 | directories and GGUF files that the engines in use need |
| `Config.ValidateConfig` | config.go:75-274 | no error exactly for the accepted configurations |
| `Config.AcceptedTimersAreOrdered` | config.go:177-192 | every model of an accepted file has positive, strictly increasing effective timers |
| `Config.OwnTimersOverride` | config.go:177-186 | a positive timer of the model's own is used, the global one otherwise |
| `Config.LargestIsLargest` | config.go:124-131 | the running maximum is the largest device count |
| `Config.UnpinnedShardsFit` | config.go:219-221 | an accepted unpinned vLLM model has a group with enough devices for its shards |
| `Config.TooManyShardsRejected` | config.go:219-221 | a shard count above every group is rejected |
| `Config.ModelOkIff` | config.go:149-223 | a model passes its own checks exactly when none of the listed reasons to refuse it applies |
| `Config.PinnedShardsFitIff` | config.go:214-218 | for any accepted list of groups: every accepted configuration's pinned vLLM shards fit the group the scheduler uses exactly when no id has more devices in its last group than in its first |
| `Config.ShardsTooMany` | config.go:214-218 | an accepted configuration that pins two shards to a group of one device |
| `Config.LargerInBetween` | config.go:214-218 | groups of 2, 5 and 1 devices under one id: a later group is larger, yet whatever is accepted fits |
| `Routing.BuildSet` | state.go:108-129 | as many fresh UNLOADED entries as configured, at least one |
| `Routing.NewOrchestrator` | state.go:96-136 | one set per model, all entries distinct, and the name table as declared |
| `Routing.ResolutionIsRightIff` | state.go:130-141 | every declared name resolves to each set declaring it exactly when no two models share a name |
| `Routing.AcceptedNamesResolve` | config.go:132-148 | in an accepted file a name resolves to the one set that declares it and an undeclared one to nothing |
| `Deployment.AcceptedFleetIsValid` | config.go:162-167 | in an accepted configuration no replicated model is pinned, the assumption of the anti-affinity theorem |
| `Deployment.AcceptedReplicasStayApart` | config.go:159-167 | in every run of every accepted configuration two replicas of one model are on different groups |
| `Deployment.AcceptedNeverTooDeep` | config.go:177-192 | over every history with ample CPU RAM, any counter values and no completion after the model was put down, a model of an accepted configuration that starts ACTIVE is never deeper asleep than its effective timers warrant |
| `Deployment.AcceptedTotalsCountOnce` | config.go:104-119 | group totals of an accepted configuration add up to the total over its distinct devices |
| `Accounting.SumDevices` | memory.go:84-87 | the sum of the reported devices of a group |
| `Accounting.InitMemory` | memory.go:61-103 | fails exactly on a failed query, a missing device or unreadable meminfo; otherwise group totals, nothing measured yet |
| `Accounting.Refresh` | memory.go:177-208 | group sums and CPU RAM replaced, each only if its query worked |
| `Accounting.CountedOnceIffDisjoint` | memory.go:82-95 | for all readings group sums add up to the sum over the distinct configured devices exactly when no device is listed twice |
| `Accounting.FreeAtMostTotal` | memory.go:189-200 | a group's free memory is at most its total if that holds per device |
| `Decoding.LocateTopLevelModelValue` | proxy.go:224-271 | the decoder loop over an advancing cursor finds exactly what the grammar defines, offsets included |
| `Selection.NestedIsNeverSelected` | proxy.go:224-231 | in every body, what is found lies at nesting depth one and belongs to the first top-level "model" key |
| `Selection.ObjectSearchIsExact` | proxy.go:232-271 | in every body that is a JSON object the result is the value of the first top-level "model" key if it is a string, and nothing otherwise |
| `Escapes.EscapedTextReads` | proxy.go:273-283 | any text written in `\u` escapes, with surrogate pairs and either case of hexadecimal digits, is read as its UTF-8 form |
| `Escapes.EncodeDecodes` | proxy.go:273-283 | the bytes produced for an escape are well-formed UTF-8 of the escaped value |
| `Escapes.WellFormedIsEncoding` | proxy.go:273-283 | every byte sequence taken for well-formed UTF-8 is the encoding of one scalar value |
| `Replacements.UnitsRead` | proxy.go:261-269 | any 16-bit code units written as `\u` escapes read as their UTF-16 text, an unpaired surrogate as U+FFFD |
| `Replacements.RawBytesRead` | proxy.go:261-269 | outside escapes the next character is read if one stands there, and otherwise one byte is read as U+FFFD |
| `Replacements.NameIsUtf8` | proxy.go:277-283 | the name extracted from any body, well-formed or not, is well-formed UTF-8 |
| `Spelling.SpelledTextReads` | proxy.go:273-283 | any text, each character raw, as its two-character escape or as `\u` as the writer likes, is read as its UTF-8 form |
| `Spelling.SpelledTextScans` | proxy.go:224-271 | and its end is found at the quote written after it |
| `Spelling.GrammarSpelled` | proxy.go:224-271 | the words, marks, digits, spaces and short escapes are those of RFC 8259 |
| `Spelling.SpelledNameIsExtracted` | proxy.go:261-283 | the name of an object whose first member is "model", key and value spelled in any such way, is extracted as that text |
| `Splice.ExtractModelField` | proxy.go:273-283 | the unescaped value, or the empty string |
| `Splice.RewriteModelField` | proxy.go:203-222 | the body with only the located literal replaced |
| `Splice.PlainIsFound` | proxy.go:203-222 | after a rewrite with a name that needs no escaping, that name is found at the old place |
| `Splice.RoundTripIff` | proxy.go:203-283 | re-extraction yields the name exactly when it has no quote, backslash or control character and is well-formed UTF-8 |
| `Splice.RewriteTouchesOnlyTheLiteral` | proxy.go:203-222 | all bytes outside the literal are preserved and rewriting is idempotent, for such names |
| `Proxy.PeekAndResolve` | proxy.go:107-127 | bad request, not found, or the picked entry with a body that names it; only the chosen set's cursor moves |
| `Proxy.RequestsAreSpread` | proxy.go:107-127 | w successive requests for one model reach each of its n replicas w/n times, rounded down or up, until the cursor wraps |
| `Proxy.ForwardedBodyNamesTheEntry` | proxy.go:122-126 | the forwarded body names the entry exactly when the client used its name or the name needs no escaping |
| `Injection.InjectState` | proxy.go:364-370 | trims outer white space and every trailing brace, and appends the new member |
| `Injection.InjectionIsJsonIff` | proxy.go:364-370 | for every JSON text, outer white space included, the result is JSON exactly when the value is a non-empty object whose text ends in a single brace |
| `Injection.InjectionAddsTheState` | proxy.go:364-370 | a successful injection is an object with the old members unchanged and in order, and `orchestrator_state` with one of the five words as one more |

## Left out

- Process launch, environments, signals, sockets, dialling, reverse proxying, WebSocket tunnelling, route dispatch and `/v1/models` fetching: operating-system and network plumbing; launch, health, sleep, wake and kill are success or failure events.
- Parsing of nvidia-smi and /proc/meminfo output, YAML and file-system effects: replaced by their results; model weights are constant, so the first measurement of a model is not modelled.
- Protocol: one iteration of an eviction loop is one step, and an observation of a sleeping entry is one step with the capture in the wake call; interference inside these is not modelled.
- Runtime: the methods run without interruption; `handleRequest` and `waitForActive` appear as steps of the interleaving machine, not as methods.
- Liveness: that sleeping goroutines are scheduled again and slow calls return is not modelled, so `NoLostRequests` says that somebody is there to drain and `NeverStuck` that he can step, not that draining ends.
- `Delivery.NoLostRequests`: shutdown, which clears process handles without changing states, is outside the protocol.
- `Candidates.InsertKeepsOrder`: the source sorts with an unstable sort; the model keeps configuration order among equal keys.
- `Assigning.NeededMB`: the 85% placeholder is exact integer arithmetic, not floating point.
- `Decoding.LocateTopLevelModelValue`: array states and the nesting stack of the decoder are not kept, since the loop gives up at any bracket in key or value position; the decoder's limit of 10000 nested levels is not modelled.
- `Injection.InjectState`: of the white space that is trimmed, only ASCII is modelled; no other kind can surround a JSON value.
- `Config.ValidateConfig`: which of the checks of one model or of the global fields failed is not told apart in the error.
- `Orchestration.Orchestrator.RefreshMemory`: readings per group are an oracle here; `Accounting` has the sums per device.
- `Orchestration.Orchestrator.WaitVramStable`: 20 polls of 500 ms stand for the deadline of 10 s; the time a query itself takes is not modelled.
- TTL histories: evictions and crashes, which put a model down whatever its idle time, are not events.
- Scheduler: the methods run without interruption; `ProtocolSafety` has what their unchecked writes do when an entry changed in between.
- The vLLM statistics script and log filtering: reporting only.
