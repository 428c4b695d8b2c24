# Verification of evm-amm-state

A Dafny model of the protocol and index logic of `evm-amm-state`, the library that keeps
AMM pool state warm in a local EVM cache, and proofs about it. EVM execution, RPC and
hashing are parameters; everything below holds for every value of them.

`dafny verify dfyconfig.toml` checks the whole project.

## Components

- **Background work scheduler** (`WorkQueue`, `QueueFairness`, `Scheduler`,
  `SchedulerSafety`, `SchedulerCancel`, `SchedulerClasses`, `SchedulerBatches`, `SchedulerTurn`,
  `SchedulerJobs`, `SchedulerDrain`, `SchedulerWorker`). The priority queue with its bounded burst and rotating aging cursor is a
  class; fairness is proved over every run of pushes, removals and pops. Submitters, worker,
  quanta and shutdown form a step system whose steps interleave in any order; the worker's
  in-place code carries out those steps.
- **Resumable cold start** (`ColdStartTypes`, `ResumableJob`, `ResumableHistory`). Rebuilding and replaying the
  planner after every provider round gives exactly what one uninterrupted planner gives.
- **Ownership index** (`ReverseIndex`, `OwnershipSpec`, `OwnershipLemmas`,
  `OwnershipIndex`, `OwnershipTheorems`). Sixteen tables that agree with a linear scan of
  five forward records after every mutation, and are determined by those records.
- **Balancer event sourcing** (`PackedCash`, `BalancerSwaps`, `BalancerProbe`,
  `SortedWords`, `BalancerPlanner`, `BalancerLaws`). Packed 112-bit fields refine a token-to-cash ledger;
  the probe that finds the fields is sound; the cold-start planner ends within two rounds.
- **Batched discovery** (`DiscoveryTypes`, `DiscoveryAssembly`, `DiscoverySpec`,
  `DiscoveryTheorems`, `DiscoveryMeaning`, `DiscoveryLaws`, `Discovery`, `TokenPairs`). One plan, one fetch and
  one assembly equal naive per-pair lookup, with the exact condition on the factory drivers,
  and the answer is exactly what the chain has.
- **Quote readiness** (`QuoteReadiness`, `QuoteLaws`). Learned read sets stay within limits, failed
  warmups change nothing, and hydrating and checking in turn comes to an end.
- **Multi-pool bootstrap** (`ColdStartMany`, `ColdStartLaws`). What each pool's outcome is, and exactly when
  the final `expect` can fail.
- **Archive and templates** (`Sorting`, `RegistrationNormalForm`, `RegistrationArchive`,
  `RegistrationLaws`, `MaxLiquidity`, `BytecodeTemplate`, `BytecodeLaws`).

`Wrappers` and `Words` hold the option, result, byte, word and address types the others share;
`Picks` says what a filtering loop must produce. A module ending in `Laws`, and
`ResumableHistory`, states the results of its component field by field, without the functions
that compute them.

## Properties that fail, and when

- A waiting class has a bound on the pops until it is served, over every run from every
  queue, exactly when it is one of the two most urgent ones: two pops for the first, ninety
  for the second (`QueueFairness.UrgentWaiting`). Two urgent classes that take turns reset the
  run counter forever and starve all others (`QueueFairness.StarvationUnderAlternation`,
  `QueueFairness.BoundedExactlyForUrgent`). Those have a bound as long as the highest waiting
  class stays the same (`QueueFairness.BoundedWaiting`).
- Batched discovery equals naive discovery for every driver except a fee-keyed one whose
  `FeeSource::FactoryMapping` base differs from its tick-spacing base. That fee slot is
  never requested, so naive lookup sees no value while a batch may hold one requested by
  another driver of the same contract. For every such driver, under every storage hash that
  keeps the slots of one of its fee tiers apart, there are a second driver and a chain on
  which the two searches differ (`DiscoveryTheorems.OpenBreaksBatching`, against
  `DiscoveryTheorems.BatchedIsNaive`). The contract written on `assemble_pairs` forbids it.
- The archive's normal form ignores order and repetition exactly when no two different
  event sources tie on emitter, topics and route, because the sort key leaves out
  `indexed_topics` (`RegistrationNormalForm.NormalIgnoresOrder` and
  `RegistrationNormalForm.TiedSourcesShowTheOrder`).
- The `expect` at the end of `cold_start_many` relies on the provider bundle returning one
  result per program; with fewer it fails (`ColdStartMany.StrandedIffShort`).

## Model

| member | source | states |
|---|---|---|
| `WorkQueue.PriorityQueue.Push` | src/adapters/cold_start_scheduler.rs:496-498 | the job joins the back of its class; cursor, run counter and other classes stay |
| `WorkQueue.PriorityQueue.Pop` | src/adapters/cold_start_scheduler.rs:500-542 | the imperative selection takes exactly the job, and leaves exactly the queue, that the pop function describes |
| `WorkQueue.PriorityQueue.RemoveWhere` | src/adapters/cold_start_scheduler.rs:548-555 | takes the first match in class order and nothing else |
| `WorkQueue.PriorityQueue.Drain` | src/adapters/cold_start_scheduler.rs:544-546 | yields every queued job in class order and leaves nothing |
| `WorkQueue.PopConserves` | src/adapters/cold_start_scheduler.rs:500-542 | a pop yields a job exactly when one waits, and the queued multiset is that job plus what is left |
| `WorkQueue.PushInserts` | src/adapters/cold_start_scheduler.rs:496-498 | a push inserts one job into the drain order and moves no other |
| `WorkQueue.PopRemoves` | src/adapters/cold_start_scheduler.rs:500-542 | a pop takes one job out of the drain order and moves no other |
| `WorkQueue.MatchRemoves` | src/adapters/cold_start_scheduler.rs:548-555 | a removal takes out one matching job, or nothing matched |
| `WorkQueue.MatchIsFirst` | src/adapters/cold_start_scheduler.rs:548-555 | the removed job is the first match of the most urgent class that holds one; its class loses that position and no other class moves |
| `WorkQueue.AllInClassOrder` | src/adapters/cold_start_scheduler.rs:544-546 | what a drain yields is class 0 to class 5, each front to back |
| `QueueFairness.PopMakesProgress` | src/adapters/cold_start_scheduler.rs:506-541 | while the highest class stays the same, a pop serves the waiting lower class or lowers its bound of cursor distance and burst left |
| `QueueFairness.BoundedWaiting` | src/adapters/cold_start_scheduler.rs:33-33 | over any pushes, removals and pops with a stable highest class H, a lower class that stays waiting is served within 9 pops per class below H |
| `QueueFairness.StarvationUnderAlternation` | src/adapters/cold_start_scheduler.rs:506-541 | for any class below the second the bound fails without a stable highest class: two alternating classes keep it waiting for any number of pops |
| `QueueFairness.UrgentWaiting` | src/adapters/cold_start_scheduler.rs:500-542 | from any queue, with no stability, the first class is served within two pops and the second within ninety while it waits |
| `QueueFairness.BoundedExactlyForUrgent` | src/adapters/cold_start_scheduler.rs:500-542 | a waiting class has a pop bound over all runs from all queues exactly when it is one of the two most urgent |
| `QueueFairness.AgingOnlyAfterFullBurst` | src/adapters/cold_start_scheduler.rs:506-541 | after any history a lower class is chosen over the highest only if the eight pops just before all served that highest class |
| `QueueFairness.FirstInFirstOut` | src/adapters/cold_start_scheduler.rs:496-555 | over any pushes, removals and pops, the jobs of a class served and then those still queued are the initial and pushed ones in order, with exactly the removed ones left out |
| `QueueFairness.NothingRemovedNothingLost` | src/adapters/cold_start_scheduler.rs:496-542 | a class from which nothing is removed yields exactly its initial and pushed jobs, in order |
| `SchedulerSafety.StepKeepsInv` | src/adapters/cold_start_scheduler.rs:1121-1246 | every enabled step of submitters, worker, quanta and shutdown keeps the accounting, lease ownership, table and stage invariants |
| `SchedulerSafety.AdmissionBalances` | src/adapters/cold_start_scheduler.rs:316-344 | in every reachable state the accepted counter is reservations in progress + buffered jobs + held leases, between 0 and capacity; buffered plus queued jobs fit in capacity; tasks stay within max_concurrency |
| `SchedulerSafety.StoppedReturnsEverything` | src/adapters/cold_start_scheduler.rs:1206-1246 | once stopped no lease is held, the counter is what unfinished submits reserved, and zero without them |
| `SchedulerSafety.ReleasedOnceAndForAll` | src/adapters/cold_start_scheduler.rs:254-271 | over any run released leases stay released, and a stopped worker has released every lease ever handed out |
| `SchedulerCancel.InFlightIsAbortable` | src/adapters/cold_start_scheduler.rs:1144-1203 | in every run that admits no work id while it is still in the scheduler, each in-flight task is the one its work's abort entry names or is marked cancelled, no two attempt the same work, and marks never outlive their task |
| `SchedulerCancel.RuntimeSubmitsAreFresh` | src/adapters/live_runtime.rs:4188-4207 | the runtime's use of ids, which moves on only after a successful submit and so repeats an id after Full or Closed, never admits an id that is still in the scheduler |
| `SchedulerCancel.CancelIsFinal` | src/adapters/cold_start_scheduler.rs:611-630 | from any reachable state with Cancel(w) at position k of the channel and no batch with w behind it, once more than k commands are handled w waits nowhere, is not dispatched and its tasks are marked, however many other cancels and refused submits there are |
| `SchedulerCancel.HandledCancelIsFinal` | src/adapters/cold_start_scheduler.rs:611-630 | from the step that handles Cancel(w) on, in every continuation that does not admit w, w is never queued or dispatched while the worker serves, even if its quantum already returned Continue |
| `SchedulerCancel.SentCancelIsFinal` | src/adapters/cold_start_scheduler.rs:305-312 | from an accepted cancel call on, the same holds once the commands buffered before it and it have been handled |
| `SchedulerClasses.JobsWaitUnderTheirClass` | src/adapters/cold_start_scheduler.rs:563-602 | in every reachable state each queued job, new or requeued after a Continue, waits under the class it was submitted with |
| `SchedulerBatches.BatchJoinsItsClasses` | src/adapters/cold_start_scheduler.rs:563-602 | handling a batch leaves each class's jobs in front, puts the batch's jobs of that class behind them in batch order with their own work ids and new leases, and moves nothing else |
| `SchedulerBatches.BatchOrderIsDispatchOrder` | src/adapters/cold_start_scheduler.rs:563-602 | of two jobs of one class in one batch the earlier is dispatched before the later, in every run that neither cancels the first nor admits the second again |
| `SchedulerJobs.ReservedExactlyIfItFits` | src/adapters/cold_start_scheduler.rs:316-333 | in every reachable state a reservation succeeds exactly if the batch fits beside all that is counted, and otherwise changes nothing |
| `SchedulerJobs.ShutdownUndoes` | src/adapters/cold_start_scheduler.rs:334-337 | a submit that sees the shutdown flag is taken out and its reservation returned; otherwise it goes on |
| `SchedulerJobs.SubmitThatFits` | src/adapters/cold_start_scheduler.rs:316-345 | short of shutdown a submit that fits ends up last in the channel |
| `SchedulerJobs.RequestedShutdownRefuses` | src/adapters/cold_start_scheduler.rs:334-337 | after a shutdown request every submit that looks for it later is refused, in any run |
| `SchedulerJobs.NoJobIsLost` | src/adapters/cold_start_scheduler.rs:1127-1205 | while the worker serves, an admitted job that nobody cancels stays buffered, queued under its class or running until a finished or failed quantum of it is joined |
| `SchedulerJobs.JoinAccounts` | src/adapters/cold_start_scheduler.rs:1163-1192 | a join takes the work out of the scheduler, except that an unmarked Continue puts it back |
| `SchedulerJobs.DispatchWhenRoom` | src/adapters/cold_start_scheduler.rs:1144-1160 | the worker dispatches exactly while it serves, has a free place and a job waits, and that job then runs |
| `SchedulerJobs.ContinueComesBack` | src/adapters/cold_start_scheduler.rs:1163-1174 | a quantum that returns Continue has its job put back behind its class, its slot kept |
| `SchedulerJobs.EndedIsGone` | src/adapters/cold_start_scheduler.rs:1175-1192 | one that finishes or fails is gone, its slot is free and the queue is as it was |
| `SchedulerJobs.EarlyReleaseReturnsSlot` | src/adapters/cold_start_scheduler.rs:254-271 | a running quantum gives its slot back before a terminal commit |
| `SchedulerJobs.JoinFreesSlot` | src/adapters/cold_start_scheduler.rs:1163-1192 | after a join the lease is held exactly if the job went back to the queue |
| `SchedulerTurn.ChannelIsFifo` | src/adapters/cold_start_scheduler.rs:1135-1143 | while the worker folds, the channel is what was buffered and sent, in order, less what was received |
| `SchedulerTurn.FoldedBeforeDispatch` | src/adapters/cold_start_scheduler.rs:1131-1160 | a fold that ends on an empty channel has handled every command buffered when the turn began and sent meanwhile; at a later dispatch of the turn only commands sent since are buffered |
| `SchedulerTurn.BufferedIsNotOvertaken` | src/adapters/cold_start_scheduler.rs:1131-1160 | the first dispatch of a turn serves a class at least as urgent as every uncancelled job buffered or queued when the turn began, unless the most urgent class has spent its burst |
| `SchedulerDrain.StepsLeftFall` | src/adapters/cold_start_scheduler.rs:1206-1246 | after the loop is left every drain and quantum step lowers the count of buffered commands, queued jobs, task steps and stages, and no other step changes it |
| `SchedulerDrain.DrainEnds` | src/adapters/cold_start_scheduler.rs:1206-1246 | the shutdown drain takes at most that many steps, has stopped the worker after that many, and can always go on before |
| `SchedulerWorker.Worker.constructor` | src/adapters/cold_start_scheduler.rs:1118-1126 | a fresh worker is the initial state of the step system |
| `SchedulerWorker.Worker.ReleaseLease` | src/adapters/cold_start_scheduler.rs:262-270 | the in-place release is the release transition |
| `SchedulerWorker.Worker.EnqueueCommand` | src/adapters/cold_start_scheduler.rs:563-602 | the loop gives each job of a batch a lease of its own and queues it behind its class in batch order, leaving every other class as it was |
| `SchedulerWorker.Worker.HandleWorkerCommand` | src/adapters/cold_start_scheduler.rs:611-630 | cancel (queued first, then in flight) and enqueue in place are the receive transition |
| `SchedulerWorker.Worker.DispatchOne` | src/adapters/cold_start_scheduler.rs:1144-1160 | pop, spawn and the two table inserts are the dispatch transition |
| `SchedulerWorker.Worker.DispatchReady` | src/adapters/cold_start_scheduler.rs:1144-1160 | the dispatch loop is a run of dispatch steps that ends with no free slot or no queued job |
| `SchedulerWorker.Worker.Turn` | src/adapters/cold_start_scheduler.rs:1131-1160 | folding every buffered command and then dispatching is a run of exactly that many receive steps followed by dispatch steps, and leaves no free slot or no queued job |
| `SchedulerWorker.Worker.JoinNext` | src/adapters/cold_start_scheduler.rs:1164-1191 | the three join branches in place are the join transition |
| `ResumableJob.SamePreparedPlanIsEquality` | src/adapters/cold_start.rs:1526-1543 | the field-by-field plan comparison holds exactly for equal plans |
| `ResumableJob.PatchOverlays` | src/adapters/cold_start.rs:1459-1479 | a round overlays exactly its slots, each with the last value the provider gave |
| `ResumableJob.ChangesExplain` | src/adapters/cold_start.rs:1465-1478 | a slot's value after a round is what its last listed change says, or what it was before |
| `ResumableJob.RoundAdvances` | src/adapters/cold_start.rs:1416-1522 | recording one more round moves the replayed planner one step along the uninterrupted run, or ends both |
| `ResumableJob.RunFromNeverDiverges` | src/adapters/cold_start.rs:1432-1446 | an uninterrupted run never reports a diverged transcript |
| `ResumableJob.NewJob` | src/adapters/cold_start.rs:1363-1414 | a job is accepted exactly with a non-zero budget and a planner for its pool, and then has the whole uninterrupted run ahead of it; a refusal is the uninterrupted result |
| `ResumableJob.PreparedPoolJob.Replay` | src/adapters/cold_start.rs:1422-1446 | the replay loop rebuilds the planner state after the stored rounds, or finds that it strays or ended |
| `ResumableJob.PreparedPoolJob.Absorb` | src/adapters/cold_start.rs:1459-1479 | the overlay and change list of a round, value by value |
| `ResumableJob.PreparedPoolJob.Step` | src/adapters/cold_start.rs:1416-1522 | one quantum yields the next piece of the uninterrupted run, at most one fetch, overlay and counters equal to the transcript's; divergence is reported exactly when the planner had already finished |
| `ResumableJob.PrepareResumablePool` | src/adapters/cold_start.rs:1568-1588 | stepping to the end gives exactly the uninterrupted planner's result, never a divergence, with at most max_rounds fetches |
| `ResumableHistory.ResultHasHistory` | src/adapters/cold_start.rs:1416-1522 | the result is that of a history: each round fetches the plan's verify and probe slots, hands the planner the provider's own classifications, nothing discovered and exactly the changed values, and lets it see the overlay; the history ends done, over budget, on an unsupported phase or a failed fetch, with the result that fits |
| `ResumableHistory.RecordedRoundIsHanded` | src/adapters/cold_start.rs:1480-1492 | the same of every recorded round of a job |
| `ResumableHistory.PatchedListsChanges` | src/adapters/cold_start.rs:1465-1478 | the change list names exactly the patch entries that change a value, in order, with the value replaced |
| `ResumableHistory.FailuresCounts` | src/adapters/cold_start.rs:1590-1608 | the failure counter counts exactly the failed outcomes |
| `ReverseIndex.InsertOwner` | src/adapters/ownership.rs:774-780 | inserting an owner key by key is the one table with the owner added at every key |
| `ReverseIndex.RemoveOwner` | src/adapters/ownership.rs:782-794 | removing an owner key by key drops exactly its entries and every key left empty |
| `ReverseIndex.ReplaceKeepsReverse` | src/adapters/ownership.rs:444-468 | removing an owner's old keys and inserting its new ones turns a right table into a right table |
| `ReverseIndex.ReverseIsUnique` | src/adapters/ownership.rs:291-308 | a reverse table that agrees with the declarations is determined by them |
| `OwnershipSpec.Normalized` | src/adapters/ownership.rs:92-103 | normalising adds exactly the whole accounts and slot contracts to the associated addresses |
| `OwnershipIndex.AmmOwnershipIndex.constructor` | src/adapters/ownership.rs:291-308 | an empty index agrees with empty records |
| `OwnershipIndex.AmmOwnershipIndex.InsertAdapter` | src/adapters/ownership.rs:358-366 | rejected without change exactly when the family key is live; otherwise the records gain the adapter and all tables still agree |
| `OwnershipIndex.AmmOwnershipIndex.InsertPool` | src/adapters/ownership.rs:369-420 | the answer is what a scan of the records gives, in check order; a rejection changes nothing; otherwise the records gain the pool and every table agrees |
| `OwnershipIndex.AmmOwnershipIndex.ReplacePool` | src/adapters/ownership.rs:424-470 | only the exact live generation with the same handler and adapter is replaced; tables agree with the new dependencies; work and resyncs are untouched |
| `OwnershipIndex.AmmOwnershipIndex.RemovePool` | src/adapters/ownership.rs:656-688 | the pool leaves every table and the report is exactly its ownership, tracked work and resyncs |
| `OwnershipIndex.AmmOwnershipIndex.InsertDiscovery` | src/adapters/ownership.rs:473-498 | accepted exactly for a known adapter and a new key; a rejection changes nothing |
| `OwnershipIndex.AmmOwnershipIndex.RemoveDiscovery` | src/adapters/ownership.rs:691-706 | removes the exact generation and its work, and reports both |
| `OwnershipIndex.AmmOwnershipIndex.RemoveAdapter` | src/adapters/ownership.rs:709-738 | refused without change exactly when a pool or discovery owner still uses it |
| `OwnershipIndex.AmmOwnershipIndex.TrackWork` | src/adapters/ownership.rs:581-588 | accepted exactly for a live owner and untracked work; a rejection changes nothing |
| `OwnershipIndex.AmmOwnershipIndex.UntrackWork` | src/adapters/ownership.rs:591-600 | removes exactly that work, and the owner's entry with its last work |
| `OwnershipIndex.AmmOwnershipIndex.TrackResync` | src/adapters/ownership.rs:608-622 | accepted exactly for an indexed pool and a request no pool tracks; a rejection changes nothing |
| `OwnershipIndex.AmmOwnershipIndex.UntrackResync` | src/adapters/ownership.rs:634-647 | finds the one pool tracking the request and removes it from that pool only |
| `OwnershipIndex.AmmOwnershipIndex.PoolsForSlot` | src/adapters/ownership.rs:562-568 | exactly the pools declaring the slot or its whole account, all of them associated with the address |
| `OwnershipIndex.AmmOwnershipIndex.PoolsForAddress` | src/adapters/ownership.rs:557-559 | exactly the pools associated with the address |
| `OwnershipIndex.AmmOwnershipIndex.PoolsForEmitter` | src/adapters/ownership.rs:571-573 | exactly the pools consuming logs of the emitter |
| `OwnershipTheorems.PoolsDetermined` | src/adapters/ownership.rs:291-308 | active, handler and adapter tables are determined by the pool records |
| `OwnershipTheorems.StateDetermined` | src/adapters/ownership.rs:291-308 | address, whole-account, slot and emitter tables are determined by the pool records |
| `OwnershipTheorems.ResyncsDetermined` | src/adapters/ownership.rs:291-308 | the resync owner table is determined by the pools' requests |
| `OwnershipTheorems.OneLiveGeneration` | src/adapters/ownership.rs:384-396 | two indexed pools with one key or one handler are the same generation |
| `OwnershipTheorems.RoundTrip` | src/adapters/ownership.rs:369-688 | insert, any tracking and untracking of the pool's own work and resyncs, remove: every table is back as it was and the report is exactly what was still open |
| `PackedCash.SetThenGet` | src/adapters/balancer_v2.rs:61-73 | a written field reads back; the other field and the block number are kept |
| `PackedCash.BitsOfField` | src/adapters/balancer_v2.rs:61-64 | reading a field reads its 112 bits |
| `PackedCash.BitsOfSetField` | src/adapters/balancer_v2.rs:68-73 | writing a field replaces its 112 bits and keeps every other bit |
| `PackedCash.ApplyCashDelta` | src/adapters/balancer_v2.rs:77-88 | a delta is applied exactly when the new cash is a 112-bit number |
| `BalancerSwaps.SwapWrites` | src/adapters/balancer_v2.rs:179-213 | a swap is event-sourced exactly when both tokens are located in different warm cash fields and both amounts stay in range; the writes, shared word or two words, move both amounts |
| `BalancerSwaps.SwapRefinesLedger` | src/adapters/balancer_v2.rs:179-213 | with true, distinct locations a swap performs the ledger's swap on the packed words or writes nothing, exactly when the ledger allows it |
| `BalancerSwaps.SwapKeepsOtherBits` | src/adapters/balancer_v2.rs:68-88 | every slot, and every bit outside the two cash fields, is kept |
| `BalancerSwaps.HistoryRefinesLedger` | src/adapters/balancer_v2.rs:179-213 | over any history decoding the packed words gives the ledger of the same history |
| `BalancerSwaps.LayoutDoesNotMatter` | src/adapters/balancer_v2.rs:193-212 | shared-slot and separate-slot layouts of the same cash stay equal over any history |
| `BalancerProbe.FindMatches` | src/adapters/balancer_v2.rs:113-127 | the filtering loop collects the matching fields slot by slot, low before high |
| `BalancerProbe.ProbeTokenCash` | src/adapters/balancer_v2.rs:100-134 | the loops compute the probed list of the paired tokens and balances |
| `BalancerProbe.MatchesAreHolding` | src/adapters/balancer_v2.rs:113-127 | the matches are exactly the warm vault fields, high only for two-token pools, that hold the balance |
| `BalancerProbe.LocatedIffUnique` | src/adapters/balancer_v2.rs:110-131 | a location is returned exactly when it is the only candidate holding a non-zero balance |
| `BalancerProbe.ProbeIsTruthful` | src/adapters/balancer_v2.rs:90-134 | if every true cash field is a candidate holding its reported balance, every location returned is the true one |
| `BalancerProbe.ProbedFieldsDistinct` | src/adapters/balancer_v2.rs:90-134 | so different tokens are never given the same field |
| `BalancerProbe.ProbedHistoryRefinesLedger` | src/adapters/balancer_v2.rs:737-750 | from a sound probe on, every history of swaps keeps the decoded cash equal to the ledger |
| `BalancerLaws.ProbeListsExactly` | src/adapters/balancer_v2.rs:100-134 | the probe lists, in token order, exactly the tokens whose non-zero balance one candidate field alone holds, each with that field |
| `BalancerLaws.PoolIdParts` | src/adapters/balancer_v2.rs:52-57 | a pool id is read as 20 bytes of address, two of specialization and ten more |
| `BalancerPlanner.BalancerV2ColdStartPlanner.constructor` | src/adapters/balancer_v2.rs:572-614 | known slots, sorted and distinct, select the verify-only mode |
| `BalancerPlanner.BalancerV2ColdStartPlanner.InitialPlan` | src/adapters/balancer_v2.rs:618-650 | verify exactly the known slots, or ensure the vault and discover |
| `BalancerPlanner.BalancerV2ColdStartPlanner.OnResults` | src/adapters/balancer_v2.rs:652-754 | continues only from discovery to verifying the vault slots found; done without repair exactly when every verified slot came back as a value or zero, with the cash map probed or carried |
| `BalancerPlanner.BalancerV2ColdStartPlanner.Finish` | src/adapters/balancer_v2.rs:756-827 | Ready exactly without a repair, recording sorted distinct slots; otherwise the metadata is untouched and the repair fits the failure; the report has the verified and changed slots |
| `BalancerPlanner.Drive` | src/adapters/balancer_v2.rs:617-754 | any provider ends the planner within two rounds, one if it verifies at once; a discovery without repair keeps the tokens and slots of its call and the cash probed after the last round |
| `BalancerPlanner.ColdStart` | src/adapters/balancer_v2.rs:373-419 | Ready implies every persisted slot arrived in the last round; a Ready discovery records the probed cash; known slots give one verify round, Ready exactly if all arrive, and metadata kept but for sorting |
| `BalancerPlanner.ReadyDiscoveryRefinesLedger` | src/adapters/balancer_v2.rs:737-750 | what a Ready discovery records keeps the decoded cash equal to the ledger over every later history of swaps, if the state it probed held the reported balances |
| `BalancerLaws.ReadyDiscoveryLocatesAll` | src/adapters/balancer_v2.rs:737-750 | a Ready discovery records every token whose balance one vault field alone holds |
| `BalancerLaws.ArrivedIs` | src/adapters/balancer_v2.rs:719-736 | a slot has arrived exactly if the first outcome recorded for it is a value or a genuine zero |
| `BalancerLaws.VaultSlotsKept` | src/adapters/balancer_v2.rs:692-701 | of the slots a call touched those on the vault are kept, in order |
| `BalancerPlanner.ColdStartAgain` | src/adapters/balancer_v2.rs:572-614 | cold-starting a Ready registration again verifies exactly its slots and leaves the metadata unchanged |
| `DiscoveryTypes.I24RoundTrip` | src/adapters/factory.rs:264-276 | the word of an int24 is its 256-bit two's complement, and decoding returns the value |
| `TokenPairs.PairsAmong` | src/adapters/factory.rs:83-95 | exactly the normalised pairs of different basket tokens, strictly sorted, n(n-1)/2 of them for n distinct tokens |
| `DiscoveryAssembly.AssemblePairs` | src/adapters/factory.rs:2067-2150 | the loops over pairs and keys probe the candidates in order until one fails, with the verify-once flag carried along |
| `DiscoveryAssembly.AssembleConcat` | src/adapters/factory.rs:1373-1380 | assembling a concatenation is assembling its parts one after the other |
| `DiscoveryAssembly.ClosedDependsOnRequested` | src/adapters/factory.rs:1369-1372 | a driver whose fee slot is among its reads depends on nothing but the slots it asked for |
| `DiscoveryAssembly.OpenDependsOnMore` | src/adapters/factory.rs:1983-1997 | a fee-keyed driver with a separate fee mapping does not: under any hashes without a collision for one of its tiers an unrequested value changes its pool |
| `DiscoverySpec.PairFromShared` | src/adapters/factory.rs:1341-1353 | find_pools on one pair's own reads gives what the shared answers give |
| `DiscoverySpec.VerifiedStays` | src/adapters/factory.rs:1757-1767 | a passed derivation check is never taken back |
| `DiscoveryTheorems.EntryIsTasks` | src/adapters/factory.rs:1606-1620 | one plan entry assembled from shared answers, or run as legacy, is its pairs asked one by one |
| `DiscoveryTheorems.BatchedIsNaive` | src/adapters/factory.rs:1644-1657 | one batched plan, fetch and assembly equals naive per-pair search in query, factory and pair order with first-of-key de-duplication, errors and verify-once flags included, for drivers that read what they ask for |
| `DiscoveryTheorems.OpenBreaksBatching` | src/adapters/factory.rs:1983-1997 | for every driver outside that condition, under every hash without a collision for one of its tiers, there are a second driver and a chain on which the batch gives the pool a fee the naive search leaves unset |
| `DiscoveryMeaning.ProbeMeans` | src/adapters/factory.rs:2079-2118 | a probe reports a pool exactly when the mapping word is non-zero, with that address, its key's spacing or variant, and a positive spacing read for a fee tier |
| `DiscoveryMeaning.FirstPoolIsDerived` | src/adapters/factory.rs:1936-1967 | an assembly of a verifying driver that starts unverified and succeeds is verified exactly when it found a pool, and its first pool has the address its candidate derives |
| `DiscoveryMeaning.SearchMeans` | src/adapters/factory.rs:1628-1657 | a successful search with built-in drivers lists each key once, reports only queried pools the chain has, with the fee, spacing and variant the chain and configuration give, and misses none under the keys tried |
| `DiscoveryLaws.ProbeOrder` | src/adapters/factory.rs:2066-2170 | pair by pair a driver tries the plain mapping, or every fee tier, or every tick spacing, or the volatile and then the stable variant |
| `DiscoveryLaws.SearchListsEveryPool` | src/adapters/factory.rs:2332-2366 | a successful search lists every pool the chain has for a queried pair under each of those keys |
| `DiscoveryLaws.BatchListsEveryPool` | src/adapters/factory.rs:1644-1657 | so does the batched search, for drivers that read what they ask for |
| `DiscoveryLaws.ProbeFailure` | src/adapters/factory.rs:1936-1967 | a probe fails exactly for a word that is no address, an unchecked derivation mismatch, a tier without positive spacing or a fee that cannot be, in that order |
| `DiscoveryLaws.FirstMissingIs` | src/adapters/factory.rs:1536-1545 | the refused scope is the first that no factory serves |
| `DiscoveryLaws.FirstPoolWins` | src/adapters/factory.rs:1617-1621 | of several pools with one key the first is kept, and the kept ones stay in order |
| `DiscoveryLaws.FirstFactoryWins` | src/adapters/factory.rs:1479-1489 | of several factories with one protocol and address the first is kept, in order |
| `DiscoveryLaws.TasksInOrder` | src/adapters/factory.rs:1549-1576 | a search asks exactly the factories in scope for exactly the pairs, in query, factory and pair order |
| `DiscoveryLaws.RepeatedReadIs` | src/adapters/factory.rs:1516-1521 | the repeated value reported is the first that an earlier entry has given |
| `DiscoveryLaws.FirstLegacyIs` | src/adapters/factory.rs:1560-1566 | the legacy driver refused is that of the first legacy entry |
| `Discovery.PoolDiscovery.constructor` | src/adapters/factory.rs:1445-1489 | keeps the first factory of every identity in insertion order |
| `Discovery.PoolDiscovery.PrepareReadsWithMode` | src/adapters/factory.rs:1530-1581 | missing scopes first; then the entries of every query and matching factory in order, or the first legacy one refused |
| `Discovery.PoolDiscovery.PrepareReads` | src/adapters/factory.rs:1499-1504 | a plan handed out has no legacy entries |
| `Discovery.PoolDiscovery.AssemblePlan` | src/adapters/factory.rs:1583-1626 | the assembly loop with its seen set is the de-duplicated run of the entries |
| `Discovery.PoolDiscovery.AssemblePrepared` | src/adapters/factory.rs:1511-1528 | a repeated value, or else the first missing read in order, is refused before anything runs; otherwise the plan is assembled from exactly the supplied values |
| `Discovery.PoolDiscovery.FindMany` | src/adapters/factory.rs:1644-1657 | the method is the batched search, hence the naive search for drivers that read what they ask for; a refused batch read is its error, after an unserved scope; what it lists is DiscoveryLaws.BatchListsEveryPool |
| `Discovery.PreparedAgrees` | src/adapters/factory.rs:1511-1528 | for drivers that read what they ask for, assembling a prepared plan from any values holding the chain's answers agrees with find_many |
| `Discovery.PreparedIsBatched` | src/adapters/factory.rs:1511-1528 | from exactly the fetched values it agrees with find_many for every driver |
| `QuoteReadiness.QuoteRegistry.WarmQuoteReadSets` | src/adapters/quote_warmup.rs:280-343 | a failed warmup installs nothing; a successful one installs every request's accesses, within limits, each replayed offline to the same quote with nothing missing |
| `QuoteReadiness.QuoteRegistry.HydrateQuoteReadSets` | src/adapters/quote_warmup.rs:389-419 | asks for exactly what the manifests name, drops exactly those whose code changed, and after a complete report the manifests are unchanged and all they name is resident |
| `QuoteReadiness.QuoteRegistry.ValidateQuoteReadSets` | src/adapters/quote_warmup.rs:425-482 | fail-closed: a check that passes found nothing missing from any replay; an uncovered pool fails first, if required, else the first faulty request in field order decides, and an incomplete replay grows that one manifest within its limit |
| `QuoteReadiness.CompleteIsResident` | src/adapters/quote_warmup.rs:152-163 | a complete hydration report means that every manifest is kept and everything it names is held |
| `QuoteReadiness.IncompleteGrows` | src/adapters/quote_warmup.rs:460-477 | after a complete hydration an incomplete check strictly grows the manifest it blames and no other, within limits |
| `QuoteReadiness.ReadinessConverges` | src/adapters/quote_warmup.rs:389-482 | over any run that hydrates and checks in turn, all checks together find a snapshot incomplete at most as often as the learned manifests have room to grow, and limits hold throughout |
| `QuoteReadiness.ReadinessSettles` | src/adapters/quote_warmup.rs:389-482 | with complete hydrations and served, covered requests, a longer run has a check that passes, exceeds a limit or fails in the adapter |
| `QuoteLaws.CheckMeans` | src/adapters/quote_warmup.rs:425-482 | a check passes exactly if coverage holds and every request of the pools is served, has a quote and misses nothing; otherwise it fails on an uncovered pool or on the first request that does not, with the reason |
| `QuoteLaws.InstalledLast` | src/adapters/quote_warmup.rs:336-338 | a learned request has the manifest learned for it last |
| `QuoteLaws.DropsChangedCode` | src/adapters/quote_warmup.rs:394-411 | hydration drops exactly the manifests naming changed code and reports them |
| `QuoteLaws.CompleteExactly` | src/adapters/quote_warmup.rs:152-163 | a report is complete exactly when nothing failed, no code changed and all that is named is held |
| `ColdStartMany.Classify` | src/adapters/cold_start.rs:1838-1858 | the fast indices are the eligible ones in order and all others are marked fallback |
| `ColdStartMany.ChangesAre` | src/adapters/cold_start.rs:715-728 | the changes recorded are exactly the loaded entries that differ from the value cached before the batch |
| `ColdStartMany.InjectedIs` | src/adapters/cold_start.rs:715-728 | injecting leaves each loaded slot with its last value and no other slot changed |
| `ColdStartMany.Hydrate` | src/adapters/cold_start.rs:1882-1906 | each decoded result gives its own pool a Ready report against the cache of its time; a failed one marks its pool fallback |
| `ColdStartMany.LoadExternal` | src/adapters/cold_start.rs:1908-1974 | one batch of exactly the finished pools' external cells; a pool missing one loses its outcome and is marked fallback |
| `ColdStartMany.FinishFallbacks` | src/adapters/cold_start.rs:1976-1981 | every fallback pool gets the outcome of its cold start on the cache the earlier ones left, or the first failure is returned |
| `ColdStartMany.RunColdStartMany` | src/adapters/cold_start.rs:1824-2003 | one outcome per pool in input order: fast Ready exactly when program and external cells loaded, else the cold start on the cache left by the warmed batch and the earlier fallbacks; with one result per program the final expect never fails, and with fewer the call cannot succeed |
| `ColdStartMany.StrandedIffShort` | src/adapters/cold_start.rs:1889-1906 | some pool is left without outcome or fallback mark exactly when the bundle answers fewer programs than it was given |
| `ColdStartLaws.FastReadyIs` | src/adapters/cold_start.rs:1838-1974 | the bundle finishes a pool exactly if it takes part, its own result decoded and its external cells all loaded |
| `ColdStartLaws.FastReportIs` | src/adapters/cold_start.rs:1882-1974 | such a report lists the program's slots and then the external cells, and the changes to each with the values before and after |
| `ColdStartLaws.HydratedIs` | src/adapters/cold_start.rs:1882-1906 | after some results a slot has the last value they gave it |
| `ColdStartLaws.ExternalChangesListTargets` | src/adapters/cold_start.rs:1955-1972 | the external changes are the cells whose value differs, each from what it was to what it is |
| `ColdStartLaws.FallbacksChain` | src/adapters/cold_start.rs:1976-1981 | the caches the fallbacks see form a chain from the warmed cache, each step the cold start of a marked pool |
| `MaxLiquidity.BoundExists` | src/adapters/bytecode.rs:212-224 | a bound exists exactly for positive spacings |
| `MaxLiquidity.UsableTicks` | src/adapters/bytecode.rs:216-219 | the ticks counted are exactly the multiples of the spacing within the tick range |
| `MaxLiquidity.BoundIsSafe` | src/adapters/bytecode.rs:212-224 | any assignment within the bound on every usable tick sums to at most 2^128-1 |
| `MaxLiquidity.BoundIsLargest` | src/adapters/bytecode.rs:212-224 | one more on every usable tick exceeds 2^128-1 |
| `MaxLiquidity.BoundIsMonotone` | src/adapters/bytecode.rs:212-224 | a wider spacing allows at least as much per tick |
| `BytecodeTemplate.PatchWord` | src/adapters/bytecode.rs:573-606 | in place, every range is overwritten in order, or the first malformed one is refused with what is wrong with it |
| `BytecodeTemplate.Render` | src/adapters/bytecode.rs:342-384 | succeeds exactly when every immutable with patches has a value and its ranges fit, with all ranges written in order; otherwise the error names the first field that cannot be written and how |
| `BytecodeTemplate.ByteOfWritten` | src/adapters/bytecode.rs:573-606 | every byte is the template's or that of the last range written over it |
| `BytecodeTemplate.RangeReadsBack` | src/adapters/bytecode.rs:512-571 | with disjoint ranges every range reads back as the value modulo its width |
| `BytecodeLaws.BigEndian` | src/adapters/bytecode.rs:512-571 | the bytes written are those of the value, most significant first |
| `BytecodeLaws.WritesInOrder` | src/adapters/bytecode.rs:342-384 | every range of every field with a value is written once, field by field and range by range |
| `BytecodeLaws.FieldReadsBack` | src/adapters/bytecode.rs:342-384 | with separate ranges each field reads back from each of its ranges, modulo the width |
| `BytecodeLaws.RestIsTemplate` | src/adapters/bytecode.rs:573-606 | a byte no range covers is the template's |
| `RegistrationNormalForm.NormalIsStable` | src/adapters/persistence.rs:1026-1065 | normalising is idempotent |
| `RegistrationNormalForm.NormalIgnoresOrder` | src/adapters/persistence.rs:1036-1049 | without event sources tied on emitter, topics and route the normal form ignores order and repetition |
| `RegistrationNormalForm.TiedSourcesShowTheOrder` | src/adapters/persistence.rs:1040-1049 | with such a tie moving one source to the front, and nothing else, changes the normal form |
| `RegistrationNormalForm.SourceTies` | src/adapters/persistence.rs:1040-1045 | sources tie exactly when they differ in nothing but their indexed topics |
| `RegistrationArchive.Capture` | src/adapters/persistence.rs:65-87 | succeeds exactly within the limits and without custom pools; the archive holds the normal forms sorted by key |
| `RegistrationArchive.CaptureGives` | src/adapters/persistence.rs:65-87 | what is captured from distinct pools is normal, sorted and distinct |
| `RegistrationArchive.Load` | src/adapters/persistence.rs:138-211 | the loading loop is the loading function, whose results and refusals are stated in RegistrationLaws |
| `RegistrationArchive.SaveThenLoad` | src/adapters/persistence.rs:111-211 | loading a saved archive returns the same registrations with their statuses resumed, for any codec that decodes what it encodes |
| `RegistrationArchive.LoadIsSound` | src/adapters/persistence.rs:138-211 | whatever the file, a successful load had the right magic, version, checksum and chain, and returns normal, sorted registrations of distinct keys, none of them ready |
| `RegistrationLaws.SavedComesBack` | src/adapters/persistence.rs:963-971 | a saved archive loads with every field but the status equal; a status is Pending exactly if the saved one was Pending, Cold, Ready or Degraded, and else the saved one |
| `RegistrationLaws.LoadReturnsTheFile` | src/adapters/persistence.rs:138-211 | whatever the file, a successful load returns each of its registrations once: its contents, the resumed status, every list within its limit and metadata of its key's family |
| `RegistrationLaws.LoadRefuses` | src/adapters/persistence.rs:147-191 | each refusal of the envelope, in the order it is looked for |
| `RegistrationLaws.RestoreDecides` | src/adapters/persistence.rs:195-204 | one registration is taken exactly if within limits, fitting, new and not custom; otherwise the error says which failed |
| `RegistrationLaws.NormalKeepsContent` | src/adapters/persistence.rs:1026-1065 | normalising keeps key, status, token order and the elements of every list |
| `RegistrationLaws.NormalIsSorted` | src/adapters/persistence.rs:1026-1065 | normal lists are in order: addresses, topics and slots strictly, sources by emitter, topics and route |
| `RegistrationLaws.ArchiveIsSorted` | src/adapters/persistence.rs:82-82 | an archive lists its pools by family and then by id |

## Left out

- Tokio timing, retries and watch channels: only the atomic steps they induce are kept.
- SchedulerSafety.AdmissionBalances: in the step system receive, dispatch and join steps interleave freely, so it covers the worker loop's own order and more; what that order adds is in SchedulerTurn.
- SchedulerWorker.Worker.Turn: commands that arrive during the fold are steps of SchedulerTurn's runs, not of the method, which folds those buffered when it is called.
- SchedulerDrain.DrainEnds: that every spawned quantum returns in the end is an assumption on the quanta; the theorem counts their steps.
- Runtime callbacks of the scheduler (cancel_scheduled_work, fail_scheduled_work, commits) have no effect in the model beyond the lease they release.
- ResumableJob.PrepareResumablePool: the planner is a deterministic function of its state and inputs; code seeds, verified accounts and the final registration patch that follow the planner are not modelled.
- Orders of returned sets: adapters, pools and owners are returned as sets, and lists the source keeps sorted without repeats are sets in the ownership and discovery models.
- OwnershipIndex.AmmOwnershipIndex.RemovePool: resyncs are reported in tracking order, not in the display order of their debug text.
- AmmOwnershipIndex: the sixteen tables are grouped into record-valued fields; from_registry and the DuplicatePoolInstance and DuplicateDiscoveryInstance errors, unreachable under the invariant, are left out.
- Balancer ABI decoding, topic hashes and the decode of logs into swaps: the decoder is a parameter; PoolBalanceChanged always resyncs.
- Discovery creation logs (decode_creation, creation_sources), builders and presets: finite lookups.
- DiscoveryMeaning.SearchMeans: covers the built-in drivers; an external driver may report anything.
- Keccak, mapping-slot hashing and CREATE2 (EIP-1014) are arbitrary functions.
- QuoteReadiness.ReadinessSettles: what hydration leaves resident is a parameter; the cache that fetches it is not part of this model.
- Curve planner, repair, diagnostics, driver and sync engine: they add no new difficulty or are thin.
- ColdStartMany.RunColdStartMany: classification inputs (adapter present, one-shot eligible, metadata complete) are given per pool; code seeding and quote-target warming, which change no outcome, are left out.
- BytecodeTemplate.Render: the seven immutables are a list in the source's order; a range that would overflow the address type is reported as out of bounds, as in the source.
- RegistrationArchive.SaveThenLoad: JSON text, checksums and file replacement are a codec and a checksum function; persisted mirror types have the registration's own fields, and fields that are only copied are one opaque value.
- RegistrationArchive.Load: a limit error says that a registration is over a limit, not which of its lists.
