# Timechain: a Dafny model

A model of the stateful core of Timechain and proofs of what it promises: threshold signing (ROAST) and
key generation (DKG) between a shard's members, the on-chain lifecycle of members and shards, the task
scheduler with its queues and batches, the transaction worker's retry loop, and the CCTP message codec.

Three kinds of file belong together for each part. A *specification* file gives the stored state as a
value and each operation as a function. *Invariant* and *run* files prove properties of every run of those
functions, with calls in any order, messages in any order and hooks in their place. A *machine* file has
the classes whose methods change the state in place with the loops of the original, each proved equal to
its function.

| part | files |
|---|---|
| ROAST | RoastSpec, Roast (classes), RoastSafety (any messages), RoastWorld, RoastInvariant, RoastRobustness, Tss |
| key generation | Field, Polynomials, Dkg (class), DkgSafety (any messages), DkgWorld |
| members, elections, shards | LifecycleSpec, LifecycleInvariant, LifecycleSteps, LifecycleElections, LifecycleRuns, LifecycleHistory, LifecycleRank, LifecycleKeys, LifecycleHeartbeats, LifecycleKeeping, LifecycleFalls, Lifecycle (class) |
| tasks | TasksSpec, TasksInvariant, TasksSteps, TasksSchedule, TasksRuns, TasksReports, TasksUnderflow, TasksBatches, TasksTiling, TasksReaders, TasksKeeping, TasksEvents, TasksOperations, TasksOutcomes, TasksSites, Tasks (classes), Queue (class), TasksQueues |
| worker, codec | Worker (class), Cctp |
| shared | Options, Arithmetic, FiniteSets, Sequences |

`dafny verify dfyconfig.toml` checks the whole project.

In the table below, the row of a class method says which loop or sequence of writes is proved to leave
exactly the state its specification function gives; what that state is worth is said by the rows of the
lemmas.

## How the source is read

- FROST is modelled by tokens: a commitment names one nonce, a share is valid for one package, and t valid
  shares of one package aggregate. Key generation is done over the scalar field of secp256k1, a group
  element being represented by its discrete logarithm, so that adding points adds logarithms.
- The network is a multiset of messages; delivery order is arbitrary and members may fall silent.
- The storage of the on-chain pallets is one key-value store, so the classes `Runtime` and `TasksPallet`
  hold it as one record and each write replaces an entry of it. Orders in which storage is iterated are not
  fixed by the source; they are parameters of the functions and results of the methods.
- What comes from elsewhere (signatures that check out, gateway presence, public keys, limits) is a
  parameter. A failing call leaves the storage as it was.
- Premises, where a theorem needs them: 1 ≤ threshold ≤ size, a batch size above zero, a member is always
  registered for the same network, a shard keeps its network, executed batches are reported under their
  task's own network, fewer than 2^32 unexecuted tasks, and counters below saturation. Members are given
  the data to sign at any time, or never; only the bounds on sessions and on the length of runs need it at
  the coordinators from the start.

Where the documentation and the code disagree the code is followed: the pool of unassigned members is
documented as sorted by stake but is sorted by account only, and registering a member is documented to
bring it online but does not. `BatchBuilder` is meant to bound the gas of a batch but never adds to its
running total, which `BatchBuilder.Push` states by keeping `gas` at zero: `OverfullBatch` gives a batch over
the limit, `BatchesCut` says where batches are cut instead, and `GasWithinExactly` when the limit is kept.

MaxBatchesPerBlock is compared with the batches started so far only for equality, so a network visited after
it is reached is not stopped: `CapExceeded` is a block with two batches that may start one, and
`CapKeptExactly` says for every storage and every order of the networks when a block keeps to it.

The tasks pallet does not check that an executed batch is reported under its own network.
`ForeignReportUnderflows` is a run on which such a report stops the scheduler of the next block, and
`ReachableReports` and `ReachableReads` say for every reachable state, every list of reports and every order
of the networks when that happens.

## Model

| member | source | states |
|---|---|---|
| `RoastRobustness.QuiescentRunsSigned` | tss/src/roast.rs:312-343 | in every run with at most n-t members silent at any point, whenever its members are given the data, once all live members have it and nothing is left to do or deliver at them, every live coordinator has produced exactly one signature, and there is a live coordinator |
| `RoastRobustness.RunsAreFinite` | tss/src/roast.rs:175-226 | if the coordinators have the data from the start, no run, with any interleaving, data reaching the others at any time and any members falling silent, is longer than a bound computed from n and t |
| `RoastRobustness.SomeCoordinatorLives` | tss/src/lib.rs:167-168 | any t members include one of the n-t+1 coordinators |
| `RoastRobustness.RunsAreSafe` | tss/src/roast.rs:84-111 | in every reachable world, wherever the data has arrived, the `expect` on a missing nonce has not fired, and each member has produced no signature or exactly one, coordinators only |
| `RoastRobustness.SessionsAreBounded` | tss/src/roast.rs:193-213 | a coordinator that has the data from the start, whether or not the signers have it, numbers its sessions without gaps and opens at most n-t+1 of them, so the 16-bit session id never wraps onto an open session |
| `RoastRobustness.OneLiveCommitment` | tss/src/roast.rs:72-111 | each signer has exactly one live commitment towards each coordinator at work: unsent, in one packet, waiting, or in one queued request; in each of these places it is the commitment of the stored nonce |
| `RoastRobustness.PendingOnce` | tss/src/roast.rs:183-213 | in every run with honest signers nobody is pending in two sessions of a coordinator, or pending and waiting for the next one |
| `RoastInvariant.SessionRoom` | tss/src/roast.rs:193-213 | a coordinator with t waiting commitments and no complete session has opened fewer than n-t+1 sessions |
| `RoastSafety.NonceUsedOnce` | tss/src/roast.rs:84-111 | for arbitrary incoming messages no nonce is handed to two sign calls, as section 5.2 of RFC 9591 demands |
| `RoastSafety.StartSessionSplits` | tss/src/roast.rs:193-213 | starting a session splits the waiting commitments exactly into the t smallest ids and the rest |
| `RoastSafety.AlwaysSound` | tss/src/roast.rs:122-151 | for any message sequence every open session has t participants and only their shares |
| `RoastSafety.CompleteIsBacked` | tss/src/roast.rs:312-325 | a signature comes from a session with exactly one valid share of each of its t participants |
| `RoastSafety.CompletesOnce` | tss/src/roast.rs:312-325 | for any message sequence a Roast returns Complete at most once |
| `RoastSafety.OnlyFullPackages` | tss/src/roast.rs:84-111 | for arbitrary requests a signer answers only one whose package has at least t commitments and holds the nonce kept for its sender, with a share of that package, its session id and a commitment to the nonce drawn next |
| `RoastSafety.SecondCommitIgnored` | tss/src/roast.rs:175-181 | for any message sequence only the first commitment a peer announces to a coordinator counts |
| `RoastSafety.BadSessionsDoNotBlock` | tss/src/roast.rs:216-226 | if a session has all valid shares, at most as many polls as there are complete sessions numbered up to it produce a signature, whatever shares the others hold |
| `TssSpec.TssRunsSign` | tss/src/lib.rs:431-480 | the same robustness for runs made of calls of `Tss::next_action`, deliveries and members falling silent |
| `TssSpec.PollIsActs` | tss/src/lib.rs:431-480 | one call is a finite series of actions of the protocol, with the node's own messages delivered at once |
| `TssSpec.ActionShrinks` | tss/src/lib.rs:435-478 | from any state each turn of the inner loop that goes on uses up a coordinator or a request, so with a threshold of at least two the loop ends |
| `TssSpec.DriveSendsOut` | tss/src/lib.rs:436-477 | what a call returns is for at least one peer and never for the node itself |
| `TssMachine.NextAction` | tss/src/lib.rs:435-478 | the inner loop over the classes |
| `RoastMachine.RoastSigner.Commit` | tss/src/roast.rs:72-77 | draws a nonce and stores it for the coordinator, as the function does |
| `RoastMachine.RoastSigner.NextReply` | tss/src/roast.rs:84-111 | the loop over queued requests answers the first one that can be signed, replacing its nonce |
| `RoastMachine.RoastCoordinator.OpenSession` | tss/src/roast.rs:193-213 | the pop_last loop that keeps the t smallest ids computes the split of the waiting commitments |
| `RoastMachine.RoastCoordinator.TakeCompleted` | tss/src/roast.rs:216-226 | removes the complete session with the least id |
| `RoastMachine.RoastProcess.HandleMessage` | tss/src/roast.rs:293-310 | routes each kind of message to the signer or the coordinator half |
| `RoastMachine.RoastProcess.Poll` | tss/src/roast.rs:312-343 | aggregates, opens a session, commits or answers, in this order of preference |
| `DkgWorld.KeysAgree` | tss/src/dkg.rs:104-164 | in every run no member fails; each member that completes holds the sum of all members' polynomials at its id and reports the commitment to that sum, whose first entry is the group key, so any two report the same key and commitment; every commitment learnt is that one, and no share is in flight before all members have published |
| `DkgWorld.FinalShareIsGroupValue` | tss/src/dkg.rs:121-163 | whatever the arrival order, the received shares and the own one add up to the sum polynomial's value |
| `DkgWorld.NeverFails` | tss/src/dkg.rs:152-163 | neither check on the final share can fail |
| `DkgWorld.SettledRunsComplete` | tss/src/dkg.rs:104-164 | once all packages have arrived the next poll completes at every member |
| `DkgSafety.OnceEach` | tss/src/dkg.rs:104-135 | whatever a node is given, it publishes at most one commitment and sends its shares at most once |
| `DkgSafety.SharesMatchCommitment` | tss/src/dkg.rs:104-135 | the shares it sends go to all other members and each verifies against the commitment it published |
| `DkgSafety.CompletedSharesVerify` | tss/src/dkg.rs:136-164 | whatever shares it received, it completes only with a share that verifies against the group commitment it reports |
| `DkgSafety.RefusedExactly` | tss/src/dkg.rs:106-114 | key generation is refused exactly for thresholds below two or above the number of members |
| `DkgSpec.GroupCommitsToSum` | pallets/shards/src/lib.rs:344-364 | the on-chain pointwise sum of the commitments, in any storage order, commits to the sum of the polynomials |
| `Polynomials.SharesVerify` | tss/src/dkg.rs:152-159 | a share verifies against the commitment to its polynomial, as in Appendix C.2 of RFC 9591 |
| `Polynomials.EvalOfSum` | tss/src/dkg.rs:140-151 | evaluating a sum of polynomials is summing the evaluations |
| `DkgMachine.SumReceived` | tss/src/dkg.rs:140-151 | the fold over the received packages is their sum |
| `DkgMachine.DkgProcess.Poll` | tss/src/dkg.rs:104-164 | draws, waits, sends, waits and completes, as the function does |
| `LifecycleRuns.ReachableInv` | pallets/members/src/lib.rs:242-331 | every run of the three pallets keeps one invariant, given below in three parts |
| `LifecycleHistory.ReachableShards` | pallets/shards/src/lib.rs:514-588 | in every reachable chain the online count of a non-offline shard is its number of online members, all members of a shard in key generation are online, an Online shard has at least threshold of them, its status follows from its members' statuses in both directions, each key generation has exactly one pending timeout, and the timeout counters count the entries |
| `LifecycleSteps.ReturningMemberIsNotInDkg` | pallets/shards/src/lib.rs:514-524 | the Created/Committed branch of `Shards::member_online` is unreachable |
| `LifecycleHistory.StepOnward` | pallets/shards/src/lib.rs:314-459 | each step moves a created shard at most along Created, Committed, Online, Offline, and gives it no new timeout |
| `LifecycleHistory.KeyGenerationEnds` | pallets/shards/src/lib.rs:437-459 | the timeout's number of blocks later every created shard is Online or Offline |
| `LifecycleHistory.ReachableBooks` | pallets/members/src/lib.rs:255-307 | MemberOnline is the disjoint union of Heartbeat and a duplicate-free TimedOut, nobody is unassigned twice or unassigned and in a shard, and MemberShard and ShardMembers are inverse |
| `LifecycleKeys.ReachableKeys` | pallets/shards/src/lib.rs:314-369 | in every reachable chain a Committed or Online shard stores the entrywise sum of commitments submitted, with genuine proofs, by exactly its members, of threshold length, which commits to the sum of any polynomials they commit to |
| `LifecycleKeys.CommitmentsAreFinal` | pallets/shards/src/lib.rs:344-364 | once stored, a group commitment is the same after every later run |
| `LifecycleKeys.CollectedIsGroup` | pallets/shards/src/lib.rs:344-364 | in whatever order storage lists the members, what is stored is the entrywise sum of their commitments |
| `LifecycleHeartbeats.ReachableMoves` | pallets/members/src/lib.rs:255-307 | in every reachable chain a step brings a member online exactly if it is a heartbeat of a member with a network that is offline, and takes one offline exactly if it is a block whose number is a multiple of the timeout and the member is among the first MaxTimeoutsPerBlock listed ones with a network |
| `LifecycleHeartbeats.SplitExactly` | pallets/members/src/lib.rs:274-307 | the listed members taken are exactly the first ones that have a network, up to MaxTimeoutsPerBlock |
| `LifecycleHeartbeats.SilentMembersTimeOut` | pallets/members/src/lib.rs:274-307 | in every run a member silent from one timeout block to the next is overdue at the second, which takes it offline exactly if it is due, and always if it has a network and no more than MaxTimeoutsPerBlock members are overdue |
| `LifecycleKeeping.StepPlaces` | pallets/elections/src/lib.rs:143-185 | in every step a member that is online afterwards is in a shard or in its network's pool exactly if it was before or just came online, unless its shard was taken from it while it was not registered |
| `LifecycleKeeping.MembersAreKept` | pallets/elections/src/lib.rs:143-185 | so in every run a member that is never unregistered is, whenever it is online, either in a shard or once in the pool of its network, and in no other pool |
| `LifecycleKeeping.ReachableNetworks` | pallets/members/src/lib.rs:242-272 | in every reachable chain registered members have a network, and only they and shard members have one |
| `LifecycleKeeping.StepNetworks` | pallets/members/src/lib.rs:266-272 | in every step a shard member loses its network exactly if it is not registered and its shard is taken from it |
| `LifecycleFalls.ShardsFallExactly` | pallets/shards/src/lib.rs:526-588 | in every reachable chain a step takes a shard offline exactly if it is forced, its key generation is due, or a block takes enough of its members offline: one during key generation, more than the threshold allows when online |
| `LifecycleElections.ElectionConserves` | pallets/elections/src/lib.rs:190-211 | whether or not creating a shard fails midway, the new shards hold the first chunks of the pool and everybody else is still in the pool, as multisets |
| `LifecycleRank.ElectionsNeverFail` | pallets/elections/src/lib.rs:108-134 | in every run no election fails, and each takes the highest accounts of its pool, in whole shards, as many as the room and the pool allow |
| `LifecycleRank.ElectsAll` | pallets/elections/src/lib.rs:190-211 | while the timeout slot counts the elections so far, an election creates as many shards as there is room for, or leaves fewer members than a shard needs; each shard takes shard-size members from the front of the pool, and other pools stay |
| `LifecycleRank.ElectionsMissNobody` | pallets/elections/src/lib.rs:108-134 | in every run, after a block with fewer than MaxElectionsPerBlock elections every pool is shorter than its shard size, otherwise there are exactly that many and the round robin goes on where it stopped |
| `LifecycleRank.ElectedAreNew` | pallets/shards/src/lib.rs:632-662 | each shard an election creates is in status Created with the network, threshold and online count it should have, and its timeout is pending |
| `LifecycleElections.ElectionAlwaysFits` | pallets/shards/src/lib.rs:632-650 | while the timeout slot counts the elections so far, creating a shard cannot fail |
| `LifecycleElections.CreateShardsPlace` | pallets/elections/src/lib.rs:197-210 | consecutive chunks become consecutively numbered shards, and what comes back is what follows them |
| `LifecycleInvariant.MembersOfflineKeeps` | pallets/shards/src/lib.rs:526-588 | taking members offline lowers the counts, removes exactly the shards that cannot go on, and keeps the invariant |
| `LifecycleSteps.TimeoutHeartbeatsKeeps` | pallets/members/src/lib.rs:274-307 | so does the heartbeat hook, whatever the order of networks and heartbeats |
| `LifecycleSteps.TimeoutDkgsKeeps` | pallets/shards/src/lib.rs:437-459 | so does the key generation timeout hook, after which no timeout of that block is pending |
| `LifecycleSteps.CommitKeeps` | pallets/shards/src/lib.rs:314-369 | so does a commitment; what it stores is said by `ReachableKeys` |
| `LifecycleSteps.ReadyKeeps` | pallets/shards/src/lib.rs:370-391 | so does a ready report |
| `LifecycleSteps.HeartbeatKeeps` | pallets/members/src/lib.rs:255-265 | so does a heartbeat |
| `LifecycleElections.ElectionsHookKeeps` | pallets/elections/src/lib.rs:108-134 | so does the round robin over the networks, with at most MaxElectionsPerBlock timeouts in the new slot |
| `LifecycleMachine.Runtime.RemoveShardsOffline` | pallets/shards/src/lib.rs:400-430 | the two passes over the shards equal removing all of them at once |
| `LifecycleMachine.Runtime.ShardOffline` | pallets/elections/src/lib.rs:143-157 | the loop over released members unregisters and returns the right ones |
| `LifecycleMachine.Runtime.ShardMembersGoOffline` | pallets/shards/src/lib.rs:526-588 | the accumulation over members, shard by shard, equals the closed form |
| `LifecycleMachine.Runtime.MembersGoOffline` | pallets/members/src/lib.rs:325-331 | the calls from members through elections to shards equal one function |
| `LifecycleMachine.Runtime.TimeoutHeartbeats` | pallets/members/src/lib.rs:274-307 | the loops with the running count equal the function for some listing of networks and heartbeats |
| `LifecycleMachine.Runtime.TimeoutDkgs` | pallets/shards/src/lib.rs:437-459 | collects the due shards and removes them |
| `LifecycleMachine.Runtime.CreateShard` | pallets/shards/src/lib.rs:632-662 | creates a shard or reports that the slot is full |
| `LifecycleMachine.Runtime.TryElectShards` | pallets/elections/src/lib.rs:190-211 | the chunk loop with its early exit, which elects what `ElectsAll` says |
| `LifecycleMachine.Runtime.ElectionsInitialize` | pallets/elections/src/lib.rs:108-134 | the round-robin loop |
| `LifecycleMachine.Runtime.SendHeartbeat` | pallets/members/src/lib.rs:255-265 | both errors, coming online, and the heartbeat lists |
| `LifecycleMachine.Runtime.BringOnline` | pallets/elections/src/lib.rs:164-173 | the three member_online functions in a row |
| `LifecycleMachine.Runtime.UnregisterMember` | pallets/members/src/lib.rs:266-272 | both errors, and keeping the network of a shard member |
| `LifecycleMachine.Runtime.SubmitCommitment` | pallets/shards/src/lib.rs:314-369 | the checks, and the group commitment once all have committed, which is what `ReachableKeys` says |
| `LifecycleMachine.Runtime.ReportReady` | pallets/shards/src/lib.rs:370-391 | the checks, and going online once all are ready |
| `LifecycleMachine.Runtime.InitializeBlock` | runtime/src/lib.rs:587-596 | the hooks of one block in pallet order are one step of a run and keep the invariant |
| `LifecycleMachine.SumCommitments` | pallets/shards/src/lib.rs:344-361 | the reduce loop computes the group commitment |
| `TasksRuns.ReachableAgree` | pallets/tasks/src/lib.rs:538-614 | in every reachable state TaskShard and ShardTasks are inverse, counts are sizes, queued tasks are unassigned and queued once over all queues, current readers are unfinished and unqueued, and no batch is pending and failed |
| `TasksRuns.ReachableAccounting` | pallets/tasks/src/lib.rs:682-688 | TaskCount is at least executed + queued + assigned + an idle reader, and greater than executed for a network that is read |
| `TasksRuns.CountedAtMostOnce` | pallets/tasks/src/lib.rs:555-577 | along every run each task is counted as executed at most once, under the network it was created on, and the executed counter of a network is the number of tasks counted on it |
| `TasksKeeping.BatchTasksAreKept` | pallets/tasks/src/lib.rs:538-614 | in every reachable state each batch task without outcome is in exactly one place: once in the queue of its network, or with one shard |
| `TasksKeeping.OfflineReturns` | pallets/tasks/src/lib.rs:815-831 | a shard that goes offline returns all its tasks but the current reader to its network's queue, each once, behind the ones that wait there, and other shards and queues are as before |
| `TasksOperations.OperationsAreConserved` | pallets/tasks/src/lib.rs:717-831 | in every run from genesis the operations ever queued for a network (messages received, shards registered and unregistered), in order, are the ones batched for it, in order, followed by the ones still queued |
| `TasksEvents.EventsProcessed` | pallets/tasks/src/lib.rs:487-517 | for every list of events each message goes to the queue of its destination in order, a key counts as registered by the last word on it, and executed batches are no longer pending |
| `TasksEvents.SubmittedProcessed` | pallets/tasks/src/lib.rs:409-426 | events submitted by hand do the same, and batches reported as executed no longer count as failed |
| `TasksOutcomes.ReachableOutcomes` | pallets/tasks/src/lib.rs:555-577 | in every reachable state readers never fail, and a batch whose task has an outcome is not pending and, if the outcome is a failure, is failed |
| `TasksOutcomes.ResultsAreChecked` | pallets/tasks/src/lib.rs:350-405 | which results are accepted: of a known task with a shard, of its kind and genuine, or of a task with an outcome, which then change nothing |
| `TasksOutcomes.RestartRequeues` | pallets/tasks/src/lib.rs:473-483 | a restarted batch is pending, not failed, and has a new task without outcome at the end of the queue its old task belonged to |
| `TasksOutcomes.RemovedFields` | pallets/tasks/src/lib.rs:449-470 | a removed task had an outcome and leaves no trace, and its batch and no other goes with it |
| `TasksSites.ReachableSites` | pallets/tasks/src/lib.rs:796-831 | in every reachable state a network lists exactly its own shards whose last report was online |
| `TasksRuns.RunKeeps` | pallets/tasks/src/lib.rs:682-688 | no run ever underflows in the scheduler, and every run keeps the invariant |
| `TasksReports.EventsReport` | pallets/tasks/src/lib.rs:487-517 | whatever a list of events repeats, it counts exactly the distinct reported tasks that a shard held and that had no outcome, and gives every reported task one |
| `TasksReports.ScheduleUnderflowsExactly` | pallets/tasks/src/lib.rs:649-715 | from any storage in which the other listed networks have unexecuted tasks, scheduling the networks in any order underflows if and only if no earlier network ends the loop, network n gets to the subtraction, and created <= executed on n |
| `TasksReports.ReportsUnderflowExactly` | pallets/tasks/src/lib.rs:409-426 | after any list of events submitted to any such storage, preparing batches and scheduling the networks in any order underflows if and only if the scheduler reaches the reporting network's subtraction and the reported tasks held by shards are at least created - executed |
| `TasksReports.ReachableReports` | pallets/tasks/src/lib.rs:333-338 | so in every reachable state `on_initialize` after `submit_gmp_events` underflows exactly then |
| `TasksReports.ReadUnderflowsExactly` | pallets/tasks/src/lib.rs:364-404 | the same for events brought by a reader's result, which also counts the reader and creates the next one |
| `TasksReports.ReachableReads` | pallets/tasks/src/lib.rs:364-404 | so in every reachable state `on_initialize` after a reader's result underflows exactly then |
| `TasksReports.OwnReportsLeaveReader` | pallets/tasks/src/lib.rs:506-510 | reports under their own network are always fewer than created - executed |
| `TasksUnderflow.ForeignReportUnderflows` | pallets/tasks/src/lib.rs:506-510 | there is a run from genesis, with both networks registered and configured and their shards online with their keys, after which a batch reported under another network makes the next block's scheduler underflow, so the premise on reports is needed |
| `TasksRuns.ReachableScheduler` | pallets/tasks/src/lib.rs:649-715 | in every reachable state the hook schedules as `SchedulerWorks` says |
| `TasksSchedule.SchedulerWorks` | pallets/tasks/src/lib.rs:649-715 | at most MaxTasksPerBlock tasks are assigned, no shard is pushed past the limit, no shard loses a task, each task newly assigned is the reader or goes to a listed online shard of its network whose key is registered, it returns early only at a full block or an empty queue, and otherwise the queue of every network that has such a shard and whose fair share is within the limit is empty |
| `TasksSchedule.RegisteredIsFillable` | pallets/tasks/src/lib.rs:671-679 | the shards filled are the listed ones that are online with a registered key, each once |
| `TasksSchedule.Accounting` | pallets/tasks/src/lib.rs:682-688 | executed, queued, assigned and idle reader are disjoint parts of the tasks created |
| `TasksSchedule.FairShareSuffices` | pallets/tasks/src/lib.rs:686-705 | ceil(assignable / shards) tasks per shard leave room for every waiting task |
| `TasksSchedule.FillFacts` | pallets/tasks/src/lib.rs:694-713 | filling the shards shortens the queue by exactly the room they have, within all limits |
| `TasksSchedule.ReaderFacts` | pallets/tasks/src/lib.rs:655-668 | the reader is given to a shard below the limit if there is one |
| `TasksInvariant.CreateKeeps` | pallets/tasks/src/lib.rs:538-553 | creating a task keeps the invariant |
| `TasksInvariant.FinishKeeps` | pallets/tasks/src/lib.rs:555-577 | so does finishing one, which counts it only if a shard had it |
| `TasksInvariant.AssignKeeps` | pallets/tasks/src/lib.rs:609-614 | so does assigning one |
| `TasksSteps.OfflineKeeps` | pallets/tasks/src/lib.rs:815-831 | a shard going offline keeps the invariant; where its tasks go is said by `OfflineReturns` |
| `TasksSteps.EventsKeep` | pallets/tasks/src/lib.rs:487-517 | so does processing gateway events |
| `TasksSteps.RestartKeeps` | pallets/tasks/src/lib.rs:473-483 | so does restarting a batch |
| `TasksBatches.PrepareConserves` | pallets/tasks/src/lib.rs:717-738 | for every network the operations batched by one call, in batch order, followed by the queue left, are the old queue |
| `TasksBatches.BatchesConserve` | primitives/src/gmp.rs:213-227 | the batches made of a queue are nonempty and, one after the other, with the rest, are the queue |
| `TasksBatches.BatchesCut` | primitives/src/gmp.rs:222-227 | every batch after the first starts with an operation whose own gas exceeds the limit, and no later operation of any batch does |
| `TasksBatches.GasWithinExactly` | primitives/src/gmp.rs:213-227 | the batches made of a queue are all within the gas limit if and only if the whole queue is, or, when the block may start no more batches, if and only if the one operation still popped is |
| `TasksBatches.OverfullBatch` | primitives/src/gmp.rs:222-227 | for every limit there is a queue whose single batch has twice that gas |
| `TasksBatches.BatchCount` | pallets/tasks/src/lib.rs:717-738 | how many batches one network starts, and that operations are left only when the cap is met |
| `TasksBatches.CapKeptExactly` | pallets/tasks/src/lib.rs:717-738 | a block keeps to MaxBatchesPerBlock, read as at least one, if and only if every network visited after the ones before want that many batches has an empty queue; it then starts the batches wanted, up to that number |
| `TasksBatches.CapExceeded` | pallets/tasks/src/lib.rs:728-730 | two networks with one operation each make two batches where one is allowed |
| `TasksBatches.NetworkStarts` | pallets/tasks/src/lib.rs:740-761 | batches get fresh consecutive ids and one new task each at the end of the task queue |
| `TasksTiling.ReadingTilesTheChain` | pallets/tasks/src/lib.rs:370-378 | from registration on, without manual sync, gateway or configuration change, the ranges given to readers are exactly the intervals between boundaries that start at the gateway's block, and SyncHeight is one of the last two boundaries |
| `TasksTiling.TilesApart` | pallets/tasks/src/lib.rs:579-584 | any two ranges are identical or disjoint |
| `TasksTiling.TilesCover` | pallets/tasks/src/lib.rs:579-584 | together they leave no gap |
| `TasksTiling.TilesAligned` | pallets/networks/src/lib.rs:331-336 | every range after the first has 1 to batch_size blocks and an offset-aligned end |
| `TasksTiling.BatchSizeFacts` | pallets/networks/src/lib.rs:331-336 | the next batch size is between 1 and batch_size and reaches the next aligned block |
| `TasksReaders.StoppedReadsNoMore` | pallets/tasks/src/lib.rs:439-445 | after a network is stopped no run without a new gateway creates another reader for it |
| `TasksReaders.SyncRedirects` | pallets/tasks/src/lib.rs:427-437 | after SyncHeight is set by hand the next result of a reader makes reading go on there, up to the next aligned block, unless that reader began there |
| `TasksMachine.BatchBuilder.Push` | primitives/src/gmp.rs:222-227 | an operation closes the batch before it only if its own gas exceeds the limit |
| `TasksMachine.BatchBuilder.TakeBatch` | primitives/src/gmp.rs:213-220 | takes all operations, or nothing |
| `TasksMachine.TasksPallet.SubmitTaskResult` | pallets/tasks/src/lib.rs:350-405 | all outcomes of a result, and every error |
| `TasksMachine.TasksPallet.ProcessEvents` | pallets/tasks/src/lib.rs:487-517 | the loop over events |
| `TasksMachine.TasksPallet.SubmitGmpEvents` | pallets/tasks/src/lib.rs:409-426 | forgets the outcomes of executed batches, then processes the events |
| `TasksMachine.TasksPallet.RemoveTask` | pallets/tasks/src/lib.rs:449-470 | only finished tasks are removed, with their batch |
| `TasksMachine.TasksPallet.RestartBatch` | pallets/tasks/src/lib.rs:473-483 | a new task for the batch, pending again |
| `TasksMachine.TasksPallet.CreateTask` | pallets/tasks/src/lib.rs:538-553 | a reader becomes current, any other task is queued |
| `TasksMachine.TasksPallet.FinishTask` | pallets/tasks/src/lib.rs:555-577 | records the outcome and frees the shard |
| `TasksMachine.TasksPallet.ShardOffline` | pallets/tasks/src/lib.rs:815-831 | the drain loop, for some listing of the shard's tasks, which does what `OfflineReturns` says |
| `TasksMachine.TasksPallet.ScheduleShard` | pallets/tasks/src/lib.rs:628-639 | the pop loop |
| `TasksMachine.TasksPallet.ScheduleReader` | pallets/tasks/src/lib.rs:655-668 | the loop that finds a shard for the reader |
| `TasksMachine.TasksPallet.FillShards` | pallets/tasks/src/lib.rs:694-713 | the loop over registered shards with its early return |
| `TasksMachine.TasksPallet.ScheduleNetwork` | pallets/tasks/src/lib.rs:651-713 | the body of the loop over networks, in which neither subtraction underflows and which keeps to the bounds of `SchedulerWorks` |
| `TasksMachine.TasksPallet.ScheduleTasks` | pallets/tasks/src/lib.rs:649-715 | the loop over networks |
| `TasksMachine.TasksPallet.PrepareNetwork` | pallets/tasks/src/lib.rs:719-736 | the loop that pops operations, builds batches and starts them |
| `TasksMachine.TasksPallet.OnInitialize` | pallets/tasks/src/lib.rs:333-338 | the whole hook is one step of a run and keeps the invariant |
| `Queue.StoredQueue.Push` | pallets/tasks/src/queue.rs:46-50 | appends to the sequence the queue stands for, or loses the item if the insert index is saturated |
| `Queue.StoredQueue.Remove` | pallets/tasks/src/queue.rs:52-67 | deletes exactly the item at the index, and the remove index points at a stored entry whenever the queue is nonempty |
| `Queue.StoredQueue.Pop` | pallets/tasks/src/queue.rs:41-44 | returns the oldest surviving item |
| `TasksQueues.ScheduleStored` | pallets/tasks/src/lib.rs:628-639 | the scheduler's loop popping from the stored queue assigns the same tasks, and leaves the same queue, as on the sequence it stands for |
| `Queue.EntriesRemove` | pallets/tasks/src/queue.rs:52-67 | removing one stored index removes one entry and keeps the others in order |
| `Worker.AlwaysContiguous` | tc-subxt/src/worker.rs:273-317 | after any events the pending nonces are the interval that ends below the next nonce |
| `Worker.BestBlockRetriesOnce` | tc-subxt/src/worker.rs:395-418 | what a best block submits is exactly the outdated unseen transactions, each once, in queue order and signed again with its own nonce; the included ones are marked with the block, and no nonce, order or other transaction changes |
| `Worker.SettleDropsFront` | tc-subxt/src/worker.rs:348-360 | a finalized block drops a prefix of the pending transactions |
| `Worker.SettledWereFinal` | tc-subxt/src/worker.rs:348-360 | only finalized ones |
| `Worker.SettledInOrder` | tc-subxt/src/worker.rs:348-360 | the dropped ones occur in the block in their own order |
| `Worker.SettleDropsAll` | tc-subxt/src/worker.rs:348-360 | however many pending transactions the block holds in order from the front, all of them are dropped |
| `Worker.AlwaysTimely` | tc-subxt/src/worker.rs:383-418 | after any events every pending transaction is in a best block or still within its era of 32 blocks |
| `Worker.SubxtWorker.Drain` | tc-subxt/src/worker.rs:405-418 | the drain loop ends although resubmissions go to the front of the queue it drains, and equals refreshing each entry |
| `Worker.SubxtWorker.AddToPool` | tc-subxt/src/worker.rs:273-317 | new transactions to the back with the next nonce, retries to the front with their own |
| `Worker.SubxtWorker.HandleBest` | tc-subxt/src/worker.rs:383-418 | marking and draining for one best block |
| `Worker.SubxtWorker.HandleFinalized` | tc-subxt/src/worker.rs:340-362 | popping finalized transactions from the front |
| `Cctp.RoundTrip` | primitives/src/cctp.rs:121-180 | from_bytes undoes encode for every message whose encoding has less than 2^64 bytes |
| `Cctp.DynamicRoundTrip` | primitives/src/cctp.rs:50-70 | a dynamic value is read back whatever follows it |
| `Cctp.HeadOffsets` | primitives/src/cctp.rs:121-146 | the offsets in the head are the places where the values start, as the Solidity Contract ABI Specification asks |
| `Cctp.TupleStart` | primitives/src/cctp.rs:121-146 | the first word is 32, the place where the tuple starts and from which its offsets count |
| `Cctp.EncodeInjective` | primitives/src/cctp.rs:121-146 | different messages have different encodings |
| `Cctp.EncodeAligned` | primitives/src/cctp.rs:99-110 | an encoding is a whole number of 32-byte blocks |
| `Cctp.PaddedWithZeros` | primitives/src/cctp.rs:99-110 | numbers are padded on the left and values on the right, with zeros only |
| `Cctp.EncodeMessage` | primitives/src/cctp.rs:121-146 | the growing buffer ends as the encoding |
| `Cctp.DecodeMessage` | primitives/src/cctp.rs:148-180 | the advancing offset reads what the function reads |

## Left out

- Elliptic-curve and Schnorr arithmetic, the internals of FROST and Keccak: foreign code, replaced by tokens and by field arithmetic.
- A group commitment that sums to the identity point, whose serialization panics on chain, and invalid shares whose errors cancel.
- Several signing ids at once: the outer loop of `Tss::next_action` serves them one after the other and they share nothing. Runs start with the session open at every member.
- `TssMachine.NextAction`: needs a threshold of at least two, the smallest for which keys are generated; with a threshold of zero the loop would not end.
- `on_complete`, which drops a signing session, and recovery of a key from disk.
- Results split into chunks of more than MAX_GMP_EVENTS events on the sending side; the pallet's handling of a full chunk is modelled.
- The message books of the tasks pallet (which task received or executed a message, which batch a message or shard is in, transaction hashes): single-map writes.
- Peer ids, public keys, stakes, events, weights, logging and origin checks.
- `TasksInvariant.CreateKeeps`: task ids and task counters are unbounded, so their saturation at 2^64 is not modelled.
- Recovery of cached transactions, the transaction database and the block streams of the worker.
- from_bytes on malformed offsets: the panic is a value of the model and nothing is promised about it.
- The node, RPC, command line, connectors, balances, airdrop, launch, timegraph, governance and messaging bridges: I/O, formatting or single-map sums.
