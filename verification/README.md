# Verified model of the hardware channel abstraction core

A Dafny model of the governance core of a device-control layer, with proofs of what
its parts promise, alone and together:

- the farm scheduler: a priority queue with resident workers and a one-slot wake-up
  token, as a class and as a protocol of interleaved steps;
- the lock manager's leases, an operation's ordered acquisition of its resources, and
  why such operations never deadlock;
- the operation engine: one operation's lifecycle as a state machine around plugins
  that may answer anything, and the engine's own methods, each shown to go on along a run
  of that machine while other goroutines work between its critical sections, with the
  calls it makes equal to the calls of that run;
- the recovery ladder with its budget and backoff, and the observe-first decision;
- discovery, registry and resolver, whose indices have to stay sound and whose channel
  choice has to be a function of what is stored;
- the byte- and string-level cores: console lines, Modbus TCP, word memory and its
  hexadecimal text, secret redaction;
- the event bus with cursor resume.

Classes stand for the objects that the program updates in place and their methods for
its methods; pure decisions are functions; concurrent parts are state machines with one
step per critical section. What a plugin, scanner or clock answers is arbitrary (a
nondeterministic value or a parameter of the step), limited only by the plugin contract:
a successful Open or Recover leaves its channel READY, and Observe changes nothing.
Records that the program shares through pointers are entries of a map, updated under
their ID. Identifiers drawn at random are ones not in use. An operation's record carries,
as ghost fields, the calls made to plugins and to recovery for it, in order.

| file | module | models |
|---|---|---|
| `Common.dfy` | `Results`, `MachineInts`, `Identifiers` | shared data types, fixed-width integers, fresh identifiers |
| `Strings.dfy`, `Sorting.dfy` | `Strings`, `Sorting` | the string functions and the stable sort of Go's library |
| `FarmQueue.dfy`, `FarmProtocol.dfy`, `Scheduler.dfy` | `FarmQueue`, `FarmProtocol`, `SchedulerObject` | the farm scheduler |
| `Locks.dfy`, `Resources.dfy`, `Deadlock.dfy` | `Locks`, `Resources`, `Deadlock` | leases, resource IDs, waiting |
| `Operation.dfy`, `Reconcile.dfy`, `Lifecycle.dfy`, `Engine.dfy` | `OperationRecord`, `Reconciliation`, `Lifecycle`, `OperationEngine` | operations and the engine |
| `Ladder.dfy`, `Recovery.dfy` | `RecoveryLadder`, `Recovery` | the recovery manager |
| `Registry.dfy`, `Resolver.dfy`, `Discovery.dfy` | `RegistryStore`, `Resolver`, `Discovery` | what is connected, and which channel to use |
| `Policy.dfy`, `Secrets.dfy` | `AccessPolicy`, `Secrets` | access decisions, redaction |
| `ConsoleStream.dfy`, `Console.dfy` | `ConsoleLines`, `ConsoleDevice`, `ConsolePump` | the console |
| `Modbus.dfy`, `ModbusEndpoints.dfy` | `ModbusWire`, `ModbusEndpoints` | Modbus TCP, both ends |
| `DebugMemory.dfy`, `HexWords.dfy` | `DebugMemory`, `HexWords` | debug memory and its text form |
| `EventBus.dfy` | `EventBus` | the event bus |

`dafny verify dfyconfig.toml` checks everything.

## Where the code falls short of a promise

Each of these is a lemma or a contract; where the promise holds under a condition, the condition is
proved exact.

- A secret is gone from every redacted text, whatever else is stored and in whatever
  order the store is walked, if and only if it neither starts nor ends with `*` nor
  contains `***` (`Secrets.RedactExactly`; `Secrets.OneSecretExactly` for a store of that
  secret alone). Which text comes out depends on the map's iteration order
  (`Secrets.OrderShowsInResult`). Redacting twice is the same as once for a store of one
  secret if and only if that secret is of this kind or the mask itself
  (`Secrets.OneSecretIdempotentExactly`).
- A register read over Modbus equals a read of the map if and only if it asks for 1 to
  127 registers, because the byte count is cut to one byte (`ModbusWire.WireExact`); a
  sequence of operations agrees if and only if each of them does
  (`ModbusWire.WireRefinesMaps`). A reply whose length passes 65535 leaves bytes on the
  connection that the next request meets (`ModbusEndpoints.Client.Transact`).
- `parseWords` reads back what `formatWords` prints if and only if there is exactly one
  word, because the words are printed on lines and read between commas
  (`HexWords.FormatRoundTripExactly`); with commas the round trip always holds.
- Reading memory after writing it gives the words back if and only if words that fall on
  one address agree, which up to 2^30 words is always (`DebugMemory.ReadAfterWriteExactly`).
- A blank console line makes `Read` wait although lines are pending behind it. Whatever is
  pending and queued, reading until it blocks gets all the lines if and only if, from the
  lines pending or those of any chunk on, no more blank lines come before the last that is
  not blank than chunks are queued behind (`ConsoleLines.MissedLines`).
- Nothing renews the leases of a running operation. Whatever other holders do, it has its
  resources alone if and only if none of its leases has run out (`Locks.HeldExactly`);
  once one has, the next to look for its resource has that alone (`Locks.Overtaken`). So an
  Invoke is sure to be exclusive for the length of a lease from the call of Execute
  (`OperationEngine.Engine.Execute`), and a retry that comes later is not.
- An operation can come to wait for itself if and only if its capability lists a resource
  type twice (`Deadlock.SelfWaitExactly`); the order of acquisition is strict if and only
  if the types are distinct (`Resources.AscendingExactly`).
- A `Discover` in the middle of a run forgets what the scan no longer sees; the registry
  stays up to date if and only if no READY channel sits at such a locator
  (`Discovery.Service.Discover`).
- A device whose hardware ID differs from that of the device its serial names is not known
  again when it is next seen: the same hints give the same device if and only if they have a
  serial and met no such conflict (`Discovery.SameAgain`).
- A visit that correlates an endpoint with another device re-binds the endpoint and not
  its channels: a channel stays on its own device's endpoint if and only if the device
  found is the channel's own (`Discovery.VisitHomes`).
- Recovery re-resolves for any channel type. Every Invoke of every run is on a channel of
  the type asked for if and only if none is asked for, nothing is retried, no plugin is
  registered or the capability is unknown (`Lifecycle.ChannelTypeExactly`, with the run in
  `Lifecycle.ReboundToAnotherType`); the engine always allows a retry.
- An error that no layer normalized gets no recovery step at all
  (`RecoveryLadder.UnclassifiedIsNotRecovered`). The backoff shift is not checked for
  overflow: a sleep is the doubled base capped at one second if and only if the doubled
  base fits in 63 bits or wraps to a second or more (`RecoveryLadder.BackoffExactly`,
  with inputs in `RecoveryLadder.ShiftOverflows`).
- The state TIMEOUT is declared and never reached (`Lifecycle.LifecycleAdvances`).
- The one-slot token rules out a lost wake-up but not a worker parked beside a pending
  task: no run with at most n workers comes to that if and only if n is at most one
  (`FarmProtocol.IdleExactly`).
- Storing a device under another serial, an endpoint at a taken locator or a channel on a
  taken seat is not refused; each keeps the indices sound exactly under the condition in
  the contracts of `RegistryStore.Registry`.

## Model

| member | source | states |
|---|---|---|
| FarmProtocol.EveryReachableState | farm/farm.go:164-207 | in every state of every interleaving: a task is RUNNING iff exactly one live worker holds it, and while a task is PENDING and a worker was started and not stopped, the token is set or some worker is not parked at the select |
| FarmProtocol.EveryRun | farm/farm.go:71-92 | so in every state that a run from the new, empty farm reaches |
| FarmProtocol.WorkShrinks | farm/farm.go:164-199 | every step but a Submit or the start of a worker strictly decreases a measure over tasks, workers and the token |
| FarmProtocol.RunsAreBounded | farm/farm.go:164-199 | so a run without new work has at most that many steps, no more than 2 a task, 3 a worker and 3 |
| FarmProtocol.QuietMeansDone | farm/farm.go:94-97 | when no worker can move nothing is RUNNING; nothing is PENDING if a worker is left; after Stop every worker has returned |
| FarmProtocol.NoneRunningAfterStop | farm/farm.go:94-97 | once all workers have exited, which is when Stop returns, no task is RUNNING |
| FarmProtocol.StepMoves | farm/farm.go:136-149 | a step moves a task only PENDING to RUNNING by the look that hands it out, PENDING to CANCELLED by its cancellation, or RUNNING to SUCCEEDED or FAILED as its worker reports, and never changes its priority |
| FarmProtocol.RunMoves | farm/farm.go:22-29 | over any run a task's state only advances along that lifecycle |
| FarmProtocol.HandedOnce | farm/farm.go:177-193 | over any run no task is handed to two workers and a task not pending at the start, a cancelled one say, to none |
| FarmProtocol.HandedIsBest | farm/farm.go:177-193 | each task handed out has maximal priority among the pending ones and is the earliest submitted of its equals |
| FarmProtocol.DrainIsStableSort | farm/farm.go:177-193 | with no Submit or Cancel, for any workers and interleaving, the tasks handed out followed by the stable order of what is left are the stable order of the pending tasks |
| FarmProtocol.DrainedCompletely | farm/farm.go:177-193 | run until no worker can move, the hand-outs are the whole stable sort |
| FarmProtocol.IdleWorkerBesidePendingTask | farm/farm.go:202-207 | a reachable state with a parked worker, a pending task and no token |
| FarmProtocol.IdleExactly | farm/farm.go:202-207 | no run with at most n workers leaves a worker parked beside a pending task without a token, iff n is at most one |
| FarmQueue.StableOrderMeaning | farm/farm.go:176-193 | the stable order holds every pending task once, priorities never rise, equals keep submission order |
| FarmQueue.TakingFollowsStableOrder | farm/farm.go:180-188 | the scan's choice heads the stable order and leaves the stable order of the rest |
| SchedulerObject.Scheduler.Submit | farm/farm.go:100-111 | the task joins the end of the queue, PENDING, and the token is set |
| SchedulerObject.Scheduler.Cancel | farm/farm.go:136-149 | only a PENDING task is cancelled; anything else is refused with its state and changes nothing |
| SchedulerObject.Scheduler.MarkDone | farm/farm.go:237-261 | SUCCEEDED or FAILED as the run went, no other task touched: the Finish step of the protocol |
| SchedulerObject.Scheduler.Take | farm/farm.go:177-193 | the locked scan of dequeue: the choice of the queue's selection function, now RUNNING |
| SchedulerObject.Scheduler.Turn | farm/farm.go:164-175 | one turn of a worker keeps to the stable order and shrinks the work left |
| SchedulerObject.Scheduler.WorkUntilParked | farm/farm.go:164-199 | one worker alone runs exactly the stable sort of the pending tasks before it parks |
| Locks.Manager.TryAcquireLocked | core/resource/lock_manager.go:132-148 | refused iff a lease in the table conflicts, and then nothing changes; else the table gains exactly the new lease |
| Locks.Manager.Prune | core/resource/lock_manager.go:160-173 | both indices lose exactly the leases whose end is past, each list becoming its order-preserving filter |
| Locks.Manager.Compact | core/resource/lock_manager.go:163-171 | the in-place compaction of one list equals the filter, and drops exactly the filtered leases from the index |
| Locks.Manager.TryAcquire | core/resource/lock_manager.go:64-69 | refused iff a lease on the resource that has not ended is EXCLUSIVE or EXCLUSIVE is asked for; the unexpired table is what is left or extended |
| Locks.BlockedMeans | core/resource/lock_manager.go:132-179 | after pruning a lease stands in the way iff it is on the resource, has not ended, and it or the one asked for is EXCLUSIVE |
| Locks.Manager.Release | core/resource/lock_manager.go:86-98 | the table loses that lease and no other; found iff it was there |
| Locks.Manager.Renew | core/resource/lock_manager.go:107-121 | granted iff the lease is there and has not ended; its end moves in both indices; an expired one is refused and dropped |
| Locks.Manager.ReleaseAll | core/resource/lock_manager.go:123-130 | the table loses exactly the given leases, passing over those already pruned |
| Locks.Manager.TableExcludes | core/resource/lock_manager.go:175-179 | agreement of the two indices implies mutual exclusion: two leases on a resource are both SHARED |
| Locks.DropAgrees | core/resource/lock_manager.go:150-173 | dropping any set of leases from both indices leaves them holding the same leases, each once, under its own resource |
| Locks.Manager.Acquire | core/resource/lock_manager.go:35-61 | if every lease in the way has ended, granted at the first look; else, with other holders at work at every wait: a lease for the holder and nothing else of its changed, or the context done and the holder took nothing; more than one look, or none granted, means that a look met a conflict or the context was done before the first |
| Locks.Manager.AcquireAll | core/resource/lock_manager.go:73-84 | with other holders at work before every resource and at every wait: refused only if a look met a conflict or the context was done before as many looks as resources; free resources asked for once are all granted at the first look if no other holder had a turn; a failed call leaves its holder no lease it did not have; a successful one grants one lease per resource in order, each for ttl from its grant, the last from the return, and each is in the table unless it has expired |
| Locks.SoleHolder | core/resource/lock_manager.go:73-84 | until one expires, the EXCLUSIVE leases granted are in the table and the only ones on their resources |
| Locks.HeldUntil | core/resource/lock_manager.go:73-84 | so until the first of its leases ends, for ttl from the call of AcquireAll at least, the holder has all the resources alone |
| Locks.Overtaken | core/resource/lock_manager.go:132-173 | once an EXCLUSIVE lease has ended, whoever looks for its resource next has it alone |
| Locks.HeldExactly | core/resource/lock_manager.go:132-173 | whatever other holders do until some time, the holder has its resources alone iff that time is past the end of none of its leases |
| Resources.ResourceRegistry.Ensure | core/resource/registry.go:29-42 | idempotent: the resource already there, or a new one that changes no other answer |
| Resources.ResourceRegistry.Injective | core/resource/registry.go:29-42 | one resource serves one device and one type |
| Resources.ResourceRegistry.OneResourceEach | core/resource/registry.go:29-42 | two resources of one device and type are the same resource |
| Resources.ResourceRegistry.ResolveResourceIDs | core/operation/engine.go:521-530 | the IDs are the index's answers for the sorted types in order, so equal types get one ID; earlier answers kept |
| Resources.AscendingExactly | core/operation/engine.go:521-530 | the order is strict iff no type is required twice |
| Deadlock.NothingLeftBehind | core/operation/engine.go:250-261 | in every reachable state no two leases are on one resource, each belongs to an operation that asked for it and has not returned |
| Deadlock.StepMoves | core/operation/engine.go:250-261 | what a step can do in any reachable state: an operation works once it has its last lease and returns once for all; a lease comes for the next resource its holder wants, on which there is none, is renewed only before its end, and goes with its holder or pruned after its end |
| Deadlock.AwaitedRises | core/operation/engine.go:248-261 | if one operation waits for another that waits, the awaited resource type strictly rises, across devices |
| Deadlock.Acyclic | core/operation/engine.go:248-250 | no chain of waits comes back to its start |
| Deadlock.ChainEnds | core/operation/engine.go:248-261 | every waiting operation waits, through some chain, for a lease holder that does not wait |
| Deadlock.DeadlockFree | core/operation/engine.go:248-261 | in every reachable state, if capabilities list each type once: no cycle, and unless all have returned some operation is at work or can take its next resource |
| Deadlock.DuplicateTypeSelfDeadlock | core/operation/engine.go:521-530 | with resources of one type next to each other, having taken the first an operation waits for itself |
| Deadlock.SelfWaitExactly | core/operation/engine.go:248-261 | some run of operations that require these types comes to an operation waiting for itself, iff a type is listed twice |
| OperationRecord.TerminalSplit | domain/operation.go:33-57 | the terminal states are SUCCEEDED and the failures, disjointly; the six others are those on the way |
| OperationRecord.Operation.Transition | domain/operation.go:102-113 | refused exactly when a terminal state would be left |
| OperationRecord.FirstTerminalWins | domain/operation.go:100-113 | under any sequence of transitions the first terminal state stays |
| Reconciliation.DecisionMeans | core/recovery/reconcile.go:35-71 | SUCCESS iff the observation proves the non-empty requested version, MANUAL iff an online flash mismatch, undetermined iff offline and unproven, RETRY iff online and no flash |
| Lifecycle.StepKeeps | core/operation/engine.go:212-379 | every step of Execute, Cancel, a later Execute or of others keeps the invariant behind the theorems below |
| Lifecycle.LifecycleAdvances | core/operation/engine.go:212-293 | in every reachable state the states passed form a strictly advancing path of allowed moves with at most one terminal state, which has a stored result of that state |
| Lifecycle.CallsAreGoverned | core/operation/engine.go:308-379 | plugin calls only in RUNNING and past Allow or a recorded approval; every Invoke on a READY channel of the target that offers the capability; at most maxRetries+1 Invokes, maxRetries Recovers, and one Invoke begun after the cancel flag |
| Lifecycle.SuccessIsProven | core/operation/engine.go:391-404 | an operation that is over is SUCCEEDED or VERIFY_FAILED iff the last plugin call was an Invoke without error or an observation of the requested version, and SUCCEEDED iff moreover no evidence of that call names another version; an online flash mismatch ends UNKNOWN |
| Lifecycle.FailureIsMet | core/operation/engine.go:222-336 | an operation that is over is VALIDATION_FAILED iff it did not pass the gate; UNKNOWN iff its calls end on an observation, or on a recovery that failed after one, that proves nothing and showed the device offline or what was flashed missing; RUN_FAILED if they end on an Open, a failed observation or an online device not being flashed, and otherwise only between attempts with a channel that lacks its plugin; CANCELLED only if flagged, between attempts; VALIDATION_FAILED, RESOURCE_FAILED and RESOLVE_FAILED without a call, the last only if no channel would do when it looked |
| Lifecycle.GivesUpLast | core/operation/engine.go:317-378 | an operation that is over, its last call an observation that settles nothing, has used every retry |
| Lifecycle.CallsSound | core/operation/engine.go:308-379 | what is proved of the history holds of the list of calls: their number, their aim, none after an observed mismatch, whether the last one proves a success and with what evidence |
| Lifecycle.ReboundToAnotherType | core/recovery/recovery.go:180-193 | a run whose second Invoke is on a channel of another type than the one asked for |
| Lifecycle.ChannelTypeExactly | core/operation/engine.go:266-379 | every Invoke of every run is on a channel of the type asked for, iff none is asked for, nothing is retried, no plugin is registered or the capability is unknown |
| Lifecycle.AgainChangesNothing | core/operation/engine.go:210-220 | Execute of a finished operation changes nothing and calls nothing |
| Lifecycle.ExecuteEnds | core/operation/engine.go:317-378 | Execute takes at most 4*maxRetries+12 steps whatever comes between |
| Lifecycle.ExecuteGoesOn | core/operation/engine.go:212-293 | short of the end it always has a step, and it is over iff the state is terminal |
| OperationEngine.Engine.Create | core/operation/engine.go:120-138 | an empty capability or target is refused; a known idempotency key gives the same operation and changes nothing; else a new CREATED one |
| OperationEngine.Engine.Execute | core/operation/engine.go:212-293 | with others at work at leases and channels between its steps: a first call continues the operation's lifecycle by a run to its end, its calls being those of the run, and returns the stored result, without error iff it SUCCEEDED, with its evidence stored iff so; its calls tell its state: SUCCEEDED or VERIFY_FAILED iff the last proves it, UNKNOWN iff they leave the outcome open, RUN_FAILED if the run broke off; ungranted, or of HIGH or CRITICAL risk and not approved, it makes no call and is VALIDATION_FAILED, which otherwise only a missing device makes it; RESOURCE_FAILED only if a look for a needed resource met a conflict or the context was done before as many looks, and not if they were free and no other had a turn; RESOLVE_FAILED only if no channel would do or others changed the channels since the call; each Invoke made within the length of a lease from the call is made with all needed resources held alone; a later call is an error and changes nothing; every way out leaves the operation no lease it did not have |
| OperationEngine.Engine.PassGate | core/operation/engine.go:222-250 | passed iff descriptor and device exist and policy allows, or asks for an approval that is recorded; then it names the needed resources in the order of their types |
| OperationEngine.Engine.GateTells | core/operation/engine.go:222-250 | whether the gate lets pass, from the grants, pre-approvals and approvals made and the risk of the capability |
| OperationEngine.Engine.RunWithRecovery | core/operation/engine.go:308-379 | the retry loop continues the lifecycle by a run, from the first channel to a result or a final state, and makes exactly the calls of that run; given up, the state is UNKNOWN iff the calls leave the outcome open, RUN_FAILED if they broke off and otherwise only for want of a plugin, CANCELLED only between attempts |
| OperationEngine.Engine.InvokeOnce | core/operation/engine.go:324-336 | plugin lookup, one Open unless READY, one Invoke unless the plugin is unknown or the channel does not open: exactly these calls, as one step of the lifecycle |
| OperationEngine.Engine.ObserveOnce | core/operation/engine.go:339-361 | one Observe; a result with all its facts as evidence iff it shows the version, UNKNOWN iff it shows a mismatch, else on to the ladder |
| OperationEngine.Engine.RecoverOnce | core/operation/engine.go:365-377 | one Recover, for the error the Invoke raised, none once the retries are spent; rebinding to the channel that recovery hands back iff it is another |
| OperationEngine.Engine.Verify | core/operation/engine.go:393-404 | accepted iff no flash evidence names another version than the requested one |
| OperationEngine.Engine.RunLocked | core/operation/engine.go:252-261 | the lifecycle goes on from the one passed in; RESOURCE_FAILED only if a look met a conflict or the context was done before as many looks as resources; else every Invoke made within the length of a lease is made while the operation has all of them alone; all or none, given back on every way out |
| OperationEngine.Engine.RunOnChannel | core/operation/engine.go:263-292 | callable only with the needed resources granted: every Invoke made until the first lease may end is made with the resources held alone, whatever others do to the lease table meanwhile; from RESOLVING the lifecycle passed in goes on by a run to its end; RESOLVE_FAILED only if no channel would do or others changed the channels |
| OperationEngine.Engine.PickChannel | core/operation/engine.go:263-275 | the resolver's choice is bound, an error iff no channel will do |
| OperationEngine.Engine.Cancel | core/operation/engine.go:190-208 | refused iff missing or terminal, else the flag is up, the lifecycle is as before with the flag raised, and the plugin of the bound channel is told iff it is registered and takes cancels |
| OperationEngine.Engine.Poll | core/operation/engine.go:172-178 | Wait's poll gives a result iff the state is terminal, and of that state |
| OperationEngine.Engine.EveryOperation | core/operation/engine.go:28-54 | every operation of the engine at any time obeys the lifecycle theorems, and so do the calls made for it: at most maxRetries+1 Invokes and maxRetries Recovers, each Invoke well aimed, none after an observed mismatch; over, it SUCCEEDED or failed verification iff the last call proves it, is UNKNOWN iff they leave the outcome open, RUN_FAILED if they broke off, and given up on only with every retry used; the stored evidence of a success is what that call came back with and names no other version |
| RecoveryLadder.PlanAscends | core/recovery/recovery.go:126-171 | at most four levels, strictly ascending |
| RecoveryLadder.PlanMeans | core/recovery/recovery.go:126-217 | which levels are in the plan, by the error: reconnecting for recoverable, CONNECTION and DEVICE_STATE errors, another channel for those and PROTOCOL, rediscovery for CONNECTION, DEVICE_STATE and DISCOVERY, a reset for CONNECTION and DEVICE_STATE while resets are left |
| RecoveryLadder.TriedIsPrefix | core/recovery/recovery.go:126-171 | a level is tried only when all before it failed, and none after one that worked |
| RecoveryLadder.UnclassifiedIsNotRecovered | core/recovery/recovery.go:29-46 | an error nobody normalized is TIMEOUT, CANCELLATION or UNKNOWN and gets an empty plan, whatever is configured; a normalized one stays as it is |
| RecoveryLadder.BudgetHolds | core/recovery/recovery.go:115-176 | since its last success a channel has at most MaxAttempts+3 ladder steps and MaxDeviceResets resets, for all failures and answers |
| RecoveryLadder.ExhaustedForGood | core/recovery/recovery.go:120-122 | an exhausted channel stays exhausted and tries no level |
| RecoveryLadder.FailuresExhaust | core/recovery/recovery.go:115-176 | recoverable failures with no level working exhaust a channel within MaxAttempts calls |
| RecoveryLadder.BackoffDoubles | core/recovery/recovery.go:230-241 | each sleep is min(Base*2^(k-1), 1s) while the largest shift fits in 63 bits, none before the second step |
| RecoveryLadder.BackoffExactly | core/recovery/recovery.go:230-241 | a sleep is min(Base*2^(k-1), 1s) iff the doubled base fits in 63 bits or wraps to a second or more |
| RecoveryLadder.SleepBudget | core/recovery/recovery.go:230-241 | total sleep since the last success is at most Base*(2^(MaxAttempts+3)-2) |
| RecoveryLadder.ShiftOverflows | core/recovery/recovery.go:235-238 | the default base shifted by 40 is negative and does not sleep; a shift by 64 leaves zero |
| Recovery.Manager.Recover | core/recovery/recovery.go:115-176 | with scans and other operations at work during every sleep: spends, reports, announces and does what the ladder says for the levels that worked; each level is announced iff attempts are left, the error's category or recoverable flag calls for it, what it needs is there, and no lower level worked; the plugin is asked to Recover iff L2 or L5 was announced, a scan is made iff L4 was; RECOVERED, RECOVERY_FAILED iff the budget was spent before, else MANUAL; hands back the failed channel READY again after L2 or L5, the best other READY one of the device with the capability after L3 or L4; if it fails, each level that asked the resolver found no such channel among those there were then; an exhausted channel is left alone |
| Recovery.Manager.ReResolve | core/recovery/recovery.go:180-193 | the failed channel, if READY, becomes DEGRADED and unhealthy, no other changes, and so the resolver's choice is another one |
| Recovery.Manager.BeginStep | core/recovery/recovery.go:230-241 | every step adds one attempt, its event and its sleep, and the sleep account stays the sum of the backoffs |
| RegistryStore.Registry.UpsertDevice | core/registry/registry.go:33-40 | the device is stored and, with a serial, indexed under it; the serial index stays sound iff no other serial named this device |
| RegistryStore.Registry.AddEndpoint | core/registry/registry.go:75-82 | the endpoint is stored and its device lists it; locators stay unique iff no other endpoint has this one's |
| RegistryStore.Registry.EndpointByLocator | core/registry/registry.go:104-113 | finds the locator's endpoint iff there is one, whatever the map's order |
| RegistryStore.Registry.ChannelsByDeviceCapability | core/registry/registry.go:158-166 | exactly the READY channels of the device that advertise the capability |
| RegistryStore.PutChannel | core/registry/registry.go:129-133 | storing a channel keeps one channel per endpoint and plugin iff no other channel has its seat, which an update that keeps the channel's identity never does |
| RegistryStore.Registry.AddChannel | core/registry/registry.go:129-133 | the channel is stored under its ID; the store stays sound iff its endpoint is stored and its seat was free or its own |
| Resolver.ResolveChannel | core/resolver/resolver.go:33-77 | a READY channel of the device with the capability, and of the type if one is asked for; of the others like it none is healthy if it is not, none of its health is cheaper, and none of its health and cost has a smaller ID; an error iff there is none like it |
| Resolver.BetterIsTotalOrder | core/resolver/resolver.go:60-69 | the comparator is a strict total order on stored channels |
| Resolver.ChoiceIsUnique | core/resolver/resolver.go:33-77 | so the choice is a function of the registry's contents |
| Resolver.ChoiceOrNone | core/resolver/resolver.go:33-77 | and there is one whenever some channel qualifies |
| Discovery.Service.Correlate | core/discovery/service.go:236-255 | the device of the hinted serial, and nothing changed, iff it is not quarantined and a hardware ID is missing or both are equal; else a new one, quarantined iff they differ; the serial then points to it |
| Discovery.SameAgain | core/discovery/service.go:232-255 | the same hints give the same device again iff they have a serial and did not differ in hardware ID from the device it named |
| Discovery.Service.DiscoverEndpoint | core/discovery/service.go:147-195 | indices stay sound, only what is at the locator changes, found iff some plugin matched and opened; then the first such plugin's channel is READY there and the device fits its hints |
| Discovery.Service.Visit | core/discovery/service.go:147-195 | one plugin's match at a locator: the device is the one correlated, the plugin's channel on its endpoint is READY iff it opened, else FAILED, a new one is as offered, indices stay sound, and a channel of that endpoint stays at home iff the device found is its own |
| Discovery.VisitHomes | core/discovery/service.go:165-180 | re-binding an endpoint leaves its channels where they were: such a channel is at home afterwards iff the endpoint's new device is its own |
| Discovery.Service.Discover | core/discovery/service.go:64-76 | brings in the scan: where the last sighting of a locator was opened, a READY channel on its endpoint for a device found that fits the hints; adds no device if every serial hinted is known with no other hardware ID; records the scan; the registry stays up to date iff no READY channel is at a locator the scan lacks |
| Discovery.Service.Refresh | core/discovery/service.go:79-105 | keeps every READY channel on an available endpoint of the latest scan; exactly the devices with an available endpoint that is gone are removed and OFFLINE; brings in the scan as Discover does, and adds no device in the same case |
| Discovery.BroughtMeans | core/discovery/service.go:64-76 | what a scan brings in, by fields: each device found has the serial, and no other hardware ID, that a plugin which opened it hinted; where a locator's last sighting was opened, a READY channel on its available endpoint, of a device found |
| Discovery.Service.MarkGone | core/discovery/service.go:86-101 | exactly the endpoints at lost locators become unavailable, exactly their usable channels degrade, exactly their devices go OFFLINE |
| Discovery.Service.MarkUnavailable | core/discovery/service.go:209-229 | the endpoint becomes unavailable and exactly its READY or DEGRADED channels DEGRADED and unhealthy |
| Discovery.LocatorGone | core/discovery/service.go:90-101 | degrading the channels of a lost locator re-establishes the invariant without it |
| Discovery.Watch | core/discovery/service.go:109-127 | one Discover then any Refreshes, with any scans and answers: READY channels only on available endpoints of the latest scan, and one at every locator whose last sighting was opened |
| AccessPolicy.Policy.Evaluate | core/security/policy.go:81-95 | the decision is what the calls made so far entitle to, read off their history |
| AccessPolicy.EntitledMeans | core/security/policy.go:81-95 | denied iff granted neither for the target nor for all devices; else allowed iff the risk is LOW or MEDIUM or it was pre-approved, and an approval asked for iff not |
| AccessPolicy.EntitledByTheSet | core/security/policy.go:49-78 | the order and repetition of grants do not matter |
| AccessPolicy.EntitledMonotone | core/security/policy.go:49-95 | deny by default, and further calls never take an allowed request away |
| Secrets.MaskRemoves | core/security/secret.go:51-55 | replacing a mask-safe secret leaves none of it |
| Secrets.MaskCreatesNothing | core/security/secret.go:51-55 | and brings back no other secret that was gone |
| Secrets.NoStarIsMaskSafe | core/security/secret.go:46-57 | a non-empty secret without an asterisk is mask-safe |
| Secrets.RedactComplete | core/security/secret.go:48-57 | for every store, text and iteration order a mask-safe secret that is stored, or was not in the text, is not in the result |
| Secrets.RedactExactly | core/security/secret.go:48-57 | a secret is gone from every text under every order of every store that holds it, iff it is mask-safe |
| Secrets.CoveredGone | core/security/secret.go:48-57 | a secret that is not mask-safe is gone too when it contains a stored mask-safe one |
| Secrets.RedactIdempotent | core/security/secret.go:48-57 | redacting again, in any other order, changes nothing when every secret is empty, the mask, or contains a stored mask-safe one |
| Secrets.OneSecretExactly | core/security/secret.go:48-57 | one secret is redacted from every text iff it is mask-safe |
| Secrets.OneSecretIdempotentExactly | core/security/secret.go:48-57 | redacting by one secret twice equals once for every text, iff it is mask-safe or the mask |
| Secrets.OrderShowsInResult | core/security/secret.go:48-57 | two orders that give different texts |
| Secrets.SecretStore.Redact | core/security/secret.go:48-57 | the loop's result is that of some order visiting each entry once, free of every stored secret that is mask-safe or contains a stored mask-safe one |
| ConsoleLines.Stream.NothingLost | transport/console/stream.go:31-97 | lines delivered, then the non-blank lines held, are the non-blank lines of all bytes accepted, however they were cut into chunks |
| ConsoleLines.Stream.Push | transport/console/stream.go:31-41 | accepted iff open and fewer than 256 chunks are queued; the input grows by just that chunk |
| ConsoleLines.Stream.ExtractLine | transport/console/stream.go:89-97 | pops exactly the next complete line, trimmed of carriage returns |
| ConsoleLines.Stream.Read | transport/console/stream.go:43-68 | lines come numbered 1, 2, 3, ...; blocked, every complete line has been delivered iff only blank ones are pending, as always on input without blank lines |
| ConsoleLines.LinesSplit | transport/console/stream.go:89-97 | the lines of two pieces of input are those of the first, then those of its unfinished tail with the second |
| ConsoleLines.LineMeans | transport/console/stream.go:89-97 | a line between carriage returns and before a line feed comes out bare, then the lines of the rest |
| ConsoleLines.MissedLines | transport/console/stream.go:43-68 | with any bytes pending and any chunks queued, reading until blocked gets all lines iff it leaves only blank ones pending, and iff from no group of lines on (those pending, those of each chunk) more blank lines come before the last non-blank one than chunks behind that group |
| ConsoleLines.Stream.ReadAllPending | transport/console/stream.go:43-68 | nothing from a closed stream; else, whatever is queued, exactly the lines up to where Read would wait, the rest staying held, and so all iff that is blank, which is iff the blank lines are paced by the chunks |
| ConsolePump.Console.Pump | transport/console/console.go:171-179 | one read's bytes join the buffer and reach every stream that is neither closed nor full; the others are the ones that fall behind |
| ConsolePump.Console.StreamSeesAll | transport/console/console.go:158-187 | a stream that is not behind has delivered or holds exactly the lines of what was read since it opened |
| ConsolePump.Console.OpenStream | transport/console/console.go:145-156 | a new stream starts at the end of the buffer; none when disconnected |
| ConsolePump.Console.CloseStream | transport/console/stream.go:76-86 | the stream leaves the pump's table and is closed; the others are as before |
| ConsoleDevice.CleanInvertsAnswer | transport/console/console.go:189-207 | cleaning undoes echo, body and prompt for every one-line command and body without carriage returns, whichever of the four ways the device ends lines |
| ConsoleDevice.CleanOneLine | transport/console/console.go:189-207 | of a text without line breaks an echo at its start and the prompt come off, nothing else |
| ConsoleDevice.CleanKeepsFirst | transport/console/console.go:194-200 | a first line that does not show the command stays |
| ModbusWire.WireExact | plugin/modbus/client.go:67-87 | one operation over the wire equals one on the maps iff it is a write or reads 1 to 127 registers |
| ModbusWire.WireRefinesMaps | fake/modbus.go:73-143 | a sequence of operations gives the same replies and registers over the wire as on the maps, iff each operation is one that does |
| ModbusWire.ReadOverWire | fake/modbus.go:108-123 | for every quantity: the first qty mod 128 registers, addresses wrapping at 2^16, or a failure exactly when qty mod 32768 is 0 or 32767 |
| ModbusWire.EmptyReadFails | plugin/modbus/client.go:67-80 | a read of no registers fails |
| ModbusWire.FrameReceived | plugin/modbus/client.go:90-112 | the frame carries transaction, protocol and unit in its header and the PDU's length mod 2^16; the receiver gets that prefix of the PDU, the whole iff it is at most 65535 bytes |
| ModbusWire.RequestOctets | plugin/modbus/client.go:67-112 | the twelve octets of each request: header, function 3, 4 or 6, two 16-bit numbers with the high octet first |
| ModbusWire.ReplyOctets | fake/modbus.go:108-123 | the octets of a reply of 1 to 127 registers: header, function, byte count, each register with the high octet first |
| ModbusWire.UnknownFunction | fake/modbus.go:97-106 | any other function is answered by exception 1 and changes nothing |
| ModbusEndpoints.FillFrame | plugin/modbus/client.go:90-99 | the buffer filled byte by byte is the frame |
| ModbusEndpoints.Server.ReadRegs | fake/modbus.go:108-123 | the response buffer filled in the loop is the reply of the wire specification |
| ModbusEndpoints.Client.Transact | plugin/modbus/client.go:67-87 | with any bytes left over on the connection the client decodes the first frame on it, or waits; on a clean one a read equals the wire specification, and the map iff 1 to 127 registers, and up to 32766 leaves it clean |
| ModbusEndpoints.Client.WriteRegister | plugin/modbus/client.go:49-65 | the server's map is updated at that address only, whatever is left over on the connection; on a clean one the write is acknowledged and leaves it clean |
| DebugMemory.ReadAfterWriteExactly | fake/device.go:280-304 | reading back gives the words iff words 2^30 apart agree |
| DebugMemory.ReadAfterWrite | fake/device.go:280-304 | so always up to 2^30 words, from any start, across the wrap past 2^32 |
| DebugMemory.OthersKept | fake/device.go:294-304 | all other addresses keep their contents |
| DebugMemory.AddrMeans | fake/device.go:280-304 | word i of a transfer is at start + 4i, wrapping at 2^32 |
| DebugMemory.Device.WriteMemory | fake/device.go:294-304 | refused iff the device is offline or set to fail, without effect, else the memory of the specification |
| DebugMemory.Device.ReadMemory | fake/device.go:280-291 | refused iff the device is offline or set to fail, else the words stored from the address on, wrapping at 2^32, zero where none was written |
| HexWords.CommaRoundTrip | plugin/jtag/invoke.go:102-127 | comma-joined printed words parse to the same non-empty list |
| HexWords.FormatRoundTripExactly | plugin/jtag/invoke.go:102-127 | what is actually printed parses back iff there is exactly one word |
| HexWords.WordRoundTrip | plugin/jtag/invoke.go:93-127 | every 32-bit word is read back from its eight digits |
| HexWords.FormatMeans | plugin/jtag/invoke.go:121-127 | a word is printed as 0x and its eight digits, the highest first, in lower case |
| HexWords.UpperCaseReads | plugin/jtag/invoke.go:93-119 | digits in upper case are read as the same word |
| HexWords.AddrRoundTrip | plugin/jtag/invoke.go:93-100 | a printed word is parsed back as an address |
| HexWords.ParseWords | plugin/jtag/invoke.go:102-119 | the token loop computes the parse, errors included |
| HexWords.FormatWords | plugin/jtag/invoke.go:121-127 | the loop prints the joined words |
| EventBus.ResumeLosesNothing | core/event/bus.go:109-132 | polling with the last sequence received, interleaved with any publishes, accumulates exactly the matching events as of the last poll |
| EventBus.Bus.Publish | core/event/bus.go:65-80 | appends the event with the next sequence, so sequences are 1 to n in order |
| EventBus.Bus.EventsAfter | core/event/bus.go:122-132 | the stored events past the cursor that match each field the filter sets, in order |
| EventBus.SelectSplit | core/event/bus.go:109-132 | all matching events are those up to a cursor, then those after it |
| EventBus.SelectMeans | core/event/bus.go:22-33 | an event is selected iff it is stored, past the cursor, and of the device, operation and type asked for, each if one is |

## Left out

- gRPC, the generated protocol code, serial and TCP dialing, the command line, the MCP head, and the conversion tables: I/O or thin wrappers.
- Sessions, artifacts, audit records, authentication, plugin manifests and batch counting: they would add only easy members; a session is a table from session to principal.
- Concrete plugins: Open, Invoke, Observe and Recover answer arbitrarily within the plugin contract.
- Pointers into the registry, the task table and the attempt table: records are map entries reached by ID, so a stale pointer kept across a deletion is not modelled.
- Two Executes of one operation in parallel, and two Recovers in parallel: one at a time. Recoveries of any channel and scans for devices do run between the critical sections of an Execute, and scans and other operations' changes of channels during the sleeps of a Recover.
- Grants and approvals that arrive during an Execute: policy and approvals are what they are when it is called, so what the gate reads then is what it would have read at the call.
- A change of the channel's state between the READY check or Open and the Invoke right after it: the two are one step, so READY is what that check saw. An Invoke's exclusivity is claimed of the time when it begins.
- Wake-ups of a blocked Acquire: a waiter may look again at any step, and the context is done after an arbitrary number of looks. Other holders release and renew only leases of their own.
- Real time, sleeping and timeouts, 64-bit counters that wrap, the order of events against state changes, and event payloads.
- The farm's device pool and its Busy flags, which overlapping tasks clear for each other.
- Delivery to event subscribers, and how the console's Execute waits for its prompt.
- Unicode spaces beyond Latin-1 in trimming, and error message texts.
- Deadline of a request, and MaxDuration and MaxPowerCycles of a recovery budget: the code never reads them.
- Recovery.Manager.constructor: demands a resolver when discovery is wired, where the code would dereference nil at L4 instead of failing.
- Lease IDs are numbers from a counter, where the code draws them at random; either way none is used twice.
- Secrets.RedactIdempotent: the condition is proved sufficient for a store of several secrets; that it is also necessary is proved for a store of one only, by OneSecretIdempotentExactly. The code promises no idempotence.
