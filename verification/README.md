# Verified model of the NullStar kernel's execution, memory, authority and event cores

The project models nine files of the NullStar kernel as Dafny values and classes, and proves what the kernel relies on
across whole runs of their operations.

- **Execution.** `Processes` and `Scheduling` model `ProcessTable` and `SmpRoundRobin`; `Execution` models
  `SmpExecution`, which changes both. An `expect` is an explicit panic outcome; the two that follow a check of the same
  key, in process and thread insertion, are preconditions proved at the call. `Coupling` states the link: a thread
  is Running iff it is current on exactly one CPU, Runnable iff it is queued exactly once on its assigned CPU, Blocked,
  Sleeping or Stopped iff its assignment is Blocked, and Exited iff it has no assignment. `Ageing`, `Stopping`,
  `Convergence` and `Waiting` build on it: no panic in any run, stopping independent of waiting, termination of the load
  balancer, bounded waiting. `Runtime` and `RuntimeAtomicity` prove batch admission all-or-nothing, `RuntimeRuns` the
  safety of every interleaving of the runtime's calls with the coordinator's.
- **Containment.** `Containment` and its companions model the job hierarchy: each counter equals the sum over a subtree.
- **Memory.** `AddressSpaces` to `EagerFork` model mappings, reference counts and copy-on-write, and prove lazy fork
  equal to eager copying for what address spaces can see.
- **Authority.** `Capabilities` to `CapabilityRuns` model handles, generations, revocation and collection.
- **Events.** `Timers` and `TimerRuns` model the interrupt timer queue; `EventPorts` and `EdgeDelivery` the event port,
  against a machine that keeps every edge separately.

Operations are functions on values with their errors as results; the theorems are about these functions and about runs
of them. The source's objects are classes (`RoundRobin`, `SmpRoundRobin`, `ProcessTable`, `SmpExecution`,
`ExecutionRuntime`, `ContainmentTree`, `AddressSpaceTable`, `CapabilityRegistry`, `InterruptTimerQueue`, `State`) whose
methods keep the source's loops and order of updates and are proved to compute the functions. A method with an `expect`
that its own checks do not settle reports where it would panic.

CPU masks, rights and signals are sets of bit numbers. Identifiers are numbers; 64-bit and 32-bit saturation, checked
addition and exhaustion are written out. Clock readings, signal levels, page contents and the choice of the next call
are parameters.

## Where the code and an expectation differ

Where a promise fails for some input the model keeps the code's behaviour, and a lemma says exactly when it holds.

- Process identities saturate, and the last one repeats. Creation keeps identities unique, and a run keeps the coupling,
  iff no identity in use is given away (`ProcessInvariant.UniqueIffUnused`, `ProcessInvariant.LastIdentityRepeats`,
  `Coupling.CreateProcessExactly`, `Ageing.RunsCoupledIffFresh`).
- Reaping a context whose process holds a second exited thread is refused after children were orphaned and the thread
  joined (`Reaping.ReapContextExactly`, `Reaping.RefusedTooLate`).
- `protect` on a copy-on-write page leaves the mark, so the next fault gives write access back; if `protect` made the
  page executable, it is then both (`EagerFork.ProtectAgreesIff`, `EagerFork.ResolveWriteXorExecute`,
  `EagerFork.WritableExecutableArises`).
- `map` accepts a frame never handed out, and the allocator can record it twice (`AddressInvariant.AllocateEffect`,
  `EagerFork.UnallocatedFrameDuplicates`).
- A process removed from the capability registry restarts its generations, so a handle closed before can resolve again
  (`CapabilityRuns.RemovalRestartsGenerations`, `CapabilityRuns.ClosedHandleRevives`); any
  other call keeps it refused (`CapabilityRuns.OutdatedIffNotRemoved`, `CapabilityRuns.ClosedHandlesStayClosed`).
- `elapsed / period + 1` overflows for one combination of arguments: a panic where overflow is checked
  (`Timers.RescheduleErrorExactly`), a timer put back to deadline 0 where it wraps (`Timers.WrappingDiffersExactly`).
  At the last instant no queue with a periodic timer can be advanced (`TimerRuns.LastInstantFails`).
- A failed batch registration can leave the CPU online and the process identity spent, although the comment on the call
  says it admits its contexts atomically (`RuntimeAtomicity.NoTraceIff`, `RuntimeAtomicity.RefusedButOnline`).
- The event queue can overflow iff its capacity is below the number of keys that can be registered
  (`EdgeDelivery.OverflowIffTooShort`); the kernel's constants make both 64.
- `terminate_subtree` reports `Root`, not `Retired`, for a retired job: retired jobs have no parent, so its second check
  is dead (`ContainmentRuns.TerminateSafe`).

## Model

| member | source | states |
|---|---|---|
| Ageing.RunsAreSafe | kernel/src/smp_execution.rs:99-434 | every sequence of calls from a coupled state in which no call creates a process under an identity in use completes with no `expect` failing and ends coupled; identities below the counter are not reused once gone, and an exited process stays exited with the same status |
| Ageing.RunsCoupledIffFresh | kernel/src/smp_execution.rs:83-434 | every state of a run is coupled iff no call of the run creates a process under an identity in use |
| Ageing.RoomIsFresh | kernel/src/process_model.rs:246-247 | while the counter has room for every process a run creates, no call reuses an identity |
| RuntimeRuns.RuntimeRunsAreSafe | kernel/src/execution_runtime.rs:131-262 | whatever registrations, context exits and wakes, reaping and coordinator calls interleave, none panics, no rollback fails, the lifecycle and the scheduler stay coupled and no CPU's registration is lost, as long as no call creates a process under an identity in use |
| RuntimeRuns.StepSafe | kernel/src/execution_runtime.rs:131-262 | one call of the runtime or the coordinator keeps the coupling, never panics and never fails to roll back |
| Coupling.InitialCoupled | kernel/src/smp_execution.rs:65-81 | the empty table with a freshly built scheduler is coupled |
| Runs.StepSafe | kernel/src/smp_execution.rs:83-434 | none of the nineteen public operations panics, and each keeps the coupling, except exactly a process creation under an identity in use |
| Convergence.RebalancingConverges | kernel/src/smp_execution.rs:312-321 | repeated balancing stops after at most half the initial sum of squared loads many steps, with no legal move left; total load, threads, masks and lifecycle states are conserved |
| Convergence.SettledIsEven | kernel/src/scheduling.rs:421-494 | once settled, unrestricted threads leave any two eligible CPUs within one of each other, and another step does nothing |
| Waiting.BoundedWaitingInRuns | kernel/src/scheduling.rs:756-877 | in any run of coordinator calls that leaves a thread on its CPU, a thread with k others waiting before it gets the CPU within (k + 1) quanta of that CPU's ticks |
| Waiting.StepIsEvent | kernel/src/smp_execution.rs:83-342 | every call is at most one event on each CPU's queue, and a timer tick only if it ticks that CPU |
| RoundRobin.BoundedWaiting | kernel/src/scheduling.rs:756-842 | on one queue a waiting thread runs within its patience in ticks, whatever joins, leaves, yields and blocks of others interleave |
| RoundRobin.PatienceFalls | kernel/src/scheduling.rs:776-877 | no event of another thread makes a waiter wait longer, and each tick brings it strictly closer |
| Stopping.RunKeepsView | kernel/src/process_model.rs:481-535 | over any run that does not end it a live thread behaves as a stopped flag beside an independent wait state |
| Stopping.FlagBesideWait | kernel/src/process_model.rs:481-535 | without new waits the flag is the last stop or continue and the wait is over iff some wake was accepted, before, during or after a stop |
| Stopping.StoppedStandsNowhere | kernel/src/smp_execution.rs:217-284 | a stopped thread is in no run queue and on no CPU, however often it was woken |
| Stopping.ReadyStands | kernel/src/smp_execution.rs:217-284 | an unstopped ready thread stands in a queue or on a CPU, so no accepted wake is lost |
| RuntimeAtomicity.RegisterAllOrNothing | kernel/src/execution_runtime.rs:131-167 | a batch admission never panics and its rollback never fails; it succeeds iff the CPU can go online, there is room, and the identities are distinct and unused, and then the process holds exactly these; on an error the process table, assignments and every queue's current thread and order are as before, except exactly for the CPU left online and the identity spent |
| RuntimeAtomicity.NoTraceIff | kernel/src/execution_runtime.rs:131-167 | a refused registration leaves the online mask and the identity counter alone iff it is refused before going online, or the CPU was online and no process is created or the counter is saturated |
| RuntimeAtomicity.RefusedButOnline | kernel/src/execution_runtime.rs:146-164 | two contexts with one slot on an offline CPU of a fresh machine: refused, with the CPU left online and an identity spent |
| RuntimeAtomicity.AdmitsExactly | kernel/src/execution_runtime.rs:153-164 | the admission loop admits every context iff there is room for all and their identities are distinct and unused |
| RuntimeAtomicity.RegisterUserAllOrNothing | kernel/src/execution_runtime.rs:191-218 | exact success condition; a refused userspace context leaves no trace but counters, the identity counter moving iff the process was created; an accepted one is a fresh thread in the line of the requested CPU |
| RuntimeAtomicity.RollbackRestores | kernel/src/smp_execution.rs:360-374 | rolling back a process after any admitted prefix of a batch never fails and restores the state before the process was created, online mask included, up to the spent identity |
| RuntimeAtomicity.AdmitContextsStaged | kernel/src/execution_runtime.rs:153-164 | the admission loop admits a prefix of the batch, and reports success iff that prefix is all of it |
| RuntimeAtomicity.DropUndoesAdd | kernel/src/process_model.rs:378-401 | dropping a process just created restores the process list exactly, including the parent's children |
| Reaping.ReapContextExactly | kernel/src/execution_runtime.rs:240-262 | reaping succeeds iff the checks pass and the thread is the only one of its process; with another exited thread it is refused after every child lost its parent and the thread was joined; every other refusal changes nothing |
| Reaping.RefusedTooLate | kernel/src/execution_runtime.rs:240-262 | a table built by six calls where every check passes and the call is refused after it orphaned the child and joined the thread |
| ProcessInvariant.UniqueIffUnused | kernel/src/process_model.rs:228-263 | process creation keeps identities unique iff the next identity is not in use |
| ProcessInvariant.LastIdentityRepeats | kernel/src/process_model.rs:246-247 | at the largest identity a second creation gives two processes the same identity |
| Coupling.CreateThreadSafe | kernel/src/smp_execution.rs:99-119 | succeeds exactly when both validations pass and an identity is left; the fresh thread then stands where the reply says, on the least loaded allowed CPU with the lowest number |
| Coupling.CreateThreadWithIdSafe | kernel/src/smp_execution.rs:122-144 | succeeds exactly when both validations pass and the identity is unused; the thread then stands where the reply says |
| Coupling.AdmitCreatedSafe | kernel/src/smp_execution.rs:99-144 | admission after validation cannot fail, so the rollback path of thread creation is dead |
| Coupling.TickSafe | kernel/src/smp_execution.rs:185-189 | a tick leaves every thread's lifecycle as it was up to running and runnable |
| Coupling.YieldSafe | kernel/src/smp_execution.rs:191-195 | a yield leaves every thread's lifecycle as it was up to running and runnable |
| Coupling.ParkSafe | kernel/src/smp_execution.rs:197-215 | block and sleep succeed exactly on runnable and running threads |
| Coupling.WakeSafe | kernel/src/smp_execution.rs:217-236 | succeeds exactly on threads blocked, sleeping, or stopped before their wait was over; a stopped one gets no placement, any other stands where the reply says |
| Coupling.StopSafe | kernel/src/smp_execution.rs:238-257 | stop succeeds exactly on threads neither stopped nor exited |
| Coupling.ContinueSafe | kernel/src/smp_execution.rs:259-284 | succeeds exactly on stopped threads; the thread stands in line, where the reply says, iff its wait was over |
| Coupling.SetAffinitySafe | kernel/src/smp_execution.rs:286-297 | succeeds exactly on live threads with a valid mask, and follows the migration without a failing `expect` |
| Coupling.MigrateSafe | kernel/src/smp_execution.rs:299-310 | succeeds exactly on live threads allowed on an online target |
| Coupling.RebalanceSafe | kernel/src/smp_execution.rs:312-321 | moves a thread iff a legal move exists, keeps the total load and lowers the sum of squares by at least two |
| Coupling.ExitSafe | kernel/src/smp_execution.rs:323-342 | succeeds exactly on live threads and takes them off the scheduler |
| Coupling.RotateSafe | kernel/src/smp_execution.rs:403-416 | following a rotation of one line never fails and keeps the coupling |
| Coupling.ActivateEffect | kernel/src/smp_execution.rs:418-424 | activation succeeds on a runnable thread and changes only it |
| Coupling.RelocateSafe | kernel/src/smp_execution.rs:426-434 | following any successful migration never fails and restores the coupling, lifecycle states changing only between running and runnable |
| Coupling.DetachSafe | kernel/src/smp_execution.rs:344-346 | detaching keeps the coupling and cannot panic |
| Coupling.JoinSafe | kernel/src/smp_execution.rs:348-350 | joining keeps the coupling and cannot panic |
| Coupling.ReapSafe | kernel/src/smp_execution.rs:352-354 | reaping keeps the coupling and cannot panic |
| Coupling.OrphanSafe | kernel/src/smp_execution.rs:356-358 | orphaning keeps the coupling |
| Coupling.CreateProcessSafe | kernel/src/smp_execution.rs:87-89 | process creation under an unused identity keeps the coupling and touches no thread |
| Coupling.CreateProcessExactly | kernel/src/smp_execution.rs:87-89 | process creation keeps the coupling iff it is refused or its identity is not in use |
| Coupling.OnlineCpuSafe | kernel/src/smp_execution.rs:83-85 | succeeds exactly on CPUs that exist, and touches no thread |
| SchedulingInvariant.AdmitEffect | kernel/src/scheduling.rs:280-310 | fails exactly on a bad mask, a known thread or a full table, then changing nothing; else one thread joins the line of the least loaded allowed CPU and no other thread changes place |
| SchedulingInvariant.BlockEffect | kernel/src/scheduling.rs:506-523 | takes a standing thread out of its line; only the promoted thread changes place; its only errors are an unknown or a waiting thread, so `QueueStateMismatch` cannot occur |
| SchedulingInvariant.WakeEffect | kernel/src/scheduling.rs:525-565 | a parked thread stands again on its previous CPU, or on the least loaded allowed one if that is shorter by at least two; its only errors are an unknown or a runnable thread, so `Capacity` and `QueueStateMismatch` cannot occur |
| SchedulingInvariant.DischargeEffect | kernel/src/scheduling.rs:567-586 | removes any known thread from its line and the table; only the promoted thread changes place; its only error is an unknown thread |
| SchedulingInvariant.MoveEffect | kernel/src/scheduling.rs:676-693 | a standing thread moves between two lines with exact places for every thread; neither error can occur |
| SchedulingInvariant.SetAffinityEffect | kernel/src/scheduling.rs:322-365 | succeeds exactly for known threads and valid masks; the thread stays if the new mask allows it, else goes to the least loaded allowed CPU, standing or parked as it was |
| SchedulingInvariant.MigrateEffect | kernel/src/scheduling.rs:371-415 | succeeds exactly when the target is online, the thread known and the target allowed; only the migrant and the promoted thread change place; `Capacity` and `QueueStateMismatch` cannot occur |
| SchedulingInvariant.TickCpuEffect | kernel/src/scheduling.rs:496-499 | rotates at most the ticked CPU's line, keeps every other place |
| SchedulingInvariant.YieldCpuEffect | kernel/src/scheduling.rs:501-504 | rotates at most the yielding CPU's line, keeps every other place |
| SchedulingInvariant.LeastLoadedIsLeast | kernel/src/scheduling.rs:649-664 | the scan finds the least load among the allowed CPUs, the lowest number winning ties, and never fails on a valid mask |
| SchedulingInvariant.NewSmpInv | kernel/src/scheduling.rs:233-254 | a new scheduler satisfies the invariant |
| Balance.PlanIsBest | kernel/src/scheduling.rs:421-494 | a plan is a legal move with true loads and the largest difference, ties going to the lowest CPU pair, the running thread only if no waiting one qualifies; no plan means no legal move exists |
| Balance.PlannedMoveImproves | kernel/src/scheduling.rs:421-494 | applying a sound plan keeps the total load and lowers the sum of squared loads by at least two |
| Balance.BalancedWithinOne | kernel/src/scheduling.rs:421-494 | with no legal move left, unrestricted threads give loads within one of each other |
| Balance.LoadIsCount | kernel/src/scheduling.rs:666-669 | each CPU's load is its number of runnable assignments |
| RoundRobin.LineView | kernel/src/scheduling.rs:728-858 | current thread and queue are head and tail of one duplicate-free line whose length is the load, so a CPU without a current thread has an empty queue |
| RoundRobin.EnqueueLine | kernel/src/scheduling.rs:756-825 | joining puts the thread at the end of the line, refused exactly when it stands there or 256 wait |
| RoundRobin.TickLine | kernel/src/scheduling.rs:776-788 | a tick either counts or rotates the whole line by one |
| RoundRobin.YieldLine | kernel/src/scheduling.rs:790-795 | a yield sends the head of the line to its end and restarts the quantum |
| RoundRobin.BlockCurrentLine | kernel/src/scheduling.rs:797-805 | blocking drops the head of the line |
| RoundRobin.RemoveLine | kernel/src/scheduling.rs:827-842 | leaving closes the gap; only the head's leaving switches the CPU |
| ProcessInvariant.CreateProcessEffect | kernel/src/process_model.rs:228-263 | under an unused identity a new process is childless and threadless under its parent, nothing else changes; the forest, unique identities and the exact thread count hold again |
| ProcessInvariant.CreateThreadEffect | kernel/src/process_model.rs:265-274 | on success the identity was unused and the counter moves just past it; a refusal changes nothing |
| ProcessInvariant.InsertEffect | kernel/src/process_model.rs:290-308 | the thread starts runnable and its process runs, no other thread or process changes, and the forest and the exact thread count hold again |
| ProcessInvariant.RollbackUndoesInsert | kernel/src/process_model.rs:341-372 | rolling back a thread just created restores the table exactly, its process's state and the count included |
| ProcessInvariant.FreeThreadIdIsLeast | kernel/src/process_model.rs:310-320 | the search ends at the least unused identity or reports that all are used |
| ProcessInvariant.CallEffect | kernel/src/process_model.rs:437-535 | a lifecycle call changes its own thread only, and nothing when refused |
| ProcessInvariant.ExitEffect | kernel/src/process_model.rs:537-579 | never panics; a live thread ends and is forgotten if detached, no other thread or process changes, its process keeps its parent and children, and a process that ends with it records its status |
| ProcessInvariant.DetachEffect | kernel/src/process_model.rs:581-596 | marks a live thread, reclaims an exited one at once; it never panics |
| ProcessInvariant.JoinThreadEffect | kernel/src/process_model.rs:598-609 | never panics; succeeds exactly on exited threads, hands over their recorded status and forgets exactly that thread |
| ProcessInvariant.ReclaimEffect | kernel/src/process_model.rs:658-669 | reclaiming an exited thread forgets it and nothing else |
| ProcessInvariant.OrphanEffect | kernel/src/process_model.rs:615-629 | removes both sides of every edge below the process and nothing else |
| ProcessInvariant.ReapEffect | kernel/src/process_model.rs:631-656 | reaps exactly exited processes without threads and children; it never panics |
| RoundRobin.RoundRobin.Admit | kernel/src/scheduling.rs:756-825 | the deque, current thread and tick count end as the operation on lines says (`EnqueueLine`) |
| RoundRobin.RoundRobin.PopNext | kernel/src/scheduling.rs:860-865 | the deque, current thread and tick count end as the operation on lines says |
| RoundRobin.RoundRobin.Rotate | kernel/src/scheduling.rs:867-877 | the deque, current thread and tick count end as the operation on lines says (`RotateLine`) |
| RoundRobin.RoundRobin.TimerInterrupt | kernel/src/scheduling.rs:776-788 | the deque, current thread and tick count end as the operation on lines says (`TickLine`) |
| RoundRobin.RoundRobin.GiveUp | kernel/src/scheduling.rs:790-795 | the deque, current thread and tick count end as the operation on lines says (`YieldLine`) |
| RoundRobin.RoundRobin.Park | kernel/src/scheduling.rs:797-805 | the deque, current thread and tick count end as the operation on lines says (`BlockCurrentLine`) |
| RoundRobin.RoundRobin.Withdraw | kernel/src/scheduling.rs:827-842 | the deque, current thread and tick count end as the operation on lines says (`RemoveLine`) |
| SmpRoundRobin.SmpRoundRobin.WithOnlineMask | kernel/src/scheduling.rs:233-254 | the loop builds distinct idle queues iff the topology, mask and quantum are valid |
| SmpRoundRobin.SmpRoundRobin.LeastLoadedCpu | kernel/src/scheduling.rs:649-664 | the loop over local bests computes the scan proved to find the least load |
| SmpRoundRobin.SmpRoundRobin.RebalancePlan | kernel/src/scheduling.rs:421-494 | the nested loops compute the plan proved maximal |
| SmpRoundRobin.SmpRoundRobin.OnlineCpu | kernel/src/scheduling.rs:257-266 | updating the queue objects and the assignment vector in the source's order gives the state and reply that `SchedulingInvariant.OnlineCpuEffect` is about |
| SmpRoundRobin.SmpRoundRobin.Admit | kernel/src/scheduling.rs:280-310 | updating the queue objects and the assignment vector in the source's order gives the state and reply that `SchedulingInvariant.AdmitEffect` is about |
| SmpRoundRobin.SmpRoundRobin.MoveRunnable | kernel/src/scheduling.rs:676-693 | updating the queue objects and the assignment vector in the source's order gives the state and reply that `SchedulingInvariant.MoveEffect` is about |
| SmpRoundRobin.SmpRoundRobin.SetAffinity | kernel/src/scheduling.rs:322-365 | updating the queue objects and the assignment vector in the source's order gives the state and reply that `SchedulingInvariant.SetAffinityEffect` is about |
| SmpRoundRobin.SmpRoundRobin.Migrate | kernel/src/scheduling.rs:371-415 | updating the queue objects and the assignment vector in the source's order gives the state and reply that `SchedulingInvariant.MigrateEffect` is about |
| SmpRoundRobin.SmpRoundRobin.Tick | kernel/src/scheduling.rs:496-499 | updating the queue objects and the assignment vector in the source's order gives the state and reply that `SchedulingInvariant.TickCpuEffect` is about |
| SmpRoundRobin.SmpRoundRobin.YieldCurrent | kernel/src/scheduling.rs:501-504 | updating the queue objects and the assignment vector in the source's order gives the state and reply that `SchedulingInvariant.YieldCpuEffect` is about |
| SmpRoundRobin.SmpRoundRobin.Block | kernel/src/scheduling.rs:506-523 | updating the queue objects and the assignment vector in the source's order gives the state and reply that `SchedulingInvariant.BlockEffect` is about |
| SmpRoundRobin.SmpRoundRobin.Wake | kernel/src/scheduling.rs:525-565 | updating the queue objects and the assignment vector in the source's order gives the state and reply that `SchedulingInvariant.WakeEffect` is about |
| SmpRoundRobin.SmpRoundRobin.Discharge | kernel/src/scheduling.rs:567-586 | updating the queue objects and the assignment vector in the source's order gives the state and reply that `SchedulingInvariant.DischargeEffect` is about |
| SmpRoundRobin.SmpRoundRobin.ChooseWakeCpu | kernel/src/scheduling.rs:525-545 | the chosen CPU is the previous one unless another allowed CPU is shorter by at least two |
| ProcessTable.ProcessTable.AllocateThreadId | kernel/src/process_model.rs:310-320 | the loop ends at the first unused identity and moves the counter just past it, or leaves it |
| ProcessTable.ProcessTable.OrphanChildren | kernel/src/process_model.rs:615-629 | the loop over the taken children clears exactly their parents |
| ProcessTable.ProcessTable.CreateProcess | kernel/src/process_model.rs:228-263 | the vectors and counters end as the operation of `ProcessInvariant.CreateProcessEffect` says |
| ProcessTable.ProcessTable.CreateThread | kernel/src/process_model.rs:265-274 | the vectors and counters end as the operation of `ProcessInvariant.CreateThreadEffect` says |
| ProcessTable.ProcessTable.CreateThreadWithId | kernel/src/process_model.rs:276-288 | the vectors and counters end as the operation of `ProcessInvariant.InsertEffect` says |
| ProcessTable.ProcessTable.RollbackProcess | kernel/src/process_model.rs:378-401 | the vectors and counters end as the operation of `RuntimeAtomicity.DropUndoesAdd` says |
| ProcessTable.ProcessTable.Call | kernel/src/process_model.rs:437-535 | the vectors and counters end as the operation of `ProcessInvariant.CallEffect` says |
| ProcessTable.ProcessTable.ReapProcess | kernel/src/process_model.rs:631-656 | the vectors and counters end as the operation of `ProcessInvariant.ReapEffect` says, and a failed `expect` is reported |
| ProcessTable.ProcessTable.ExitThread | kernel/src/process_model.rs:537-579 | the vectors and counters end as the operation of `ProcessInvariant.ExitEffect` says, and a failed `expect` is reported |
| ProcessTable.ProcessTable.ReclaimThread | kernel/src/process_model.rs:658-669 | the vectors and counters end as the operation of `ProcessInvariant.ReclaimEffect` says, and a failed `expect` is reported |
| ProcessTable.ProcessTable.DetachThread | kernel/src/process_model.rs:581-596 | the vectors and counters end as the operation of `ProcessInvariant.DetachEffect` says, and a failed `expect` is reported |
| ProcessTable.ProcessTable.JoinThread | kernel/src/process_model.rs:598-609 | the vectors and counters end as the operation of `ProcessInvariant.JoinThreadEffect` says, and a failed `expect` is reported |
| ProcessTable.ProcessTable.RollbackThread | kernel/src/process_model.rs:341-372 | the vectors and the count end as the operation of `ProcessInvariant.RollbackUndoesInsert` says |
| ProcessTable.ProcessTable.Insert | kernel/src/process_model.rs:290-308 | inserts as `ProcessInvariant.InsertEffect` says, or reports the failed `expect` of an unknown process and changes nothing |
| SmpExecution.SmpExecution.Activate | kernel/src/smp_execution.rs:418-424 | makes the lifecycle calls in the source's order, reports a failed `expect` exactly where one fails, and otherwise ends in the state `Coupling.ActivateEffect` is about |
| SmpExecution.SmpExecution.Rotate | kernel/src/smp_execution.rs:403-416 | makes the lifecycle calls in the source's order, reports a failed `expect` exactly where one fails, and otherwise ends in the state `Coupling.RotateSafe` is about |
| SmpExecution.SmpExecution.ApplyMigration | kernel/src/smp_execution.rs:426-434 | makes the lifecycle calls in the source's order, reports a failed `expect` exactly where one fails, and otherwise ends in the state `Coupling.RelocateSafe` is about |
| SmpExecution.SmpExecution.CreateThread | kernel/src/smp_execution.rs:99-119 | the calls on the two objects give the state and reply that `Coupling.CreateThreadSafe` is about; from a coupled state no `expect` fails and the objects end coupled |
| SmpExecution.SmpExecution.CreateThreadWithId | kernel/src/smp_execution.rs:122-144 | the calls on the two objects give the state and reply that `Coupling.CreateThreadWithIdSafe` is about; from a coupled state no `expect` fails and the objects end coupled |
| SmpExecution.SmpExecution.Tick | kernel/src/smp_execution.rs:185-189 | the calls on the two objects give the state and reply that `Coupling.TickSafe` is about; from a coupled state no `expect` fails and the objects end coupled |
| SmpExecution.SmpExecution.YieldCurrent | kernel/src/smp_execution.rs:191-195 | the calls on the two objects give the state and reply that `Coupling.YieldSafe` is about; from a coupled state no `expect` fails and the objects end coupled |
| SmpExecution.SmpExecution.ParkThread | kernel/src/smp_execution.rs:197-215 | the calls on the two objects give the state and reply that `Coupling.ParkSafe` is about; from a coupled state no `expect` fails and the objects end coupled |
| SmpExecution.SmpExecution.WakeThread | kernel/src/smp_execution.rs:217-236 | the calls on the two objects give the state and reply that `Coupling.WakeSafe` is about; from a coupled state no `expect` fails and the objects end coupled |
| SmpExecution.SmpExecution.StopThread | kernel/src/smp_execution.rs:238-257 | the calls on the two objects give the state and reply that `Coupling.StopSafe` is about; from a coupled state no `expect` fails and the objects end coupled |
| SmpExecution.SmpExecution.ContinueThread | kernel/src/smp_execution.rs:259-284 | the calls on the two objects give the state and reply that `Coupling.ContinueSafe` is about; from a coupled state no `expect` fails and the objects end coupled |
| SmpExecution.SmpExecution.SetAffinity | kernel/src/smp_execution.rs:286-297 | the calls on the two objects give the state and reply that `Coupling.SetAffinitySafe` is about; from a coupled state no `expect` fails and the objects end coupled |
| SmpExecution.SmpExecution.Migrate | kernel/src/smp_execution.rs:299-310 | the calls on the two objects give the state and reply that `Coupling.MigrateSafe` is about; from a coupled state no `expect` fails and the objects end coupled |
| SmpExecution.SmpExecution.RebalanceOnce | kernel/src/smp_execution.rs:312-321 | the calls on the two objects give the state and reply that `Coupling.RebalanceSafe` is about; from a coupled state no `expect` fails and the objects end coupled |
| SmpExecution.SmpExecution.ExitThread | kernel/src/smp_execution.rs:323-342 | the calls on the two objects give the state and reply that `Coupling.ExitSafe` is about; from a coupled state no `expect` fails and the objects end coupled |
| SmpExecution.SmpExecution.DetachThread | kernel/src/smp_execution.rs:344-346 | the calls on the two objects give the state and reply that `Coupling.DetachSafe` is about; from a coupled state no `expect` fails and the objects end coupled |
| SmpExecution.SmpExecution.JoinThread | kernel/src/smp_execution.rs:348-350 | the calls on the two objects give the state and reply that `Coupling.JoinSafe` is about; from a coupled state no `expect` fails and the objects end coupled |
| SmpExecution.SmpExecution.ReapProcess | kernel/src/smp_execution.rs:352-354 | the calls on the two objects give the state and reply that `Coupling.ReapSafe` is about; from a coupled state no `expect` fails and the objects end coupled |
| SmpExecution.SmpExecution.OnlineCpu | kernel/src/smp_execution.rs:83-85 | the calls on the two objects give the state and reply that `Coupling.OnlineCpuSafe` is about |
| SmpExecution.SmpExecution.CreateProcess | kernel/src/smp_execution.rs:87-89 | the calls on the two objects give the state and reply that `Coupling.CreateProcessSafe` is about |
| SmpExecution.SmpExecution.OrphanChildren | kernel/src/smp_execution.rs:356-358 | the calls on the two objects give the state and reply that `Coupling.OrphanSafe` is about |
| SmpExecution.SmpExecution.RollbackProcess | kernel/src/smp_execution.rs:360-374 | the calls on the two objects give the state and reply that `RuntimeAtomicity.RollbackRestores` is about |
| ExecutionRuntime.ExecutionRuntime.RegisterCpuContexts | kernel/src/execution_runtime.rs:131-167 | the batch loop with its rollback ends in the state `RuntimeAtomicity.RegisterAllOrNothing` is about |
| ExecutionRuntime.ExecutionRuntime.AdmitAll | kernel/src/execution_runtime.rs:153-164 | the loop stops at the first refusal with the state reached so far |
| ExecutionRuntime.ExecutionRuntime.RegisterUserContext | kernel/src/execution_runtime.rs:191-218 | creation, admission and rollback end in the state `RuntimeAtomicity.RegisterUserAllOrNothing` is about |
| ContainmentRuns.RunsAreAccounted | kernel/src/containment.rs:182-361 | over every run each job's usage equals, in all five resources, the sum of the reservations in its subtree and stays within its limits; limits only tighten; a retired subtree is frozen with zero usage for ever |
| ContainmentRuns.StepSafe | kernel/src/containment.rs:182-361 | every operation keeps the accounts, a refused one leaves the tree unchanged, and `UsageUnderflow` never occurs |
| ContainmentRuns.TerminateSafe | kernel/src/containment.rs:331-361 | succeeds exactly for live jobs below the root; retires and empties exactly the descendants, reports how many processes they held, lowers each proper ancestor by exactly the subtree's total, leaves all other jobs alone; its `Retired` error is dead code |
| ContainmentSafety.AdmitSafe | kernel/src/containment.rs:226-255 | succeeds iff the request is well formed, the job live and every job of the chain has room; then exactly the chain is charged |
| ContainmentSafety.SetUsageSafe | kernel/src/containment.rs:257-301 | succeeds iff the process count is kept and the chain has room for what grows; reservation and chain change by the same difference in both phases |
| ContainmentSafety.ReleaseSafe | kernel/src/containment.rs:303-315 | always succeeds for a recorded reservation and uncharges exactly what it held |
| ContainmentSafety.SetLimitsSafe | kernel/src/containment.rs:206-224 | limits change only downwards and never below the current usage |
| ContainmentSafety.CreateChildSafe | kernel/src/containment.rs:189-204 | a child starts live, empty and uncharged; refused exactly on the four conditions |
| ContainmentSafety.CreateRootSafe | kernel/src/containment.rs:182-187 | succeeds exactly on the empty tree |
| ContainmentInvariant.CapacityExact | kernel/src/containment.rs:388-410 | the walk passes iff every job of the chain is live and can take the charge |
| ContainmentInvariant.ApplyExact | kernel/src/containment.rs:412-440 | if every job of the chain can take the change, exactly those jobs change |
| ContainmentInvariant.NoUnderflow | kernel/src/containment.rs:433-437 | a reservation never exceeds the usage of its job or of any ancestor |
| ContainmentTree.ContainmentTree.CollectSubtree | kernel/src/containment.rs:442-451 | the stack search terminates and visits exactly the descendants, each once |
| ContainmentTree.ContainmentTree.TerminateSubtree | kernel/src/containment.rs:331-361 | search, reverse release, unlinking and retiring together equal the declarative result, although counters change one reservation at a time |
| ContainmentTree.ContainmentTree.Settle | kernel/src/containment.rs:342-347 | uncharging the taken reservations one by one never underflows and ends with exact accounts |
| ContainmentTree.ContainmentTree.EmptyAll | kernel/src/containment.rs:341-348 | releasing the listed jobs in reverse leaves exact accounts and counts the released processes |
| ContainmentTree.ContainmentTree.RetireAll | kernel/src/containment.rs:354-359 | exactly the listed jobs lose parent and children and are retired |
| ContainmentTree.ContainmentTree.ApplyChainDelta | kernel/src/containment.rs:412-440 | collecting the chain and then changing its jobs refines the recursive walk, including where it stops on a failure |
| ContainmentTree.ContainmentTree.CheckChainCapacity | kernel/src/containment.rs:388-410 | the loop to the root reports the first refusal on the way up |
| ContainmentTree.ContainmentTree.CreateRoot | kernel/src/containment.rs:182-187 | keeps the exact accounts and gives the tree and reply that `ContainmentSafety.CreateRootSafe` is about |
| ContainmentTree.ContainmentTree.CreateChild | kernel/src/containment.rs:189-204 | keeps the exact accounts and gives the tree and reply that `ContainmentSafety.CreateChildSafe` is about |
| ContainmentTree.ContainmentTree.SetLimits | kernel/src/containment.rs:206-224 | keeps the exact accounts and gives the tree and reply that `ContainmentSafety.SetLimitsSafe` is about |
| ContainmentTree.ContainmentTree.AdmitProcess | kernel/src/containment.rs:226-255 | keeps the exact accounts and gives the tree and reply that `ContainmentSafety.AdmitSafe` is about |
| ContainmentTree.ContainmentTree.SetProcessUsage | kernel/src/containment.rs:257-301 | keeps the exact accounts and gives the tree and reply that `ContainmentSafety.SetUsageSafe` is about |
| ContainmentTree.ContainmentTree.ReleaseProcess | kernel/src/containment.rs:303-315 | keeps the exact accounts and gives the tree and reply that `ContainmentSafety.ReleaseSafe` is about |
| ContainmentTree.ContainmentTree.CreateNode | kernel/src/containment.rs:363-386 | appends one live empty job with the next identity, within the job limit |
| ContainmentInvariant.NewTreeInv | kernel/src/containment.rs:171-176 | the empty tree satisfies the invariant every run keeps |
| EagerFork.LazyForkIsEagerFork | kernel/src/address_space.rs:419-477 | over every allowed run, with page contents as ghost state, each address space sees exactly what it would see if forks copied every page, stores included, and every writable frame has exactly one mapping |
| EagerFork.RunsKeepWriteXorExecute | kernel/src/address_space.rs:449-477 | over every allowed run no page is both writable and executable, even after faults |
| EagerFork.StoreGoesThrough | kernel/src/address_space.rs:449-477 | a store with its fault resolved on the way is accepted iff the eager machine's own page may be written, and then changes the same page in both |
| EagerFork.ProtectAgreesIff | kernel/src/address_space.rs:381-398 | changing permissions agrees with an eager fork iff the page is not copy-on-write |
| EagerFork.ResolveWriteXorExecute | kernel/src/address_space.rs:466-469 | resolution keeps writable and executable apart iff the page was not executable |
| EagerFork.WritableExecutableArises | kernel/src/address_space.rs:381-477 | a run of six calls from the empty table ends with a page both writable and executable: map, fork, `protect`, `resolve_cow_fault` |
| EagerFork.UnallocatedFrameDuplicates | kernel/src/address_space.rs:283-366 | mapping a frame never handed out lets the allocator record it twice |
| CopyOnWrite.MapExclusive | kernel/src/address_space.rs:337-366 | mapping keeps writable frames exclusive iff the frame is unmapped, or shared read-only |
| CopyOnWrite.ResolveExclusive | kernel/src/address_space.rs:449-477 | fault resolution keeps them exclusive iff the new frame was unmapped |
| CopyOnWrite.ProtectExclusive | kernel/src/address_space.rs:381-398 | `protect` keeps them exclusive iff it does not make a shared frame writable |
| CopyOnWrite.CloneExclusive | kernel/src/address_space.rs:419-447 | a fork keeps them exclusive |
| CopyOnWrite.UnmapExclusive | kernel/src/address_space.rs:368-379 | unmapping keeps them exclusive |
| CopyOnWrite.DestroyExclusive | kernel/src/address_space.rs:274-281 | destroying a space keeps them exclusive |
| AddressInvariant.CloneEffect | kernel/src/address_space.rs:419-447 | a fork shares every frame of the parent read-only; it fails only before its first change |
| AddressInvariant.AllocateEffect | kernel/src/address_space.rs:283-298 | allocation keeps records unique and counts exact iff the next number has no record |
| AddressInvariant.MapEffect | kernel/src/address_space.rs:337-366 | exact success condition; adds one mapping and one reference, or changes nothing; counts equal mappings over all spaces again |
| AddressInvariant.MapNewEffect | kernel/src/address_space.rs:321-335 | the new page's frame is mapped nowhere else; a failure spends only the frame number |
| AddressInvariant.UnmapEffect | kernel/src/address_space.rs:368-379 | succeeds exactly on mapped pages; removes that mapping and its reference, and the frame's record exactly with its last reference |
| AddressInvariant.ProtectEffect | kernel/src/address_space.rs:381-398 | changes only the permissions of one page; refused exactly on invalid permissions, unmapped pages, or write on copy-on-write |
| AddressInvariant.ResolveEffect | kernel/src/address_space.rs:449-477 | exact success condition; moves one reference from the shared frame to the new one, changes one page, and drops the shared record exactly with its last reference |
| AddressInvariant.DestroyEffect | kernel/src/address_space.rs:274-281 | drops exactly the space's mappings and their references, and the records left without one |
| AddressInvariant.CreateEffect | kernel/src/address_space.rs:255-272 | exact success condition; a new space maps nothing, its identity was unused and no other space changes |
| AddressInvariant.ReleaseFrameEffect | kernel/src/address_space.rs:300-307 | releases exactly recorded frames without mappings, and only that record |
| AddressInvariant.ChangesAdvance | kernel/src/address_space.rs:337-477 | every successful map, unmap, protect and fault resolution moves the generation of its own space on, and no other |
| AddressInvariant.CloneAdvances | kernel/src/address_space.rs:419-447 | a fork moves the parent's generation on, starts the child at one, and touches no other |
| AddressInvariant.CountBound | kernel/src/address_space.rs:511-515 | counts never come near saturation |
| AddressSpaceTable.AddressSpaceTable.CloneCow | kernel/src/address_space.rs:419-447 | both loops over the mappings refine the value-level fork, including a failure part way |
| AddressSpaceTable.AddressSpaceTable.CopyMappings | kernel/src/address_space.rs:430-438 | the retaining loop copies exactly the mappings whose frames it retained |
| AddressSpaceTable.AddressSpaceTable.MarkShared | kernel/src/address_space.rs:439-444 | exactly the writable mappings of the parent become copy-on-write |
| AddressSpaceTable.AddressSpaceTable.Create | kernel/src/address_space.rs:255-272 | changing spaces and frame records in place gives the table and reply that `AddressInvariant.CreateEffect` is about |
| AddressSpaceTable.AddressSpaceTable.Destroy | kernel/src/address_space.rs:274-281 | changing spaces and frame records in place gives the table and reply that `AddressInvariant.DestroyEffect` is about |
| AddressSpaceTable.AddressSpaceTable.AllocateFrame | kernel/src/address_space.rs:283-298 | changing spaces and frame records in place gives the table and reply that `AddressInvariant.AllocateEffect` is about |
| AddressSpaceTable.AddressSpaceTable.ReleaseFrame | kernel/src/address_space.rs:300-307 | changing spaces and frame records in place gives the table and reply that `AddressInvariant.ReleaseFrameEffect` is about |
| AddressSpaceTable.AddressSpaceTable.Map | kernel/src/address_space.rs:337-366 | changing spaces and frame records in place gives the table and reply that `AddressInvariant.MapEffect` is about |
| AddressSpaceTable.AddressSpaceTable.MapNew | kernel/src/address_space.rs:321-335 | changing spaces and frame records in place gives the table and reply that `AddressInvariant.MapNewEffect` is about |
| AddressSpaceTable.AddressSpaceTable.Unmap | kernel/src/address_space.rs:368-379 | changing spaces and frame records in place gives the table and reply that `AddressInvariant.UnmapEffect` is about |
| AddressSpaceTable.AddressSpaceTable.Protect | kernel/src/address_space.rs:381-398 | changing spaces and frame records in place gives the table and reply that `AddressInvariant.ProtectEffect` is about |
| AddressSpaceTable.AddressSpaceTable.ResolveCowFault | kernel/src/address_space.rs:449-477 | changing spaces and frame records in place gives the table and reply that `AddressInvariant.ResolveEffect` is about |
| AddressSpaceTable.AddressSpaceTable.Retain | kernel/src/address_space.rs:511-524 | changing spaces and frame records in place gives the table and reply that `AddressInvariant.RetainEffect` is about |
| AddressSpaceTable.AddressSpaceTable.DropReference | kernel/src/address_space.rs:526-535 | changing spaces and frame records in place gives the table and reply that `AddressInvariant.ReleaseEffect` is about |
| AddressInvariant.RetainEffect | kernel/src/address_space.rs:511-524 | one more reference to that frame and to no other; refused exactly for a new record beyond the limit |
| AddressInvariant.ReleaseEffect | kernel/src/address_space.rs:526-535 | one reference less to that frame and to no other; the record goes exactly with the last |
| EagerFork.InitiallyAgrees | kernel/src/address_space.rs:238-245 | the empty table agrees with the empty eager machine |
| CapabilityRuns.AuthorityOnlyShrinks | kernel/src/capability.rs:159-323 | over every run no handle carries a right not granted at its object's creation or not allowed for its type, and an object is registered iff some handle names it |
| CapabilityRuns.RevocationIsFinal | kernel/src/capability.rs:263-323 | once an object is revoked or gone no run of operations makes a lookup of it succeed |
| CapabilityRuns.RevokedIsDead | kernel/src/capability.rs:319-323 | revoking an object makes it dead in the sense of `RevocationIsFinal` |
| CapabilityRuns.ClosedHandlesStayClosed | kernel/src/capability.rs:304-317 | a closed handle is refused as stale for ever, through any slot reuse and past generation exhaustion, while its process is not removed |
| CapabilityRuns.OutdatedIffNotRemoved | kernel/src/capability.rs:136-323 | every call keeps a closed handle outdated, except exactly the removal of its process |
| CapabilityRuns.ClosedIsOutdated | kernel/src/capability.rs:304-317 | closing makes the handle outdated in the sense of `ClosedHandlesStayClosed`, also at the last generation |
| CapabilityRuns.RemovalRestartsGenerations | kernel/src/capability.rs:136-157 | after removal the first handle of the process is always slot 0, generation 1 |
| CapabilityRuns.ClosedHandleRevives | kernel/src/capability.rs:136-157 | in a fresh registry a handle is created, closed and refused as stale; after its process was removed it names the first object the process creates |
| CapabilitySafety.TransferSafe | kernel/src/capability.rs:215-238 | succeeds exactly for a live handle with the transfer right, a valid subset of its rights and room at the target; conserves every object's handle count and every object, or changes nothing |
| CapabilitySafety.DuplicateSafe | kernel/src/capability.rs:191-211 | succeeds exactly for a live handle with the duplicate right, a valid subset of its rights and room; adds one handle to the same object, or changes nothing |
| CapabilitySafety.ReduceSafe | kernel/src/capability.rs:240-261 | replaces one entry's rights by a subset, possibly empty; exact success condition |
| CapabilitySafety.CloseEffect | kernel/src/capability.rs:304-317 | frees exactly that slot, moves its generation on and drops the object iff it was its last handle |
| CapabilitySafety.RevokeSafe | kernel/src/capability.rs:319-323 | succeeds exactly on registered objects, marks only that object and changes no handle |
| CapabilitySafety.RemoveProcessSafe | kernel/src/capability.rs:150-157 | drops the process's handles, no other handle, and exactly the objects left without one |
| CapabilitySafety.CreateObjectSafe | kernel/src/capability.rs:159-189 | exact success condition; a new object starts with the requested rights, which its type must allow; a refusal adds no handle and no object |
| CapabilitySafety.LookUpMeaning | kernel/src/capability.rs:263-285 | a handle resolves iff its slot holds an entry under its generation and the object is not revoked; `ObjectNotFound` and `TypeMismatch` cannot occur |
| CapabilityInvariant.InstallEffect | kernel/src/capability.rs:375-428 | succeeds exactly for a live object of that type, valid rights and a process with a free slot; adds one handle in a free slot of unspent generation or a new one; a refusal changes nothing |
| CapabilityInvariant.CollectEffect | kernel/src/capability.rs:480-490 | leaves exactly the objects that some handle names |
| Capabilities.HandleRoundTrip | kernel/src/capability.rs:27-39 | unpacking inverts packing, and bits above the generation are ignored |
| CapabilityRegistry.CapabilityRegistry.EnsureProcess | kernel/src/capability.rs:136-148 | changing slots, generations and objects in place gives the registry and reply that `CapabilityInvariant.EnsureEffect` is about |
| CapabilityRegistry.CapabilityRegistry.RemoveProcess | kernel/src/capability.rs:150-157 | changing slots, generations and objects in place gives the registry and reply that `CapabilitySafety.RemoveProcessSafe` is about |
| CapabilityRegistry.CapabilityRegistry.CreateObject | kernel/src/capability.rs:159-189 | changing slots, generations and objects in place gives the registry and reply that `CapabilitySafety.CreateObjectSafe` is about |
| CapabilityRegistry.CapabilityRegistry.Duplicate | kernel/src/capability.rs:191-211 | changing slots, generations and objects in place gives the registry and reply that `CapabilitySafety.DuplicateSafe` is about |
| CapabilityRegistry.CapabilityRegistry.Transfer | kernel/src/capability.rs:215-238 | changing slots, generations and objects in place gives the registry and reply that `CapabilitySafety.TransferSafe` is about |
| CapabilityRegistry.CapabilityRegistry.Reduce | kernel/src/capability.rs:240-261 | changing slots, generations and objects in place gives the registry and reply that `CapabilitySafety.ReduceSafe` is about |
| CapabilityRegistry.CapabilityRegistry.Close | kernel/src/capability.rs:304-317 | changing slots, generations and objects in place gives the registry and reply that `CapabilitySafety.CloseEffect` is about |
| CapabilityRegistry.CapabilityRegistry.Revoke | kernel/src/capability.rs:319-323 | changing slots, generations and objects in place gives the registry and reply that `CapabilitySafety.RevokeSafe` is about |
| CapabilityRegistry.CapabilityRegistry.Install | kernel/src/capability.rs:375-428 | changing slots, generations and objects in place gives the registry and reply that `CapabilityInvariant.InstallEffect` is about |
| CapabilityRegistry.CapabilityRegistry.CollectUnnamed | kernel/src/capability.rs:480-490 | changing slots, generations and objects in place gives the registry and reply that `CapabilityInvariant.CollectEffect` is about |
| CapabilityInvariant.EnsureEffect | kernel/src/capability.rs:136-148 | registers a process without slots and touches no handle, object or other process; refused only at the process limit |
| CapabilityRuns.InitialAuthority | kernel/src/capability.rs:120-126 | the empty registry satisfies what every run keeps |
| TimerRuns.AdvanceExactly | kernel/src/interrupt_model.rs:378-465 | succeeds iff the clock does not run backwards, the output has room and every due periodic timer fits; then it reports exactly the due timers by deadline and identity, drops due one-shots and moves each due periodic timer to the least later deadline by whole periods; any error changes nothing |
| TimerRuns.LastInstantFails | kernel/src/interrupt_model.rs:396-414 | at the largest clock value a queue with a periodic timer cannot be advanced |
| TimerRuns.ExpiredNeverFires | kernel/src/interrupt_model.rs:344-465 | over every run a cancelled timer or a one-shot that fired never fires again |
| TimerRuns.OneShotExpires | kernel/src/interrupt_model.rs:445-446 | a due one-shot leaves the queue for good |
| Timers.NextDeadlineIsLeast | kernel/src/interrupt_model.rs:405-413 | the new deadline is the least one after now that differs from the old by whole periods |
| Timers.RescheduleErrorExactly | kernel/src/interrupt_model.rs:405-413 | rescheduling fails iff the new deadline exceeds 64 bits; the unchecked addition overflows iff deadline 0, period 1 and the last instant meet |
| Timers.WrappingDiffersExactly | kernel/src/interrupt_model.rs:405-413 | where the count of periods wraps around, the new deadline differs for that one timer only, which is put back to deadline 0 |
| Timers.SortedSorts | kernel/src/interrupt_model.rs:430-441 | the insertion sort yields an ordered permutation |
| Timers.ScheduleKeeps | kernel/src/interrupt_model.rs:344-368 | succeeds exactly with a valid deadline and period, a free slot and an identity left; fills one empty slot under a fresh identity, or changes nothing |
| Timers.CancelKeeps | kernel/src/interrupt_model.rs:370-376 | removes exactly the named timer and leaves every other slot as it was; succeeds exactly on active ones |
| InterruptTimerQueue.InterruptTimerQueue.Advance | kernel/src/interrupt_model.rs:378-465 | the output array begins with the reported timers and is otherwise unchanged; on any error queue, clock and output are unchanged |
| InterruptTimerQueue.SortFired | kernel/src/interrupt_model.rs:430-441 | the in-place sort of two parallel arrays keeps pairs together and sorts them, leaving the rest of the output alone |
| InterruptTimerQueue.Sink | kernel/src/interrupt_model.rs:431-440 | the inner swap loop inserts one key into the sorted ones before it |
| InterruptTimerQueue.InterruptTimerQueue.CollectDue | kernel/src/interrupt_model.rs:418-429 | fills the parallel arrays with the due timers in slot order |
| InterruptTimerQueue.InterruptTimerQueue.CheckReschedules | kernel/src/interrupt_model.rs:396-414 | finds the first timer that cannot be rescheduled, before anything changes |
| InterruptTimerQueue.InterruptTimerQueue.RescheduleDue | kernel/src/interrupt_model.rs:443-463 | drops or moves every due timer in place |
| InterruptTimerQueue.InterruptTimerQueue.Schedule | kernel/src/interrupt_model.rs:344-368 | writing the first empty slot gives the queue and reply that `Timers.ScheduleKeeps` is about |
| InterruptTimerQueue.InterruptTimerQueue.Cancel | kernel/src/interrupt_model.rs:370-376 | clearing the timer's slot gives the queue and reply that `Timers.CancelKeeps` is about |
| EdgeDelivery.RunsDeliverEdges | kernel/src/event_port.rs:68-151 | over every run the port shows the coalescing of the reference machine's undelivered edges: one event per key, by oldest undelivered edge, with exactly the requested bits that rose since it was last popped or registered; no run overflows when the queue is long enough |
| EdgeDelivery.OverflowIffTooShort | kernel/src/event_port.rs:68-147 | some run overflows iff the event capacity is below the number of keys that can be registered |
| EdgeDelivery.PopRefines | kernel/src/event_port.rs:149-151 | delivery hands over the key of the oldest edge with all its undelivered bits |
| EdgeDelivery.ObserveRefines | kernel/src/event_port.rs:121-135 | an observation adds exactly the rising edges of the watching registrations, in their order |
| EdgeDelivery.AddRefines | kernel/src/event_port.rs:68-107 | registration counts bits already set as one edge |
| EdgeDelivery.RemoveRefines | kernel/src/event_port.rs:109-118 | removal drops the registration and its undelivered edges only |
| EdgeDelivery.CoalescedPush | kernel/src/event_port.rs:137-147 | queueing an edge merges it into its key's event or appends a new one, which is what coalescing the longer edge sequence gives |
| EventPorts.AddKeeps | kernel/src/event_port.rs:68-107 | keeps one event per key and events only of registered keys; a refusal changes nothing, and with enough room it is never for lack of it |
| EventPorts.ObserveKeeps | kernel/src/event_port.rs:121-135 | keeps the same, and cannot fail with enough room |
| EventPort.State.Observe | kernel/src/event_port.rs:121-135 | the loop over registrations refines the value-level operation, including where it stops when the queue is full |
| EventPort.State.Add | kernel/src/event_port.rs:68-107 | changing the vector and the deque in place gives the port that `EdgeDelivery.AddRefines` is about; `EventQueueFull` cannot occur with enough room |
| EventPort.State.Remove | kernel/src/event_port.rs:109-118 | changing the vector and the deque in place gives the port that `EdgeDelivery.RemoveRefines` is about |
| EventPort.State.Queue | kernel/src/event_port.rs:137-147 | changing the vector and the deque in place gives the port that `EdgeDelivery.CoalescedPush` is about |
| EventPort.State.PopEvent | kernel/src/event_port.rs:149-151 | changing the vector and the deque in place gives the port that `EdgeDelivery.PopRefines` is about |
| SchedulingInvariant.AdmitRecords | kernel/src/scheduling.rs:280-310 | the new assignment holds the requested mask and the reported CPU; every other assignment is kept |
| SchedulingInvariant.BlockRecords | kernel/src/scheduling.rs:506-523 | only the thread's state changes; its mask and CPU are kept |
| SchedulingInvariant.WakeRecords | kernel/src/scheduling.rs:525-565 | only the thread's state and CPU change; its mask is kept |
| SchedulingInvariant.DischargeRecords | kernel/src/scheduling.rs:567-586 | only the thread's assignment goes |
| SchedulingInvariant.SetAffinityRecords | kernel/src/scheduling.rs:322-365 | the thread's mask becomes the requested one and its CPU the reported one; its state and every other assignment are kept |
| SchedulingInvariant.MigrateRecords | kernel/src/scheduling.rs:371-415 | only the thread's CPU changes, to the target |
| SchedulingInvariant.OnlineCpuEffect | kernel/src/scheduling.rs:257-266 | succeeds exactly on CPUs that exist and moves no thread |

## Left out

- The architecture schedulers (kernel/src/scheduler.rs, kernel/src/smp_scheduler.rs): registers, page-table roots and interrupts.
- The global lock and interrupt masking around the runtime: each operation is one atomic step.
- Snapshot and count accessors, `Default` and `From` implementations, and `periodic_rebalance_due`: each is settled by its one expression.
- The interrupt router and exception classification in kernel/src/interrupt_model.rs, and `next_deadline`.
- `CapabilityRegistry::check`: `lookup` with a rights test.
- EagerFork.LazyForkIsEagerFork: covers runs whose `map` and fault resolution get allocated unmapped frames and whose `protect` spares copy-on-write pages and does not make shared frames writable; `CopyOnWrite.MapExclusive`, `CopyOnWrite.ResolveExclusive`, `CopyOnWrite.ProtectExclusive` and `EagerFork.ProtectAgreesIff` say exactly which other such calls break exclusive frames or the agreement.
- Rolling back a process that has children: the runtime only rolls back processes it has just created.
- The user address range and page alignment checks of kernel/src/address_space.rs: pages and frames are their validated raw numbers.
- RoundRobin.RoundRobin.constructor: takes a positive quantum; the refusal of a zero quantum is in the value-level operation and in `SmpRoundRobin.SmpRoundRobin.WithOnlineMask`.
- Ageing.RunsAreSafe: leaves out runs that create a process under an identity in use; by `Ageing.RunsCoupledIffFresh` exactly these lose the coupling.
- Waiting.BoundedWaitingInRuns: leaves out the same runs, for the same reason.
- Stopping.RunKeepsView: leaves out the same runs, for the same reason.
- RuntimeRuns.RuntimeRunsAreSafe: leaves out the same kind of runs, for the same reason.
- Coupling.CreateProcessSafe: needs an unused identity; by `Coupling.CreateProcessExactly` an accepted creation loses the coupling otherwise.
- ProcessInvariant.CreateProcessEffect: needs an unused identity; by `ProcessInvariant.UniqueIffUnused` identities are not unique otherwise.
- RuntimeAtomicity.RegisterAllOrNothing: needs an unused identity where the process is created, which then repeats otherwise.
- RuntimeAtomicity.RegisterUserAllOrNothing: needs an unused identity where the process is created, which then repeats otherwise.
- RuntimeAtomicity.RollbackRestores: is only about the batches the runtime rolls back; a process that ran since is never rolled back.
- InterruptTimerQueue.InterruptTimerQueue.Advance: reports the overflow of the unchecked addition as an error before any change, as a build with overflow checks does; `Timers.WrappingDiffersExactly` says what another build computes.
- ContainmentTree.ContainmentTree.TerminateSubtree: the count of released processes is unbounded; the source saturates at a bound that 64 jobs of 128 processes cannot reach.
