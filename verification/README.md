# genrt kernel model

genrt is a small real-time kernel for several CPUs. This project models its state machines in Dafny
and proves what they promise over every input, every interleaving and every run.

| part | files |
|---|---|
| scheduler: threads, waits, handoff, retirement, join, timer and IPI entry | `waits`, `sched_*`, `scheduler_impl` |
| mailboxes | `mailbox_*` |
| deadlines, timer, time conversion | `deadline_*`, `timer_*`, `time_*` |
| frame allocator and boot memory map | `frame_*`, `boot_map` |
| address-space ownership | `vm_*` |
| processes, waitpid and process join | `process_*` |
| console output | `console`, `ring` |
| initial user stack | `user_stack` |
| ramfs index and path resolution | `paths`, `path_*`, `ramfs_*` |

`base`, `arith` and `counting` hold shared helpers.

## How the model is built

A section under one lock is one atomic step. What a step does is a function on values; the code that
does it statement by statement is a class method proved equal to that function. Panics of the source
are assertions or preconditions that the callers prove. Concurrent protocols are runs: a sequence of
states in which any thread or CPU may take any enabled step.

The main results:

- The scheduler invariant (`SchedInvariant.Inv`) is established at boot and kept by every operation
  on every CPU. Round robin, the uniqueness of wait tokens, the retention of exited stacks and the
  conservation of exits follow for whole runs.
- The direct wake from idle cannot be told from the queued path.
- An idle CPU with queued work always has a pending request, and every entry serves it; a guarded CPU
  never switches. No blocked join is lost.
- The first cause that names a wait is the one its owner sees, once, over whole runs.
- Mailboxes and waitpid lose no wakeup. The proof of the first counts credits: threads notified and
  not yet retried, and claims in flight.
- An exit status is consumed once, by the parent or the claimant, and whoever takes it can join the
  main thread.
- Waiters of a mailbox are served in the order they came.
- The deadline heap refines a map; over whole runs an event is delivered exactly as it was set, and
  the timer is never armed late.
- The sorted free list refines a set of frames; the boot map lists exactly the usable pages.
- No root is destroyed while it is installed.
- Console output is a prefix of what was accepted, the drain ends, and nothing is stranded.
- The initial stack reads back to the arguments. Path resolution is a tree walk over an index that
  mounting proves closed, and obeys the laws of path syntax.

Assumptions:

- Memory is sequentially consistent.
- Reserving n elements gives room for n; allocation failures are not modelled.
- Code runs only on CPUs that are online or starting; saving and restoring contexts is opaque.
- Interrupts are masked from the preparation of a wait to its commit (`SchedOps.IrqOpen`,
  kernel/src/sched/wait.rs:373-376).
- A thread exits only with no active wait and with its join result taken (`SchedOps.MayExit`), and
  joins only when it has taken the result of its previous join (`SchedOps.MayJoin`).
- Main threads of processes are joined only by waitpid and process_join.
- A mailbox has a waiter capacity of at least the number of threads; the caller chooses it.
- Callers free only frames they hold. A power-of-two mask is written as a remainder.
- A token that names a join is completed only by the exit it waits for.
- A restarted waitpid repeats with the same arguments in the same address space.
- Wait metadata is stored inline in the thread and copied, so it is a value here; the scheduler
  methods store its successors in the slot.
- Thread generations wrap at 32 bits, so uniqueness is claimed for wait tokens and not for thread ids.
- Paths given to the index are normalised, as its documentation asks and `canonical_archive_path`
  ensures.

A difference found: the budget for exec arguments (`exec_arg_string_budget`) does not count the
16-byte rounding of strings and table. `UserStack.BudgetAdmitsMore` gives arguments it admits for
which no stack can be built; `UserStack.FitsExactly` says exactly which arguments fit.

## Model

| member | source | states |
|---|---|---|
| `Waits.FirstCauseWins` | kernel/src/sched/wait.rs:264-321 | after any sequence of completions for any tokens, only those naming the active token count, and finish returns the cause of the first of them, or NotCompleted if there was none |
| `SchedCauses.FirstCauseReported` | kernel/src/sched/wait.rs:244-321 | in every run the cause that a commit, finish or cancel reports for a token is the cause of the first step, after the token was issued, that named it: a completion, a timer batch or the exit of a joined thread |
| `SchedCauses.StepEffect` | kernel/src/sched/transition.rs:581-683 | one step, for a token it does not issue: its owner ends the wait or goes to sleep on it; otherwise the wait changes exactly when the step names it, and then takes that cause or, if blocked and consumed automatically, is over |
| `SchedCauses.EndedExactly` | kernel/src/sched/wait.rs:244-321 | a wait goes away exactly when its owner reports or cancels it, or when a blocked automatic wait is completed |
| `SchedCauses.ReportedOnce` | kernel/src/sched/wait.rs:244-321 | in every run the completion of a token is reported at most once |
| `SchedCauses.KeptUntilTaken` | kernel/src/sched/wait.rs:264-321 | in every run a completed wait keeps its cause, whatever else happens, until its owner ends it |
| `Waits.Lifecycle` | kernel/src/sched/wait.rs:218-321 | prepare then commit blocks and a completion wakes it, or the completion comes first and commit reports it; explicit waits are finished once, automatic ones are over when they wake |
| `SchedRuns.Apply` | kernel/src/sched/transition.rs:215-899 | every operation on every CPU, interleaved in any order, keeps the scheduler invariant: all conditions of validate_invariants plus an exact free stack, remote entries ready at home, IPI pending only when online, joiners blocked |
| `SchedRuns.RunKeepsInv` | kernel/src/sched/transition.rs:1051-1205 | the strengthened invariant holds in every state of every run |
| `SchedSteps.HandoffInv` | kernel/src/sched/transition.rs:426-443 | the current thread leaving (ready, blocked or exited) and the queue front or idle taking over keeps the invariant, with each ready thread counted once in one queue |
| `SchedSteps.WakeInv` | kernel/src/sched/transition.rs:581-631 | waking a blocked thread through the local queue or remote ingress keeps the invariant |
| `SchedSteps.SpawnInv` | kernel/src/sched/transition.rs:347-413 | publishing a thread into the top free slot keeps the invariant for a local and for a remote online home |
| `SchedSteps.ReleaseInv` | kernel/src/sched/transition.rs:143-157 | releasing an exited thread that nobody joins keeps the invariant: its slot becomes the only new free one |
| `SchedOps.Retire` | kernel/src/sched/transition.rs:695-726 | finalization at scheduler entry keeps the invariant, empties the retired record of that CPU, leaves every running or ready thread as it was and adds no joiner |
| `SchedOps.SchedulerIpi` | kernel/src/sched/preempt.rs:204-222 | finalize, drain the ingress, request and serve one checkpoint, keeping the invariant; SchedAttention.IpiServes says what it serves |
| `SchedOps.JoinReady` | kernel/src/sched/thread.rs:627-697 | after retirement the joining thread is still current with no result pending, and if it must block, it may prepare and hand over; so the panics of join are unreachable |
| `SchedCapacity.QueueRoom` | kernel/src/sched/transition.rs:618-631 | pigeonhole: with an idle thread and one more slot not queued there, both queues of the CPU together leave room for another push, so remote capacity is never exhausted |
| `SchedCapacity.ThreadRoom` | kernel/src/sched/transition.rs:818-840 | pushing a live thread that is not queued never exhausts the ready queue and never meets an entry of the same slot |
| `SchedCapacity.QueueFit` | kernel/src/sched/transition.rs:854-874 | all remote entries fit into the ready queue when they are drained |
| `SchedCapacity.QueuedDistinct` | kernel/src/sched/transition.rs:1158-1205 | the entries of both queues of a CPU are ready threads of that home in pairwise different slots |
| `SchedTimer.DirectWakeRefinesQueued` | kernel/src/sched/transition.rs:464-498 | when the direct idle wake fires, threads, waits, queues, current thread and pending bit equal those after completing the wait, serving the checkpoint and switching, and it switches from idle to the woken thread |
| `SchedTimer.DeclinedWakeUnchanged` | kernel/src/sched/transition.rs:445-498 | when the direct idle wake answers None it has changed nothing |
| `SchedTimer.TimerInterruptIsQueued` | kernel/src/sched/preempt.rs:224-305 | for every batch on an online CPU the timer interrupt, with its direct path, ends in the state of the queued path alone |
| `SchedTimer.DispatchAll` | kernel/src/sched/preempt.rs:249-290 | completing a whole batch keeps the invariant, moves no current thread, appends to ready queues without reordering them, and leaves no running thread with a newly prepared wait |
| `SchedAttention.RunAttended` | kernel/src/sched/preempt.rs:416-421 | in every state of every run, a CPU that runs idle beside a queued thread has a pending reschedule request, and one with a retired thread has a pending IPI |
| `SchedAttention.StepAttended` | kernel/src/sched/transition.rs:581-631 | every operation keeps that |
| `SchedAttention.EntryServes` | kernel/src/sched/preempt.rs:204-321 | in every run, an IPI, a timer interrupt or a preemption point on an online CPU with preemption enabled never leaves idle running beside a queued thread |
| `SchedAttention.IpiServes` | kernel/src/sched/preempt.rs:204-222 | the IPI finds the ready queue followed by the ingress in order; with preemption enabled it runs the front of that line and requeues a preempted thread at the back, under a guard it leaves a request |
| `SchedAttention.TimerServes` | kernel/src/sched/preempt.rs:224-305 | an expired quantum of the running thread, with preemption enabled and a queued peer, hands over to the queue front; idle is not left running beside work |
| `SchedAttention.TimerQueuedServes` | kernel/src/sched/preempt.rs:269-290 | the same for the queued path; a batch that asks for no switch interrupts no thread but idle |
| `SchedAttention.PreemptServes` | kernel/src/sched/preempt.rs:307-321 | a preemption point hands over to the queue front when a switch was requested, and otherwise does nothing after retirement |
| `SchedAttention.CheckpointServes` | kernel/src/sched/transition.rs:426-443 | a due checkpoint runs the queue front, requeues the preempted thread behind all others and consumes the request |
| `SchedAttention.StepTracks` | kernel/src/sched/transition.rs:581-631 | a CPU switches only at its own step, online and at guard depth zero; its ingress grows at the back until its own IPI; without a switch the first queued thread brings a request and a request for queued threads stays |
| `SchedAttention.GuardHolds` | kernel/src/sync/preempt.rs:49-110 | in every run the guard depth counts the guards, and while one is held the CPU keeps its running thread |
| `SchedHistory.StepMoves` | kernel/src/sched/transition.rs:426-528 | one step never lowers a slot sequence, never reorders a ready queue, and finalizes a retired thread only at an entry on its own CPU |
| `SchedHistory.RoundRobin` | kernel/src/sched/transition.rs:426-443 | in every run the thread at position p of a ready queue is the one that handoff number p on that CPU selects, and before that it has advanced by exactly the number of handoffs, whatever is woken, spawned or drained meanwhile |
| `SchedHistory.RetiredSlotHeld` | kernel/src/sched/transition.rs:687-753 | between exit and the next scheduler entry on its own CPU an exited thread stays live with its code and resources, its stack is not parked and its slot not free |
| `SchedHistory.SequenceMonotone` | kernel/src/sched/transition.rs:143-157 | the wait sequence of a slot never decreases over any run, across release and reuse |
| `SchedHistory.TokensUnique` | kernel/src/sched/wait.rs:218-242 | no wait token is issued twice in any run, across release, slot reuse and generation wrap |
| `SchedEstates.DeliverMoves` | kernel/src/sched/transition.rs:789-804 | finalizing a joined thread gives exactly its code and user resources to its joiner, which becomes ready, and frees the thread |
| `SchedEstates.StepConserves` | kernel/src/sched/thread.rs:602-714 | each step conserves every exit estate (code with user resources): held before plus left by an exit equals held after plus taken by a joiner plus forgotten with a detached thread |
| `SchedEstates.ExitsConserved` | kernel/src/sched/thread.rs:602-714 | over every run each exit is held, taken by one joiner once, or forgotten; an estate with user resources is never forgotten |
| `SchedEstates.DroppedOwnsNothing` | kernel/src/sched/transition.rs:695-726 | a thread dropped at retirement without a joiner owns no user resources |
| `SchedQuiet.StepQuiet` | kernel/src/sched/transition.rs:464-683 | apart from birth, exit, join and exec, a step changes no identity, home, resource or exit data of any thread and switches no other CPU and no offline one |
| `SchedJoins.JoinIsOutcome` | kernel/src/sched/thread.rs:627-697 | after retirement, each join error is reported if and only if its condition holds; a reapable target yields its code and resources and its slot is free; otherwise the caller is blocked and recorded as the joiner |
| `SchedJoins.NoLostJoin` | kernel/src/sched/transition.rs:695-726 | in every run a thread blocked in a join stays recorded with its target and blocked, until a step retires the target and hands over its exit code and resources |
| `SchedJoins.StepJoin` | kernel/src/sched/transition.rs:695-753 | a thread with a joiner keeps it, unless the step retires the thread and answers the joiner |
| `SchedJoins.SpawnBirth` | kernel/src/sched/transition.rs:347-413 | a spawn publishes one ready thread with the home, resources and joinability given, in a free slot, under an identity other than the last one of the slot and never of generation 0; other slots are unchanged |
| `SchedJoins.StepIdentities` | kernel/src/sched/transition.rs:1300-1303 | the identity of a slot changes only when a thread is born in it |
| `SchedulerImpl.Scheduler.Bootstrap` | kernel/src/sched/transition.rs:174-280 | boot succeeds iff the threads and one idle per CPU fit, establishes the invariant, runs the first static thread and queues the others in order |
| `SchedulerImpl.Scheduler.FillFreeSlots` | kernel/src/sched/transition.rs:197-204 | fills the table with free slots up to its capacity and keeps the invariant and the occupied part |
| `SchedulerImpl.Scheduler.InitializeIdleCurrent` | kernel/src/sched/transition.rs:216-230 | takes a free slot for the idle thread of a CPU and dispatches it, or changes nothing |
| `SchedulerImpl.Scheduler.InitialDispatch` | kernel/src/sched/transition.rs:415-424 | first dispatch of a CPU, refused without change when a thread is current |
| `SchedulerImpl.Scheduler.SpawnThread` | kernel/src/sched/thread.rs:497-524 | kernel threads: finalizes the retired thread first, then publishes a ready thread exactly when a slot is free and the home CPU is online |
| `SchedulerImpl.Scheduler.Spawn` | kernel/src/sched/thread.rs:526-564 | user threads: publishes a ready thread exactly when a slot is free and the home CPU is online; the state is that of SpawnOn |
| `SchedulerImpl.Scheduler.Publish` | kernel/src/sched/transition.rs:347-413 | statement-by-statement publication writes one slot and one queue entry, with every guard of the source proved |
| `SchedulerImpl.Scheduler.OptionalSwitch` | kernel/src/sched/transition.rs:426-443 | refines the simultaneous handoff to the queue front, or continues when no peer is queued |
| `SchedulerImpl.Scheduler.TimedWakeFromIdle` | kernel/src/sched/transition.rs:464-498 | refines the direct idle wake, including the state left when it declines |
| `SchedulerImpl.Scheduler.CommitWait` | kernel/src/sched/transition.rs:500-528 | refines the commit: block and hand over, or consume an early completion |
| `SchedulerImpl.Scheduler.PrepareWait` | kernel/src/sched/transition.rs:530-544 | issues the next token of the current thread and keeps the invariant |
| `SchedulerImpl.Scheduler.CompleteWait` | kernel/src/sched/transition.rs:581-616 | refines completion by exact token: stale, duplicate, early or waking |
| `SchedulerImpl.Scheduler.FinishWait` | kernel/src/sched/transition.rs:650-665 | refines finish for the current thread of its home CPU, stale otherwise |
| `SchedulerImpl.Scheduler.CancelWait` | kernel/src/sched/transition.rs:667-683 | refines cancel for the current thread of its home CPU, stale otherwise |
| `SchedulerImpl.Scheduler.PublishRemoteReady` | kernel/src/sched/transition.rs:618-631 | appends to the remote ingress and marks the IPI pending |
| `SchedulerImpl.Scheduler.ReadyPushBack` | kernel/src/sched/transition.rs:818-840 | appends one thread to its home queue; idle, foreign and duplicate entries and overflow are excluded |
| `SchedulerImpl.Scheduler.ReadyPopFront` | kernel/src/sched/transition.rs:842-852 | takes the front of the queue, or nothing from an empty one |
| `SchedulerImpl.Scheduler.MakeReadyAndQueue` | kernel/src/sched/transition.rs:876-888 | marks a thread ready and queues it unless it is the idle thread, requesting a checkpoint for the first local peer |
| `SchedulerImpl.Scheduler.ConsumeSchedulerIpi` | kernel/src/sched/transition.rs:854-874 | the loop drains the whole ingress in order behind the local queue and clears the IPI |
| `SchedulerImpl.Scheduler.FinalizeRetired` | kernel/src/sched/transition.rs:695-726 | refines retirement: deliver to the joiner, drop, or keep for a later join; its panics are unreachable |
| `SchedulerImpl.Scheduler.CompleteJoiner` | kernel/src/sched/transition.rs:789-804 | completes a blocked joiner and stores the code; the completion always wakes it |
| `SchedulerImpl.Scheduler.SetReapedUser` | kernel/src/sched/transition.rs:1016-1030 | stores the reaped resources of a thread that has none |
| `SchedulerImpl.Scheduler.Release` | kernel/src/sched/transition.rs:143-157 | frees the slot, keeps its wait sequence and returns the resources |
| `SchedulerImpl.Scheduler.ExitCurrent` | kernel/src/sched/transition.rs:728-753 | refines exit: the next thread runs and the exited one is retired, not freed |
| `SchedulerImpl.Scheduler.ExitThread` | kernel/src/sched/thread.rs:602-625 | finalizes the previous retired thread, then exits the current one |
| `SchedulerImpl.Scheduler.JoinThread` | kernel/src/sched/thread.rs:627-697 | refines join, and each error result holds if and only if its condition on the state after retirement does; otherwise immediate reap, or publish the joiner and block |
| `SchedulerImpl.Scheduler.JoinReap` | kernel/src/sched/transition.rs:757-782 | reaps an exited thread: its code and resources go to the caller and its slot is freed |
| `SchedulerImpl.Scheduler.TakeCurrentJoinResult` | kernel/src/sched/thread.rs:703-714 | takes the stored result and resources once |
| `SchedulerImpl.Scheduler.FinishSchedulerIpi` | kernel/src/sched/preempt.rs:204-222 | refines the scheduler IPI |
| `SchedulerImpl.Scheduler.PreemptCheckpoint` | kernel/src/sched/preempt.rs:307-321 | refines the preemption checkpoint |
| `SchedulerImpl.Scheduler.ConsumeCheckpoint` | kernel/src/sync/preempt.rs:95-101 | consumes a request exactly when the CPU is online at depth zero with a request pending |
| `SchedulerImpl.Scheduler.CommitPreparedWait` | kernel/src/sched/wait.rs:505-530 | refines the commit with its handoff |
| `SchedulerImpl.Scheduler.FinishTimerInterrupt` | kernel/src/sched/preempt.rs:224-305 | refines the timer interrupt: retirement, direct wake or batch, one checkpoint |
| `SchedulerImpl.Scheduler.DispatchBatch` | kernel/src/sched/preempt.rs:249-290 | the loop over the batch equals the fold over its events |
| `SchedulerImpl.ReapChecks` | kernel/src/sched/transition.rs:757-778 | the guards of the reap hold for every exited thread: not idle, not current, not queued, no active wait |
| `MailboxProtocol.StepInv` | kernel/src/ipc.rs:99-191 | every step of any thread (attempt, decide, register, commit, timeout, finish, remove, claim, complete, reclaim, or anything elsewhere) keeps the mailbox invariant |
| `MailboxProtocol.RunInv` | kernel/src/ipc.rs:99-191 | the mailbox invariant holds in every state of every run |
| `MailboxProtocol.WakeupsCovered` | kernel/src/ipc.rs:240-250 | while a waiter of a side is registered, the messages (or free places) it waits for are at most the threads of that side notified and not yet retried plus the claims in flight |
| `MailboxProtocol.NoLostWakeup` | kernel/src/ipc.rs:365-403 | at quiescence a sleeping receiver implies an empty mailbox and a sleeping sender a full one |
| `MailboxProtocol.NoMutualSleep` | kernel/src/ipc.rs:365-403 | at quiescence senders and receivers never sleep together |
| `MailboxProtocol.FirstInFirstOut` | kernel/src/ipc.rs:99-139 | in every state of every run, sent equals received followed by the buffer, and the buffer respects its capacity |
| `MailboxOrder.FirstWaiterFirst` | kernel/src/ipc.rs:303-315 | in every run, if one waiter of a side registered before another, the later one is claimed only after the earlier has been claimed or has given up |
| `MailboxOrder.ClaimedInOrder` | kernel/src/ipc.rs:313-315 | while a waiter that stands before another is still queued, no step claims the other |
| `MailboxOrder.StepQueue` | kernel/src/ipc.rs:303-325 | a step appends its own fresh token to a waiter queue, or claims the front, or takes its own token out, or leaves the queue alone |
| `MailboxCalls.ForeverSucceeds` | kernel/src/ipc.rs:141-160 | in every run a blocking send or receive without deadline leaves its call only by sending its message or receiving the oldest one |
| `MailboxCalls.CallStep` | kernel/src/ipc.rs:162-190 | a call goes on with its request, succeeds, or gives up without a trace, which only non-blocking and timed calls do; a timed-out wait gives up, a notified one retries, an expired one does not sleep |
| `MailboxProtocol.WaitsNeverStale` | kernel/src/ipc.rs:365-403 | a prepared mailbox wait never commits stale and a resumed one always finds its completion |
| `MailboxProtocol.WaiterQueueBounded` | kernel/src/ipc.rs:303-312 | a thread that is not registered has no token in either waiter queue, and each queue is shorter than the number of threads, so a waiter capacity of one place per thread is never exceeded |
| `MailboxProtocol.Progress` | kernel/src/ipc.rs:141-191 | a thread inside a mailbox call that is not asleep with a pending wait can always take a step |
| `MailboxProtocol.ReceiverSleeps` | kernel/src/ipc.rs:153-160 | there is a run that ends quiescent with a receiver asleep, so the theorems about sleepers are not empty |
| `MailboxImpl.Mailbox.TrySend` | kernel/src/ipc.rs:99-115 | puts the message at the back of the ring exactly when it is not full and claims the first receive waiter |
| `MailboxImpl.Mailbox.TryRecv` | kernel/src/ipc.rs:117-139 | takes the message at the front of the ring exactly when there is one and claims the first send waiter |
| `MailboxImpl.Mailbox.ClaimWaiter` | kernel/src/ipc.rs:313-315 | takes the oldest waiter of a side |
| `MailboxImpl.Mailbox.EnqueueWaiter` | kernel/src/ipc.rs:303-312 | appends a token that is not yet registered |
| `MailboxImpl.Mailbox.RemoveWaiter` | kernel/src/ipc.rs:316-323 | removes a token at its position, keeping the order of the others, and tells whether it was there |
| `TimeConvert.Galois` | kernel/src/time.rs:866-915 | for every counter, frequency and valid time: the exact deadline is reached iff the time is, and conversion gives normalised nanoseconds |
| `TimeConvert.ToCounterExact` | kernel/src/time.rs:882-915 | the 64-bit shortcut equals the wide formula; Overflow exactly when the exact result exceeds u64 or the nanoseconds are invalid, InvalidFrequency exactly for zero |
| `TimeConvert.SleepExact` | kernel/src/time.rs:882-910 | a representable deadline is the least counter at which the requested time has come |
| `DeadlineOrder.OwnedTotal` | kernel/src/time.rs:113-123 | the heap order is total on the events of one CPU: equal keys are the same event |
| `DeadlineOrder.RootLeast` | kernel/src/time.rs:254-267 | the root of a heap is at most every entry |
| `DeadlineQueues.DeadlineQueue.Schedule` | kernel/src/time.rs:145-164 | refines a map update, inserting or moving an event either way, and keeps heap order and uniqueness |
| `DeadlineQueues.DeadlineQueue.Cancel` | kernel/src/time.rs:166-173 | refines removal from the map and tells whether the event was queued |
| `DeadlineQueues.DeadlineQueue.PopExpired` | kernel/src/time.rs:179-192 | takes the least event by deadline and sort key if it is due; otherwise nothing in the queue is due |
| `DeadlineQueues.DeadlineQueue.NextDeadline` | kernel/src/time.rs:194-196 | the least deadline of the map |
| `DeadlineQueues.DeadlineQueue.RemoveAt` | kernel/src/time.rs:202-219 | removes one entry and restores the heap in the direction needed |
| `DeadlineQueues.DeadlineQueue.SiftUp` | kernel/src/time.rs:221-230 | restores the heap upwards without changing the represented map |
| `DeadlineQueues.DeadlineQueue.SiftDown` | kernel/src/time.rs:232-252 | restores the heap downwards without changing the represented map |
| `DeadlineQueues.EarliestOfHeap` | kernel/src/time.rs:194-196 | the root deadline of any heap that refines a map is the least deadline of that map |
| `TimerState.DoNeverLate` | kernel/src/time.rs:361-419 | each timer operation keeps the armed deadline at or before the earliest queued one whenever no batch is being dispatched |
| `TimerState.TimerNeverLate` | kernel/src/time.rs:634-695 | the timer is never armed late over any mix of schedules, sleeps, local and remote cancels and interrupt batches |
| `TimerState.BatchUnique` | kernel/src/time.rs:390-403 | the expired batch is determined by the map alone, not by insertion history |
| `TimerTrace.QueuedExactly` | kernel/src/time.rs:361-403 | in every run an event is queued with a deadline exactly when some step set it so and none has set or dropped it since: no sleep is lost and nothing cancelled comes back |
| `TimerTrace.DeliveredExactly` | kernel/src/time.rs:390-403 | an interrupt delivers an event exactly when it was set, not dropped since, and its deadline has come |
| `TimerTrace.StepTrace` | kernel/src/time.rs:634-772 | each operation, seen from one event: it sets it, drops it or leaves its deadline alone |
| `TimerTrace.SleepReplacesQuantum` | kernel/src/time.rs:365-374 | after a sleep its wait deadline is queued, the quantum of its thread is gone and every other event is as before |
| `TimerTrace.ArmedExactly` | kernel/src/time.rs:405-419 | after every schedule, sleep, effective local cancel or end of interrupt, outside a dispatch, the timer is armed exactly at the earliest deadline, or disarmed if there is none |
| `TimerTrace.BatchOrder` | kernel/src/time.rs:113-123 | a batch is in order of deadline; on a tie waits come before quanta, in order of thread index, generation and sequence |
| `TimeImpl.ExpiredEvents.Push` | kernel/src/time.rs:308-315 | appends to the bounded buffer |
| `TimeImpl.TimeState.TakeExpired` | kernel/src/time.rs:390-403 | the batch is exactly the due events in deadline and key order, always fits the buffer, and leaves exactly the others |
| `TimeImpl.TimeState.PublishSleep` | kernel/src/time.rs:365-374 | queues the wait deadline of the token, removes the quantum of its thread, and rearms once |
| `TimeImpl.TimeState.ScheduleEvent` | kernel/src/time.rs:361-363 | refines scheduling with rearm |
| `TimeImpl.TimeState.CancelEvent` | kernel/src/time.rs:376-384 | refines local and remote cancellation; a remote one leaves the timer alone |
| `TimeImpl.TimeState.FinishInterrupt` | kernel/src/time.rs:735-775 | returns the buffer, applies the quantum intent and rearms |
| `FrameList.ListIsSet` | kernel/src/memory/frame_alloc.rs:238-274 | two strictly increasing lists with the same members are equal: the list represents a set |
| `FrameList.RunLength` | kernel/src/memory/frame_alloc.rs:182-232 | a page-aligned range holds end / page - start / page frames |
| `FrameAlloc.FrameAllocator.InitFromRanges` | kernel/src/memory/frame_alloc.rs:56-69 | links exactly the page-aligned frames covered by the ranges, in increasing order, with matching counters |
| `FrameAlloc.FrameAllocator.AllocFrame` | kernel/src/memory/frame_alloc.rs:71-78 | takes the lowest free frame; None exactly when none is free; free and live frames still partition the usable set |
| `FrameAlloc.FrameAllocator.AllocContiguousAligned` | kernel/src/memory/frame_alloc.rs:88-164 | takes the lowest aligned run of free frames and nothing else; None only for invalid arguments or when no such run exists |
| `FrameAlloc.FrameAllocator.AllocContiguous` | kernel/src/memory/frame_alloc.rs:80-86 | page-aligned runs: None exactly for zero frames or when no run exists |
| `FrameAlloc.FrameAllocator.FindRun` | kernel/src/memory/frame_alloc.rs:88-164 | the walk finds the first suitable run with its neighbours, or proves there is none |
| `FrameAlloc.FrameAllocator.FreeContiguous` | kernel/src/memory/frame_alloc.rs:182-232 | returns a held range: exactly its frames move from live to free and the list stays sorted |
| `FrameAlloc.FrameAllocator.FreeFrame` | kernel/src/memory/frame_alloc.rs:166-180 | returns one held frame |
| `FrameAlloc.FrameAllocator.InsertFrameSorted` | kernel/src/memory/frame_alloc.rs:238-274 | links one frame at its place in the sorted list |
| `FrameAlloc.RunIsLowest` | kernel/src/memory/frame_alloc.rs:88-164 | the first suitable run of the list is the lowest aligned run of the set |
| `BootMap.SortRanges` | kernel/src/memory/map.rs:177-189 | sorts by start in place, a permutation |
| `BootMap.MergeRanges` | kernel/src/memory/map.rs:191-209 | merges touching neighbours in place |
| `BootMap.MergedCovers` | kernel/src/memory/map.rs:191-209 | merging sorted ranges neither gains nor loses a byte, also with empty or inverted ranges |
| `BootMap.MergedApart` | kernel/src/memory/map.rs:191-209 | merging sorted nonempty ranges leaves a gap between any two |
| `BootMap.BootTables.PushUsableFrameRange` | kernel/src/memory/map.rs:150-174 | adds the whole pages of a byte range, growing the last range when it reaches them |
| `BootMap.BootTables.ScanRam` | kernel/src/memory/map.rs:48-118 | one RAM range adds exactly its usable pages |
| `BootMap.BootTables.BuildMemoryMap` | kernel/src/memory/map.rs:48-118 | on success a page is listed iff it lies wholly in one RAM range and touches no reserved byte, in sorted, disjoint, page-aligned ranges; NoUsableRam only when there is no such page |
| `BootMap.BuildFromBoot` | kernel/src/memory/mod.rs:203-247 | for ranges in any order, overlapping or not: on success a page is listed iff it lies wholly in one RAM range and touches no reserved byte, in ranges as allocator initialisation needs them; NoUsableRam only when there is no such page |
| `VmRoots.StepKeepsVm` | kernel/src/sched/preempt.rs:383-410 | every scheduler step with its address-space switch keeps: installed roots are owned, unique per CPU and match the current thread |
| `VmRoots.BootVm` | kernel/src/memory/vm.rs:20-36 | a booted scheduler without user threads, with no root installed anywhere, satisfies the address-space invariant |
| `VmRoots.RunKeepsVm` | kernel/src/memory/vm.rs:589-680 | the address-space invariant holds over every run of steps and destructions |
| `VmRoots.UsercopyExact` | kernel/src/memory/vm.rs:30-36 | on every online CPU usercopy names exactly the address space of the current thread, or none |
| `VmRoots.ActivateExclusive` | kernel/src/memory/vm.rs:622-647 | for any records: activation is refused exactly for a foreign root or one installed on another CPU, otherwise makes it usable here and touches no other CPU; no root gets installed twice; idle keeps the installed root without access |
| `VmRoots.DestroyedNowhereInstalled` | kernel/src/memory/vm.rs:393-403 | a root that reaches destruction after join or exec is installed on no CPU, also when its address is reused later |
| `VmRoots.ExitedRootDetached` | kernel/src/sched/thread.rs:602-625 | the root of an exited thread is installed nowhere |
| `VmImpl.AddressSpaces.ActivateUser` | kernel/src/memory/vm.rs:622-647 | installs the root unless another CPU has it or it belongs to another CPU; unchanged on error |
| `VmImpl.AddressSpaces.RetainForIdle` | kernel/src/memory/vm.rs:589-595 | keeps the root installed and withdraws user access |
| `VmImpl.AddressSpaces.ClearUser` | kernel/src/memory/vm.rs:668-680 | uninstalls the root and withdraws user access |
| `VmImpl.AddressSpaces.ForUsercopy` | kernel/src/memory/vm.rs:30-36 | the root that usercopy may use |
| `VmImpl.AddressSpaces.Destroy` | kernel/src/memory/vm.rs:393-403 | refused exactly when some CPU has the root installed |
| `ProcessProtocol.StepInv` | kernel/src/process/wait.rs:52-165 | every step of exit, waitpid, join, spawn and thread reuse keeps the process invariant |
| `ProcessProtocol.RunInv` | kernel/src/process/wait.rs:52-165 | the process invariant holds in every state of every run |
| `ProcessProtocol.ConsumedOnce` | kernel/src/process/lifecycle.rs:137-162 | each terminal status that was produced is still in the table or has been consumed exactly once |
| `ProcessProtocol.NoLostChild` | kernel/src/process/lifecycle.rs:64-110 | a parent asleep in waitpid whose child has finished has a notification under way |
| `ProcessProtocol.WaitNeverPanics` | kernel/src/process/wait.rs:78-114 | finish_wait never finds an uncompleted wait, the commit is never stale, a restarted waitpid finds its child finished |
| `ProcessProtocol.WaitPathFacts` | kernel/src/process/wait.rs:117-165 | a restarted waitpid takes the status with its own token; a first call finds no waiter of its own |
| `ProcessParents.WaitStep` | kernel/src/process/wait.rs:117-165 | waitpid takes a status exactly when the child is the caller process own, unclaimed and finished; for another child it changes nothing; a running own child gets the caller as consumer and waiter |
| `ProcessParents.ConsumedByRightful` | kernel/src/process/wait.rs:117-165 | in every run a status is taken only by waitpid of the parent or by the claimant of process_join |
| `ProcessParents.StrangerChangesNothing` | kernel/src/process/wait.rs:126-128 | in every run a waitpid by any other process leaves the table and what was taken as they were |
| `ProcessParents.ParentFixed` | kernel/src/process/table.rs:167-194 | in every run a process keeps the parent it was allocated with as long as it exists |
| `ProcessParents.FreshPid` | kernel/src/process/table.rs:167-194 | in every run an allocated process exists under its new identity with the given parent; the identity is never of generation 0 and differs from the last one of its slot |
| `ProcessProtocol.ReverseIndexExact` | kernel/src/process/table.rs:65-156 | the reverse entry of a live thread names its process, that of a free thread slot is empty, and unbinding finds its own entry |
| `ProcessProtocol.ReclaimKeepsOwners` | kernel/src/process/table.rs:132-156 | reclaiming a finished process erases no reverse entry of a newer owner |
| `ProcessJoins.TakenIsDelivered` | kernel/src/process/wait.rs:84-96 | in every run a thread that joins the main thread of a process it waited for or claimed finds it running or exited, never gone and never itself, and no other thread is about to join it: the join cannot fail |
| `ProcessJoins.ClaimIsDelivered` | kernel/src/process/lifecycle.rs:22-39 | once process_join has joined the main thread, the status it claimed is there for it |
| `ProcessJoins.StepRights` | kernel/src/process/wait.rs:84-115 | every step keeps: the right to join a finished main thread has one holder, its process or the thread that took its status |
| `ProcessImpl.ProcessStore.ProcessForThread` | kernel/src/process/table.rs:65-74 | returns the process whose main thread it is |
| `ProcessImpl.ProcessStore.BindMainThread` | kernel/src/process/table.rs:76-113 | binds process and thread both ways |
| `ProcessImpl.ProcessStore.UnbindMainThread` | kernel/src/process/table.rs:115-130 | clears the reverse entry only |
| `ProcessImpl.ProcessStore.ReleaseSlot` | kernel/src/process/table.rs:132-156 | frees the slot under the new generation and leaves a foreign reverse entry alone |
| `ProcessImpl.ProcessStore.AllocateProcessSlot` | kernel/src/process/table.rs:167-194 | takes the first free slot, or reports that there is none |
| `ProcessImpl.ProcessStore.FinishProcess` | kernel/src/process/lifecycle.rs:96-110 | records the status once and returns the waiter to complete |
| `ProcessImpl.ProcessStore.PrepareWaitChild` | kernel/src/process/wait.rs:117-165 | takes the status and frees the slot if and only if the old record is a finished child of the caller process that no other thread has claimed or waits for; registers a waiter when such a child still runs; refuses otherwise, unchanged when the parent is another |
| `ProcessImpl.ProcessStore.ClaimProcessConsumer` | kernel/src/process/lifecycle.rs:112-130 | one caller claims a process; the error says why not |
| `ProcessImpl.ProcessStore.ConsumeProcessForJoin` | kernel/src/process/lifecycle.rs:137-162 | the claimant takes the status and frees the slot; the error says why not |
| `Console.StepInv` | kernel/src/console.rs:221-248 | every step of every writer and drainer keeps the console invariant |
| `Console.BytesInv` | kernel/src/console.rs:221-248 | no byte is lost, duplicated or reordered between acceptance, queue, chunk in flight and device |
| `Console.AcceptedExactly` | kernel/src/console.rs:152-162 | a message is accepted whole exactly when it fits; a rejected one leaves nothing |
| `Console.HoldersInv` | kernel/src/console.rs:221-248 | the draining flag has exactly one holder, and a nonempty queue has a writer that has not returned |
| `Console.OutputIsPrefix` | kernel/src/console.rs:272-313 | device output is always the expansion of a prefix of the accepted messages in acceptance order |
| `Console.NothingStranded` | kernel/src/console.rs:221-248 | once every writer has returned, the queue is empty and every accepted byte is out |
| `Console.StepLowersWork` | kernel/src/console.rs:221-248 | every step other than a new message lowers a measure of bytes queued, bytes in flight and positions of the writers |
| `Console.DrainEnds` | kernel/src/console.rs:221-248 | from the last message on a run takes no more steps than the work it started with, and a run that cannot go on has written every accepted byte |
| `Console.ConsoleTx.Push` | kernel/src/console.rs:152-162 | queues all bytes or none |
| `Console.ConsoleTx.PopChunk` | kernel/src/console.rs:164-172 | takes up to one chunk from the front |
| `Console.ConsoleTx.TryWriteFragments` | kernel/src/console.rs:290-313 | a formatted message enters whole or is rolled back without a trace, exactly by whether it fits |
| `UserStack.StackImage.BuildInitialUserStack` | kernel/src/process/image.rs:102-139 | succeeds iff the image fits; the stack pointer is 16-byte aligned inside the stack, the table lies below the strings, and reading it back gives exactly the NUL-free arguments |
| `UserStack.LoadedReads` | kernel/src/process/image.rs:102-202 | reading argc, argv and envp from a loaded stack recovers them |
| `UserStack.StackImage.PushCstr` | kernel/src/process/image.rs:141-154 | places one terminated string below the others |
| `UserStack.StackImage.WriteBytes` | kernel/src/process/image.rs:156-185 | writes bytes and leaves the rest of the stack alone |
| `UserStack.EncodeDecode` | kernel/src/process/image.rs:187-194 | little-endian words round trip |
| `UserStack.ExecArgs.Push` | kernel/src/process/image.rs:43-82 | accepts a string exactly when strings and table stay within the budget; a refusal changes nothing |
| `UserStack.FitsExactly` | kernel/src/process/image.rs:102-139 | the stack is built iff strings and table, each rounded up to 16 bytes, fit the stack |
| `UserStack.BudgetAdmitsMore` | kernel/src/process/image.rs:204-207 | counterexample: the budget ignores the rounding, so it admits two arguments, one after the other, for which the stack cannot be built |
| `PathImpl.ResolveExistingPath` | kernel/src/fs/path.rs:68-149 | equals the component-by-component walk from every valid working directory, with the node found by lookup; the directory flag is set exactly by trailing syntax, read off the bytes, and then the node is a directory; InvalidBase only for a relative input with an invalid base |
| `PathImpl.ParentDir` | kernel/src/fs/path.rs:151-166 | the directory above, which always exists |
| `PathImpl.AppendComponent` | kernel/src/fs/path.rs:177-194 | appends a component, or reports that the path would be too long |
| `PathWalk.ResolvePlace` | kernel/src/fs/path.rs:68-149 | a result is canonical, within the length limit and names an existing node; a failure never blames the base |
| `PathWalk.ResolveIdempotent` | kernel/src/fs/path.rs:68-149 | resolving the path of any place gives that place again, from any directory |
| `PathWalk.ResolvedStable` | kernel/src/fs/path.rs:68-149 | resolving a result again, from anywhere, gives the same path and the same kind of node |
| `PathLaws.PathLaw` | kernel/src/fs/path.rs:110-138 | a longer path is resolved from the directory its first part leads to |
| `PathLaws.DotLaws` | kernel/src/fs/path.rs:117-127 | dot stays, dot-dot goes to the directory above, and the root is above itself |
| `PathLaws.NameLaw` | kernel/src/fs/path.rs:129-137 | a name leads to the entry of that name, or fails because it is missing or its path too long |
| `PathLaws.AbsoluteLaw` | kernel/src/fs/path.rs:74-80 | a leading slash starts at the root, whatever the working directory |
| `PathLaws.TrailingSlashLaw` | kernel/src/fs/path.rs:104-142 | a trailing slash keeps directories and errors and turns a file into NotDirectory |
| `PathLaws.TrailingSyntax` | kernel/src/fs/path.rs:100-105 | a directory is asked for exactly when the bytes end in a slash or their last component is dot or dot-dot |
| `Paths.JoinInjective` | kernel/src/fs/initramfs.rs:109-138 | a canonical path determines its components |
| `RamfsMount.CanonicalArchivePath` | kernel/src/fs/initramfs.rs:109-138 | accepts a name iff all its components are names, and then gives a slash followed by the name, which is canonical |
| `RamfsMount.MountArchive` | kernel/src/fs/initramfs.rs:44-93 | the first unacceptable entry decides the error; otherwise the archive is mounted iff it has /init and no file above another entry, as a closed index of exactly its files |
| `RamfsIndex.MountIndex` | kernel/src/fs/ramfs.rs:83-125 | mounts iff no path is given twice and no file is also a directory; the directories are exactly the root, the given ones and those above a given path |
| `RamfsIndex.ClosedIndex` | kernel/src/fs/ramfs.rs:83-125 | the listed directories with the files are canonical, distinct and closed under parents |
| `RamfsIndex.PushParentDirs` | kernel/src/fs/ramfs.rs:393-405 | the cursor pushes exactly the directories above a path |
| `RamfsIndex.RejectDuplicates` | kernel/src/fs/ramfs.rs:422-438 | on sorted paths comparing neighbours decides whether any path occurs twice |
| `RamfsIndex.PopulateDirEntries` | kernel/src/fs/ramfs.rs:127-163 | every directory lists each of its children once, under its name and inode, in name order; none of its errors can occur |

## Left out

- Registers, trap frames, assembly and page-table formats: foreign hardware.
- Memory ordering and fairness of the spin locks: a locked section is one step.
- ELF, CPIO and device-tree parsing, and the heap allocator: external crates.
- System call dispatch, errno values, power, logging and the profile and test features: easy plumbing.
- Quantum upkeep (ensure_quantum_event): the scheduler model takes the batch as given, and the timer model takes the quantum intent as given, so the direct wake is compared with the queued path in everything but that intent.
- Standard input, emergency console output and user programs: easier than the output path.
- Region classification in the boot map: only the usable list feeds the allocator; the region table is filled but nothing is claimed about it.
- BootMap.BootTables.BuildMemoryMap: does not say for which inputs a table is full or an address cannot be aligned; it states what success and NoUsableRam mean.
- ProcessImpl.ProcessStore.BindMainThread: does not carry the address space and owner CPU that the source compares before it binds; that a user thread and its address space share the home CPU is part of the scheduler invariant.
- ProcessImpl.ProcessStore.PrepareWaitChild: joins its refusals in one case, since all of them report ECHILD.
- DeadlineQueues.DeadlineQueue.Schedule: requires room for a new event, where the source panics; that two timed events per thread suffice (TIMED_EVENT_CAPACITY_PER_THREAD) depends on callers in several subsystems and is not proved.
- RamfsMount.MountArchive: takes the archive as a list of entries; magic, trailer and a second mount are not modelled.
- RamfsIndex.MountIndex: file contents are not carried, since only paths decide the index.
- MailboxProtocol.Progress: states that a step is enabled, not that it is eventually taken; no fairness is modelled.
- Blocking send and receive loops of the mailbox and the drain loop of the console appear as protocol steps, not as methods.
- Destruction of a root in the middle of page-table edits: mapping and unmapping are not modelled.
