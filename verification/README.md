# MARTOS kernel: a verified model

MARTOS is a small preemptive kernel for one processor: tasks with priorities, signals that a
task can block on, a sorted queue of timers, counting semaphores and message ports, all on one
intrusive doubly linked list. This project models the kernel in two layers and proves what it
guarantees.

**Objects.** `linked_lists.dfy` is list.c on nodes with real `next` and `prev` fields, each
operation proved against the sequence of nodes. On top of it stand the kernel's globals and tasks
(`task_lists.dfy`, `kernel.dfy`), the timer queue (`timers.dfy`), the semaphore
(`semaphore_objects.dfy`) and the message port (`msgport_objects.dfy`), as classes whose methods
change fields and links in place. Signals are 16-bit words here; `signal_words.dfy` shows that the
word operations are set operations. A method is one region that nothing can interrupt. Its
contract says that the abstract state changes by the specification function of that region.

**The machine.** `scheduler.dfy` holds those functions for the scheduler, `machine.dfy` the state
of the whole kernel and its actions: every task-level region between `disable()` and `enable()`,
and the handlers TIM2, SysTick and PendSV, which are enabled when `id_nestcnt < 0`. A task that
is inside a kernel call remembers where it is, so that `signal_wait`, `sem_wait`, `msgport_wait`,
`timer_add` and `timer_delay` interleave with the other tasks and the interrupts at each point
where the code enables them. This includes the window of `signal_wait` in which the running task is
already queued as waiting. A pended PendSV is taken before the next task-level region, and
`enable(); reschedule();` at the end of `task_schedule` is one region. A run is any sequence of
enabled actions from the state that `martos_pre` leaves; the main results hold over all runs.
`refinement.dfy` connects the layers: in every reachable state the methods' preconditions hold,
and what they do is the machine's step.

## What a run may do

`Machine.Reachable` covers all sequences of actions under these provisos, which the code relies
on:

- The assertions in the code hold where they are reached: `task_schedule` gets an initialized
  task, `signal_free` gets allocated signals without SIGF_SINGLE, a new timer or port finds a free
  signal, `sem_signal` finds a request with a signal and another task as its waiter.
  `Messaging.AssertionHoldsExactly` and `AssertionCannotFail` show when the request is always found.
- The init task never waits (note at `user_init`, include/martos/martos.h:345-346).
- A timer is aborted at most once before it is freed, because `timer_abort` leaves the status
  TIMER_ADDED, and is freed only when it is not in the queue. It is added and freed by its owner.
- Nobody but its timer sends the signal that a `timer_delay` allocated for itself
  (`Machine.Private`). A foreign send would end the delay with its timer still queued, on a stack
  frame that is gone.
- A port is waited on by the task that initialized it.

`Ordering.ReachableWith` adds, for the results on the order of the ready list only, a condition on
`task_set_prio` of a READY task. The clock and the time stamps wrap around at 2^32 in every run; a
history count of the wraps (`Machine.Moment`) tells the time since the start.

## Findings

- `task_set_prio` leaves a READY task where it stands in the ready list (src/task.c:92-102), so the
  README's scheduling invariant is not always true. `Examples.RaisedTaskIsPassedOver` is a run from
  `martos_pre`: with 7 running and 5 and 3 ready, raising the 3 to 10 pends a switch that runs 7
  again. `RaisedTaskRunsExact`: the switch runs a raised task exactly when it was the head of the
  list. `SetPrioTopExact`: the order that the invariant rests on survives exactly when the new
  priority lies between those of the task's neighbours in the list; `SetPrioSafeExactly`: exactly
  then the invariant stays true while one running task after another waits. `RunningHasTopPriority`:
  under that condition the invariant holds in every reachable state.
- `sem_signal` wakes only below zero (src/semaphore.c:84-85). The invariant sketched at
  src/semaphore.c:103-104 fails exactly when a signal arrived at a count of -1
  (`SketchedInvariantExact`, `ReleaseLeavesWaiter`); with a test for `<= 0`, which is not the code,
  it would hold (`VariantMeetsSketch`).
- A failing `signal_allocate` loses the pending signal that it tried last (src/task.c:134-144;
  `FailedAllocateLosesExactly`).
- A `timer_delay` whose deadline lies beyond the next wrap of the clock when its stamp is tested is
  refused and returns without waiting (src/timer.c:91-100). `RefusedEarlyExactly` gives the exact
  condition and `DelayIsNeverEarly` shows that every other delay lasts its time. As long as the
  clock has not wrapped, that is: the delay has passed at its return exactly if clock plus delay
  stayed below 2^32 at the stamp (`DelayPassesExactly`). A wrap between the stamp and its test can
  also make a delay late (`WrappedStampIsRefused`).
- `list_insert` with a NULL predecessor does nothing (src/list.c:87-92), although
  include/martos/martos.h:146-147 says that it inserts at the head. The model follows the code.
- `timer_abort` leaves the status TIMER_ADDED (src/timer.c:133-140). `AddedExactly`: ADDED are the
  timers in the queue and those that were aborted and neither added nor freed since.
  `Examples.AbortedTimerStaysAdded` is a run to a timer that is ADDED and in no list, which a second
  `timer_abort` would unlink.

## Model

| member | source | states |
|---|---|---|
| Ordering.RunningHasTopPriority | README.md:45-49 | in every state reached with set_prio calls that fit, the running task has a priority at least as high as every ready task |
| Ordering.PendSVSelectsFirstOfHighest | src/list.c:105-120 | the task that the switch selects arrived first among the ready tasks of the highest priority |
| Ordering.ReachableInOrder | platforms/stm32f4-discovery/platform.c:175-220 | both orders of the ready list are kept by every action of every run under their condition on set_prio |
| SchedulerOrder.SetPrioTopExact | src/task.c:92-102 | set_prio keeps the ready list descending, and the running task on top, exactly when the new priority lies between those of the neighbours |
| SchedulerOrder.SetPrioFifoExact | src/task.c:92-102 | set_prio keeps the order of arrivals exactly when it passes no neighbour's rank; a target that is not READY is always safe |
| SchedulerOrder.SwitchIsTopExact | platforms/stm32f4-discovery/platform.c:185-203 | after a switch the running task is on top exactly when the head of the list was a maximum of it, whatever the list's order |
| SchedulerOrder.PendSVKeepsTop | platforms/stm32f4-discovery/platform.c:185-203 | with a descending ready list a switch establishes the priority invariant |
| SchedulerOrder.RaisedTaskRunsExact | src/task.c:95-100 | a READY task raised above the running one is run by the switch this pends exactly when it headed the list already |
| SchedulerOrder.SetPrioSafeExactly | src/task.c:92-102 | set_prio fits exactly when the running task stays on top while any number of running tasks then wait, one after another |
| Examples.RaisedTaskIsPassedOver | src/task.c:95-100 | a run from boot in which set_prio and the switch it pends leave a task of higher priority ready and no switch pending |
| SchedulerOrder.SendKeepsOrder | src/task.c:158-182 | signal_send keeps both orders, pending a switch when the woken task is above the running one |
| SchedulerOrder.ScheduleKeepsOrder | src/task.c:59-67 | task_schedule keeps both orders |
| MachineRuns.ActionKeeps | src/task.c:59-213 | every action keeps the kernel's invariant |
| MachineRuns.ReachableKInv | src/init.c:37-60 | the invariant holds in every state of every run from martos_pre |
| Scheduling.NoLostWakeUp | src/task.c:184-208 | a waiting task has none of the signals it waits for pending; inside signal_wait with one pending a task is ready or running |
| Scheduling.QueuesPartitionTasks | src/task.c:158-208 | ready tasks are in the ready list exactly once, waiting ones in the waiting list exactly once, the running task and new ones in neither |
| Scheduling.SwitchNeverFindsEmptyList | src/init.c:62-70 | PendSV always finds a ready task, because the init task is never waiting |
| Scheduling.WaitBlocksOnce | src/task.c:190-208 | a task that is switched in inside signal_wait finds a requested signal at once |
| Scheduling.ElapsedInRange | platforms/stm32f4-discovery/platform.c:163-173 | while no switch is pending, 1 to QUANTUM ticks remain |
| RoundRobin.EqualTurns | README.md:51-53 | with quantum expiries only, the k tasks of the top priority run in a fixed order, each once in every k turns, with a full quantum each; lower ones keep their order |
| RoundRobin.CycleMembers | README.md:51-53 | the tasks that take turns are the running task and all ready ones of its priority |
| RoundRobin.ExpireIsRun | platforms/stm32f4-discovery/platform.c:163-173 | an expiry is a run of SysTick actions and one PendSV |
| Nesting.NestCountIsPrivate | platforms/stm32f4-discovery/platform.c:118-131 | the nest count that a task's code sees changes only by its own disable and enable, through blocking calls, interrupts and switches |
| Nesting.SwitchesAtBaseLevel | platforms/stm32f4-discovery/platform.c:196-201 | every switch is taken at -1, and every task that is switched out has -1 saved |
| Timing.PollExact | src/timer.c:142-164 | timer_poll removes exactly the timers with tick <= now, which are a prefix, marks each DONE and adds exactly their signals to their owners |
| Timing.DueSignalsExact | src/timer.c:149-161 | the signals that a poll sends to a task are those of its queued timers whose tick has come |
| Timing.TimerQueueAlwaysSorted | src/timer.c:102-130 | the timer queue is sorted by tick and stable; queued timers are ADDED and owned; and each timer left as often as it entered but for its present stay |
| Timing.DelayIsNeverEarly | src/timer.c:40-54 | in every reachable state, timer_delay(n) returns only when n ticks have passed since its stamp, and so since its call, unless the stamp was tested in an earlier epoch of the clock than the deadline's |
| Timing.DelayPassesExactly | src/timer.c:40-54 | while the clock has not wrapped, the delay has passed at the return exactly if clock plus delay stayed below 2^32 at the stamp |
| Timing.RefusedEarlyExactly | src/timer.c:91-100 | a delay was refused before its deadline exactly if the deadline lies in a later epoch than the test of the stamp; it never waits then |
| Timing.DelayWaitsInQueue | src/timer.c:45-53 | a task that waits in timer_delay has its timer in the queue |
| Timing.DelayIsWokenAtTick | src/timer.c:142-164 | the timer interrupt ends that wait exactly when it reaches the timer's tick |
| Timing.WrappedStampIsRefused | src/timer.c:97-100 | in every reachable state the test refuses a stamp exactly when its time has come or its deadline lies in a later epoch, unless the clock passed the deadline's epoch since |
| Timing.AddedExactly | src/timer.c:133-140 | ADDED are exactly the queued timers and those aborted and neither added nor freed since |
| Examples.AbortedTimerStaysAdded | src/timer.c:133-140 | a run from boot to a timer that is ADDED and in no list |
| Messaging.MessagesAreConserved | src/msgport.c:64-99 | the messages sent to a port are those taken followed by its queue |
| Messaging.BlockedOwnerHasNoMessage | src/msgport.c:49-62 | an owner that waits in msgport_wait on an armed port has an empty queue |
| Messaging.WaitReturnsOldestUntaken | src/msgport.c:49-62 | msgport_wait returns the oldest message not yet taken and leaves it there |
| Messaging.SemaphoreAccount | src/semaphore.c:40-94 | exact account of the queue by count and lost wake-ups; every unit was granted, woke a request, was lost or is there; requests are woken in order |
| Messaging.SemaphoreIsSafe | src/semaphore.c:60-94 | grants and wake-ups never exceed the initial count plus the signals |
| Messaging.SketchedInvariantExact | src/semaphore.c:96-107 | the sketched invariant holds exactly while no wake-up was lost |
| Messaging.SignalLosesExactly | src/semaphore.c:84-85 | from a queue that the count shows, sem_signal leads to one that it does not show exactly at a count of -1 |
| Messaging.ReleaseLeavesWaiter | src/semaphore.c:84-85 | a semaphore of count 1, held by one task and awaited by a second, still has the second queued after its release |
| Messaging.AssertionCannotFail | src/semaphore.c:88 | in every reachable state sem_signal finds a request below zero, for an initial count of at least -1 |
| Messaging.AssertionHoldsExactly | src/semaphore.c:88 | over all requests and signals, that holds exactly for initial counts of at least -1 |
| Messaging.VariantMeetsSketch | src/semaphore.c:96-107 | a variant that tests for <= 0, not the code, would keep the sketched invariant |
| SignalLaws.SignalsAreConserved | src/task.c:134-213 | a task's pending signals change by exactly what is sent to it and what its own waits and allocations consume |
| SignalLaws.WaitReturnsRequested | src/task.c:184-213 | signal_wait returns just when a requested signal is pending, with exactly those, and clears exactly those |
| Allocations.AllocateAnswer | src/task.c:104-147 | the requested signal if it is free, the highest free one for -1, -1 exactly when there is none; a new signal is not pending |
| Allocations.FailedAllocateLosesExactly | src/task.c:134-144 | which pending signal a failing signal_allocate loses |
| Allocations.AllocationsAreDistinct | src/task.c:104-156 | over any run, a task's live allocations, those of its timers and ports included, never share a signal; there are at most 15, SIGF_SINGLE stays allocated, and its word says which are live |
| Allocations.ActionAlloc | src/task.c:104-156 | every action changes the allocation words by exactly the allocation or release in it |
| Allocations.MarkCommutesWithSend | src/task.c:136-138 | the writes that signal_allocate makes with interrupts enabled commute with any send |
| Allocations.MarkCommutesWithSwitch | src/task.c:136-138 | ... and with a switch |
| LinkedLists.List.constructor | src/list.c:39-45 | a new list is valid and empty |
| LinkedLists.List.IsEmpty | src/list.c:47-54 | whether the contents are empty |
| LinkedLists.List.GetHead | src/list.c:76-83 | the first node, null for an empty list |
| LinkedLists.Unlink | src/list.c:33-37 | takes out one node without being told the list; the node keeps its links |
| LinkedLists.AddTail | src/list.c:56-62 | appends |
| LinkedLists.AddTailThenUnlink | src/list.c:33-62 | adding at the tail and unlinking restores the list |
| LinkedLists.RemHead | src/list.c:64-74 | takes out and returns the first node, nothing for an empty list |
| LinkedLists.Insert | src/list.c:85-103 | places the node after prev, at the tail for the end sentinel, nowhere for null |
| LinkedLists.Enqueue | src/list.c:105-120 | places the node before the first one of lower priority |
| LinkedLists.Find | src/list.c:122-134 | the first node of that name, null when there is none |
| TaskLists.TaskLists.UnlinkWaiting | src/list.c:33-37 | unlinking in one of two disjoint lists leaves the other as it is |
| KernelObjects.Kernel.constructor | src/init.c:37-60 | the kernel starts in the machine's initial core state |
| KernelObjects.Kernel.Disable | platforms/stm32f4-discovery/platform.c:118-122 | the nest count grows by one |
| KernelObjects.Kernel.Enable | platforms/stm32f4-discovery/platform.c:124-131 | the nest count falls by one |
| KernelObjects.Kernel.TaskInit | src/task.c:35-57 | a new task in no list, holding SIGF_SINGLE |
| KernelObjects.Kernel.TaskSchedule | src/task.c:59-67 | refines Scheduler.Schedule |
| KernelObjects.Kernel.TaskSetPrio | src/task.c:92-102 | refines Scheduler.SetPrio |
| KernelObjects.Kernel.SignalAllocate | src/task.c:104-147 | refines Scheduler.Allocate and returns its answer |
| KernelObjects.HighestFree | src/task.c:119-131 | the do-while search finds the highest free signal, or -1 and bit 0 |
| KernelObjects.Kernel.SignalFree | src/task.c:149-156 | refines Scheduler.Free |
| KernelObjects.Kernel.SignalSend | src/task.c:158-182 | refines Scheduler.Send, relinking the task between the linked lists |
| KernelObjects.Kernel.WaitEnter | src/task.c:189-203 | refines Scheduler.WaitEnter: consumes and returns, or queues the task and opens the window |
| KernelObjects.Kernel.Kick | src/task.c:205-208 | refines Scheduler.Kick |
| KernelObjects.Kernel.Resume | src/task.c:190-212 | refines Scheduler.Resume with the call's own signals and nest count |
| KernelObjects.Kernel.PendSV | platforms/stm32f4-discovery/platform.c:175-220 | refines Scheduler.PendSV |
| KernelObjects.Kernel.SysTick | platforms/stm32f4-discovery/platform.c:163-173 | refines Scheduler.SysTick |
| TimerObjects.Timers.TimerPoll | src/timer.c:142-164 | the walk over the linked list, going on from the stale next of each unlinked timer, refines Machine.Poll |
| TimerObjects.Timers.SendSignal | src/timer.c:159 | signal_send leaves the timer queue and every timer's next as they are |
| TimerObjects.Timers.Tim2 | platforms/stm32f4-discovery/platform.c:256-263 | one tick of the clock and a poll at the new time |
| TimerObjects.Timers.TimerStamp | src/timer.c:91-92 | the tick is the clock plus the delay, modulo 2^32 |
| TimerObjects.Timers.TimerCheck | src/timer.c:97-100 | ABORTED exactly when the tick has elapsed |
| TimerObjects.Timers.TimerInsert | src/timer.c:108-130 | refines Machine.InsertTimer: ADDED, before the first timer with a later tick |
| TimerObjects.Timers.TimerAbort | src/timer.c:133-140 | an ADDED timer leaves the queue, its status stays |
| TimerObjects.Timers.TimerAllocate | src/timer.c:56-68 | a new timer of the running task with a newly allocated signal |
| TimerObjects.Timers.TimerFree | src/timer.c:70-77 | the signal is freed, the timer is nobody's |
| SemaphoreObjects.Semaphore.constructor | src/semaphore.c:40-44 | an empty queue and the given count |
| SemaphoreObjects.Semaphore.AddRequest | src/semaphore.c:60-77 | refines Machine.AddRequest; true exactly when the request was queued |
| SemaphoreObjects.Semaphore.Signal | src/semaphore.c:79-94 | refines Machine.SignalSem and signals the waiter of the request dequeued |
| SemaphoreObjects.Semaphore.AlwaysFinds | src/semaphore.c:88-90 | the account of requests gives sem_signal its request |
| SemaphoreObjects.Semaphore.Wait | src/semaphore.c:46-52 | the first region of sem_wait: a request for the running task |
| SemaphoreObjects.Semaphore.Block | src/semaphore.c:54 | the second region: signal_wait(SIGF_SINGLE) |
| MsgPortObjects.Init | src/msgport.c:37-47 | allocates a signal and sets up a port of the running task with an empty queue |
| MsgPortObjects.MsgPort.Wait | src/msgport.c:49-62 | the head of the queue without removing it, or blocked after consuming a stale signal |
| MsgPortObjects.MsgPort.Continue | src/msgport.c:55-60 | after a wake-up: consumes the signal, then the head of the queue, or blocked again |
| MsgPortObjects.MsgPort.Get | src/msgport.c:64-72 | refines Machine.GetMessage and returns the oldest message |
| MsgPortObjects.MsgPort.Send | src/msgport.c:74-99 | refines Machine.PutMessage and signals the port's task if it asks for that |
| MsgPortObjects.Reply | src/msgport.c:101-112 | sends the message to its reply port |
| SignalWords.OrIsUnion | src/task.c:161 | or of signal words is union |
| SignalWords.AndIsIntersection | src/task.c:163 | and of signal words is intersection |
| SignalWords.AndNotIsDifference | src/task.c:155 | clearing bits is set difference |
| Refinement.ConstructorIsBoot | src/init.c:37-60 | martos_pre leaves objects and machine in one state, and it is reachable |
| Refinement.KernelCallsAreReady | platforms/stm32f4-discovery/platform.c:175-220 | in every reachable state the kernel methods' preconditions hold |
| Refinement.TasksArePlaced | src/task.c:158-182 | in every reachable state each task is in the linked list of its state |
| Refinement.RunningIsUnlisted | src/task.c:191-193 | the running task that is about to be queued as waiting is in no list |
| Refinement.TimerPollIsTim2 | platforms/stm32f4-discovery/platform.c:256-263 | in every reachable state the poll may run, and its result is the machine's step |
| Refinement.TimerInsertIsReady | src/timer.c:108-130 | timer_add inserts only a timer that is not queued |
| Refinement.TimerCallsAreReady | src/timer.c:56-140 | the preconditions of allocate, abort and free hold, and their effects are the machine's |
| Refinement.SemSignalIsReady | src/semaphore.c:79-94 | sem_signal finds what it asserts, and its effect is the machine's step |
| Refinement.SemWaitIsTwoRegions | src/semaphore.c:46-58 | sem_wait adds a request and goes on to wait exactly if that was queued |
| Refinement.SemWaitBlocks | src/semaphore.c:54 | the second region of sem_wait is a signal_wait for SIGF_SINGLE |
| Refinement.PortSendIsReady | src/msgport.c:74-99 | msgport_send's effect is the machine's step |
| Refinement.PortWaitIsReady | src/msgport.c:49-62 | msgport_wait's effect on the core up to its first blocking is the machine's step |
| Refinement.PortResumeIsReady | src/msgport.c:55-60 | after a wake-up the preconditions hold, and the effect on the core is the machine's step |
| Refinement.PortGetIsReady | src/msgport.c:64-72 | msgport_get's effect is the machine's step |

## Left out

- lwip_martos, netproj and the test programs: users of the kernel, with their own queues.
- `task_find` and the name check of `task_init`: tasks are taken as uniquely named; `list_find` is there for names that are not NULL.
- Task contexts, stacks, the assembly of the switch, startup and device set-up: hardware layout and I/O. `task_verify` is left to the invariant for the state and the nest count.
- Memory barriers after writing ICSR and more than one core: covered by taking a pended PendSV at once.
- Widths: `id_nestcnt` and the semaphore count are unbounded integers; `elapsed` wraps at 2^32, the size of the platform's fast 8-bit type; priorities, signals and ticks have their widths.
- KernelObjects.Kernel.PendSV: the case of a running task that is only initialized, in which the code hangs, is a precondition; `KernelCallsAreReady` shows that it is never reached.
- KernelObjects.Kernel.TaskInit: the memory of a task is new here, the caller's in the code; the same goes for timers and requests.
- TimerObjects.Timers.TimerStamp: `timer_add` and `timer_delay` are given as their regions (stamp, check, insert, the waits of `Kernel`); the machine puts them in order and lets interrupts in between.
- `timer_init` is taken as done before the first timer is used.
- `msgport_send` to a port that disappears meanwhile, which the code assumes away (src/msgport.c:77-78).
