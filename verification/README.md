# Verified models of the parallel transitive closure (A01) and the O(n) scheduler (A02)

The project models two systems and proves what each is for.

**Transitive closure of a graph (A01).** One sequential program runs Warshall's algorithm in place. Four concurrent
programs run it in rounds: a parent releases its workers through `p2c`, the workers fill `M_curr` from `M_prev`, the
parent collects `c2p` and copies `M_curr` back. Two programs (threads, processes) give worker t the rows t, t + P,
t + 2P, ...; the two others hand out rows from a shared queue index that is also read without its lock.

| file | what it holds |
|---|---|
| `Ranks.dfy` | sums of ranks, for the measures that the transition systems lower |
| `Warshall.dfy` | phases of Warshall's algorithm, walks, the closure theorems, the in-place program on an array |
| `Rounds.dfy` | the double-buffered round, as a function and as loops on arrays |
| `BagOfTasks.dfy` | the two bag-of-tasks programs as one transition system (`processes` selects the variant) |
| `StaticRows.dfy` | the two static-partition programs as one transition system (`joins` selects the variant) |

In the transition systems a step is one shared access: one test of a loop condition that reads shared cells, one lock,
unlock, wait or post, one read or write of the queue index, the test and write of one matrix cell, the copy of one cell.
Any number of workers >= 1, any 0/1 matrix including the empty one, any interleaving. `curr` starts all zero and is
never cleared.

**The Linux 2.4 scheduler with the fair-share patch (A02).**

| file | what it holds |
|---|---|
| `Tasks.dfy` | task records, quanta, goodness, the scan of the run queue |
| `Uniprocessor.dfy` | `schedule`, wake-up, yield and tick on one CPU as functions on kernel states; invariants over runs |
| `UniprocessorEffects.dfy` | what those operations do to fields and to the order of the queue: yield, wake-up, recalculation, mm hand-over |
| `SharedQuanta.dfy` | what a recalculating call of the patched scheduler leaves a user's tasks together |
| `RunList.dfy` | the run queue as a circular list through the tasks' own entries, with `task_on_runqueue` read off a pointer |
| `KernelObject.dfy` | the one-CPU operations as methods of an object that holds such a list, each proved against its function |
| `RoundRobinFairness.dfy` | SCHED_RR of IEEE Std 1003.1, System Interfaces, section 2.8.4: bounded waiting |
| `Multiprocessor.dfy` | several CPUs on one run queue: the hand-off protocol around `cpus_runnable` |
| `MultiprocessorEffects.dfy` | whom a CPU may take and how it chooses, yields, wake-ups, the order of the queue, each step of a recalculation |
| `Recalculation.dfy` | counters on several CPUs: their bound, real-time tasks, and when a call recalculates again |
| `RescheduleIdle.dfy` | the CPU that a woken task is offered to |
| `Completion.dfy` | any number of waiters and completers on one completion |
| `FairShare.dfy` | the patch: `share`, `user->processes`, the patched quanta |
| `PidHash.dfy` | the PID hash with its intrusive, doubly linked chains |

On one CPU `schedule` is one step. On several CPUs the lock is free while counters are recalculated (one task a step)
and between the commit of a choice and the release of the old task in the tail; wake-ups, ticks, state and affinity
changes and the other CPUs' own steps happen in between. `idle` means task 0 on one CPU and tasks 0, ..., cpus - 1 on
several. A completion's waiters and the scan inside `complete()` take separate steps, so a waiter can be found asleep
while it is still on the run queue.

## Where code and comments disagree

- `A02/sched.c:136-141` says goodness can be -1000, "never select this"; the code never returns that. -1000 is only the
  start value of the scan (`Tasks.GoodnessBands`).
- `A02/sched.c:148-152` says that yielding does not trigger a recalculation. A yielding task has goodness -1, so a scan
  that finds it beside tasks without ticks does trigger one: counters are recalculated exactly when some task that could
  run is ordinary and out of ticks and all the others are that too or yield (`Tasks.ScanRecalculatesWhenSpent`).
- `A02/patch_v3.patch:912-913` gives a boosted share back only when it is exactly 2, while `sys_incshare` may be called
  any number of times. The count of a user is therefore exact only up to the first exit of a process that called it
  more than once (`FairShare.CountIsShareSum`, with the smallest failing run in `FairShare.TwoIncSharesLeak`).

## Model

| member | source | states |
|---|---|---|
| Warshall.PhasesMeanWalks | A01/wtc_raw.c:16-30 | After the iterations 0..k-1 an entry is 1 exactly when a nonempty walk exists whose inner vertices are all below k |
| Warshall.ClosureIsReachability | A01/wtc_raw.c:16-30 | After all iterations an entry is 1 exactly when its column is reachable from its row by a nonempty walk |
| Warshall.ClosureIsLeastTransitive | A01/wtc_raw.c:16-30 | The result contains the edges, is transitive, and lies in every transitive relation that contains the edges |
| Warshall.RelaxRow | A01/wtc_raw.c:20-26 | One row of one iteration, in place, computes that row of the iteration as if it read the matrix from before it, and touches no other row |
| Warshall.Algorithm | A01/wtc_raw.c:16-30 | For any integer matrix the in-place program ends with 1 exactly at the reachable pairs, and leaves every entry that is not 1 as it was |
| Rounds.RoundIsPhase | A01/wtc_proc.c:13-18 | One round that reads `M_prev` and writes 1s into a never cleared `M_curr` gives each cell the value of one iteration of the in-place program |
| Rounds.LastRoundIsClosure | A01/wtc_proc.c:89-104 | After the last round both matrices hold the matrix of the sequential program, which is reachability |
| Rounds.ComputeRow | A01/wtc_btthr.c:36-40 | The row loop sets exactly the cells of its row whose test on `M_prev` succeeds and leaves the rest of `M_curr` alone |
| Rounds.CopyBack | A01/wtc_btthr.c:109-113 | The copy loops leave `M_prev` equal to `M_curr` |
| Rounds.SoloRound | A01/wtc_proc.c:13-19 | Every row computed and copied back, from the states that round k can start in, ends in those that round k + 1 can start in |
| BagOfTasks.StepKeepsInv | A01/wtc_btthr.c:19-45 | Every step of a thread, a process or a parent keeps the protocol invariant: who is released, who has reported, who holds the lock, which cells are done |
| BagOfTasks.RunComputesClosure | A01/wtc_btthr.c:96-114 | In every interleaving, when the parent's round loop is over both matrices hold exactly the pairs joined by a nonempty walk |
| BagOfTasks.NoDeadlock | A01/wtc_btthr.c:23-44 | As long as the parent is not done, or (threads) a thread has not exited, some step is enabled |
| BagOfTasks.StepRankFalls | A01/wtc_btthr.c:96-117 | Every step lowers a well-founded rank, so no run goes on for ever |
| BagOfTasks.StuckRunIsComplete | A01/wtc_btthr.c:116-124 | A run that cannot go on has a finished parent; every thread has exited, so the final unlock of all `p2c` frees those that lost the race on `iterator`; a child process has exited or waits at its semaphore, which is 0 |
| BagOfTasks.WhoIsLeftWaiting | A01/wtc_btproc.c:8-10 | The child processes left waiting are exactly those that had passed their outer test before the parent's last advance of `iterator` |
| BagOfTasks.ChildrenAlwaysExitOnlyWithoutRows | A01/wtc_btproc.c:8-39 | Every run of the process version that cannot go on has all children gone if and only if there are no rows |
| BagOfTasks.RunLeavingAllWaiting | A01/wtc_btproc.c:8-39 | Whenever there is a row, some run ends with every child waiting for ever |
| BagOfTasks.RunUnderAnySchedule | A01/wtc_btproc.c:135-165 | Under every scheduler the program ends, with the closure as the matrix it prints |
| BagOfTasks.RoundHandsOutEveryRow | A01/wtc_btproc.c:13-37 | When the parent copies, every row below n was dequeued in this round and computed to its end in this round by the worker that dequeued it, the index lies between n and n + P - 1, `M_curr` is complete for this round's k, and no worker is inside a row |
| BagOfTasks.DequeuedOnce | A01/wtc_btproc.c:17-24 | Within a round no index is dequeued twice, by anybody |
| BagOfTasks.RowHasOneWorker | A01/wtc_btthr.c:30-40 | Whoever holds a row at any two moments of a round is the same worker |
| BagOfTasks.RowsAreExclusive | A01/wtc_btproc.c:17-24 | No two workers ever carry the same queue index, although the loop test is unlocked |
| BagOfTasks.SemaphoresAreBinary | A01/wtc_btthr.c:97-107 | Every p2c and c2p value stays in {0, 1} and every unlock by a worker or the parent hits a locked mutex; the queue lock is released only by its holder |
| BagOfTasks.AccessesInRange | A01/wtc_btthr.c:34-40 | Every cell access, including those indexed by `iterator`, lies inside the matrices |
| BagOfTasks.NoEarlyExit | A01/wtc_btproc.c:8-10 | No worker leaves its outer loop while a round remains |
| StaticRows.StepKeepsInv | A01/wtc_proc.c:7-24 | Every step of the static versions keeps the barrier invariant |
| StaticRows.NextOwnRow | A01/wtc_proc.c:13 | Stepping by P from an own row reaches a row of the same owner, and no row of that owner lies between |
| StaticRows.OwnerIsRemainder | A01/wtc_proc.c:11-13 | Row i belongs to worker i % P |
| StaticRows.RunComputesClosure | A01/wtc_proc.c:89-107 | In every interleaving, when the parent's round loop is over both matrices hold exactly the pairs joined by a nonempty walk, and no worker is inside its rows |
| StaticRows.Isolation | A01/wtc_thr.c:18-27 | A worker inside its rows has k equal to the parent's m, the parent is then releasing or collecting, never copying, and the row is the worker's own, so no two workers write one cell |
| StaticRows.SemaphoresAreBinary | A01/wtc_thr.c:79-93 | Every p2c and c2p value stays in {0, 1} and every unlock hits a locked mutex |
| StaticRows.NoDeadlock | A01/wtc_thr.c:79-101 | Some step is enabled until parent and workers are all done |
| StaticRows.StepRankFalls | A01/wtc_proc.c:89-107 | Every step lowers a well-founded rank |
| StaticRows.StuckRunIsComplete | A01/wtc_thr.c:95-101 | A run that cannot go on has a finished parent and only exited workers |
| StaticRows.RunUnderAnySchedule | A01/wtc_proc.c:89-118 | Under every scheduler the program ends, with the closure as the matrix it prints and every worker gone |
| Tasks.MoreNiceFewerTicks | A02/sched.c:71 | A larger nice value never gives more ticks |
| Tasks.RechargeKeepsBound | A02/sched.c:620-622 | The original recalculation keeps 0 <= counter <= 2 * NICE_TO_TICKS(-20) - 1 and leaves at least one tick |
| Tasks.QuantumIsPatched | A02/patch_v3.patch:1003-1005 | The patched recalculation gives share * procCount / processes rounded down, but at least 1 |
| Tasks.GainMeansOutranks | A02/sched.c:200-203 | preemption_goodness is positive exactly when the one task does not yield and the other does, or it is real-time and the other ordinary or of lower priority, or both are ordinary and it has ticks left and the better claim in ticks, nice and affinity |
| Tasks.GoodnessBands | A02/sched.c:144-194 | Goodness is -1 exactly for yielding tasks, 0 exactly for ordinary ones without ticks, at least 1000 for real-time ones, and at least 2 in every other case |
| Tasks.RealTimeFirst | A02/sched.c:168-191 | With counters in their bound and an affinity bonus below the limit, a real-time task beats every ordinary one |
| Tasks.RealTimeLimitIsExact | A02/sched.c:168-191 | The limit is exact: real-time tasks always win if and only if the bonus is below it |
| Tasks.ScanFindsFirstBest | A02/sched.c:604-613 | The scan ends with the first schedulable queue entry of maximal goodness, or with idle exactly when nothing is schedulable |
| Tasks.ScanRecalculatesWhenSpent | A02/sched.c:604-616 | A scan ends with goodness 0 exactly when some schedulable task is ordinary and out of ticks and every other schedulable one is that too or yields |
| Tasks.ChoiceIsHardlyUnfair | A02/sched.c:168-182 | No ordinary task with ticks that the scan passes over leads an ordinary choice in ticks and nice by more than the affinity terms are worth, and among ties the last CPU decides first, the loaded mm second |
| Uniprocessor.RecalculatedWhenSpent | A02/sched.c:616-626 | On one CPU counters are recalculated exactly when some runnable task is ordinary and out of ticks and all the others are that too or yield |
| Uniprocessor.OneRecalculation | A02/sched.c:616-626 | After one recalculation that nothing interrupts, original or patched, the best goodness is not 0, so such a call recalculates at most once |
| Uniprocessor.ScheduleKeeps | A02/sched.c:547-703 | schedule keeps the whole invariant, and leaves no SCHED_YIELD bit and no pending reschedule, so its outer loop does not repeat |
| Uniprocessor.ScheduleChooses | A02/sched.c:600-634 | The new current task is the first queue entry of maximal goodness, or idle exactly when the queue is empty |
| Uniprocessor.ScheduleRaisesNoBug | A02/sched.c:557-689 | None of the three BUG_ON checks on active_mm can fire |
| Uniprocessor.WakeUpKeeps | A02/sched.c:349-368 | A wake-up keeps the invariant, leaves the task runnable and queued, and succeeds exactly when it was not queued |
| Uniprocessor.EventKeeps | A02/sched.c:329-368 | nr_running is the queue length, the queue has no duplicates, task_on_runqueue is membership, and a waiting task is queued exactly when runnable, across schedule, wake-up, yield, tick and state changes |
| Uniprocessor.RunKeepsWellFormed | A02/sched.c:584-593 | The same in every state of every run |
| Uniprocessor.CountersStayInRange | A02/sched.c:577-622 | In every run of the original formula counters stay between 0 and 2 * NICE_TO_TICKS(-20) - 1 |
| Uniprocessor.RealTimeRunsFirst | A02/sched.c:604-613 | In such runs schedule never picks an ordinary task or idles while a real-time task is runnable, and picks one of the highest priority |
| UniprocessorEffects.PrepareDecidesFields | A02/sched.c:577-594 | Before it chooses, schedule keeps a runnable current task queued, makes an interruptible one with a signal runnable, takes every other one off the queue, and gives an exhausted round-robin task a full slice: between 25 and 60 ms at nice 0 for tick rates from 100 to 3239, and in proportion to the distance from nice 20 |
| UniprocessorEffects.ScheduleIsHardlyUnfair | A02/sched.c:604-613 | No queued ordinary task with ticks that schedule passes over leads an ordinary choice in ticks and nice by more than 1, and among equals the mm loaded by the old task decides |
| UniprocessorEffects.ScheduleLendsMm | A02/sched.c:672-689 | The new task runs with its own mm, or with the one the old task had loaded if it has none; an old task without an mm gives back what it borrowed |
| UniprocessorEffects.YieldAloneDoesNothing | A02/sched.c:1069-1092 | sched_yield of a task alone on the queue changes nothing |
| UniprocessorEffects.YieldGoesLast | A02/sched.c:1092-1104 | Otherwise it asks for a reschedule, marks exactly an ordinary task as yielding, and puts the task behind all others |
| UniprocessorEffects.RealTimeYieldGivesWay | A02/sched.c:1102 | After yield() by a real-time task with another one of at least its priority runnable a different task runs |
| UniprocessorEffects.WakeUpAsksWhenOutranked | A02/sched.c:361-363 | A wake-up leaves the current task asked to give way exactly if it was before, or if a task was queued that outranks it and the wake-up was not synchronous for a task that may use this CPU |
| UniprocessorEffects.WakeUpDisturbsIdle | A02/sched.c:308-315 | An idle task with a counter far below zero is asked to give way to every task that is queued |
| UniprocessorEffects.RecalculationCharges | A02/sched.c:621-622 | A recalculation leaves every task, with the original formula, a slice and half of what it had, and with the patch share * procCount / processes but at least 1, and changes nothing else |
| SharedQuanta.ScheduleGivesEqualQuanta | A02/patch_v3.patch:1002-1007 | When a user's count is the sum of the shares of its n tasks, a call of schedule that recalculates leaves them counters that sum to more than procCount - n and at most procCount + n, and to at most procCount when the count does not exceed it |
| Uniprocessor.YieldGivesWay | A02/sched.c:1108-1119 | After yield() by an ordinary task with another one runnable a different task runs, whatever the counters, and no SCHED_YIELD bit survives |
| RunList.RunQueue.AddToRunqueue | A02/sched.c:329-333 | The circle of next and prev pointers is exact again with the task last, nr_running counts it, and the pointers of unqueued tasks stay clear |
| RunList.RunQueue.DelFromRunqueue | A02/sched.h:892-898 | Exactly that task leaves the circle, its neighbours are joined, its next pointer is clear and nr_running is the length again |
| RunList.RunQueue.MoveLastRunqueue | A02/sched.c:335-339 | The task goes last, the others keep their order, and the circle is exact again |
| RunList.RunQueue.TaskOnRunqueue | A02/sched.h:900-903 | The pointer test answers membership in the queue |
| KernelObject.Scheduler.constructor | A02/sched.c:95-107 | The object can represent every well-formed kernel state |
| KernelObject.Scheduler.ScanQueue | A02/sched.c:604-613 | The walk along the next pointers computes the model's choice, which Tasks.ScanFindsFirstBest describes |
| KernelObject.Scheduler.RecalculateCounters | A02/sched.c:620-623 | The loop over all tasks leaves each, by the original formula, a slice and half of what it had, or by the patch share * procCount / processes but at least 1 |
| KernelObject.Scheduler.Choose | A02/sched.c:600-626 | When nothing interrupts a recalculation, the repeat_schedule loop ends after at most one, with the best choice |
| KernelObject.Scheduler.PrepareSchedule | A02/sched.c:577-594 | Requeueing, deactivation and the cleared flag, as in the model function |
| KernelObject.Scheduler.ContextSwitch | A02/sched.c:633-698 | The switch, the lazy mm hand-over and the tail, as in the model function |
| KernelObject.Scheduler.Schedule | A02/sched.c:547-703 | The whole call computes the model's result, ends although its outer loop may repeat, and leaves the invariant |
| KernelObject.Scheduler.TryToWakeUp | A02/sched.c:349-368 | The task is runnable and queued, success is reported exactly when it was not queued before, and the current task is asked to give way exactly if it was already or is outranked by the task just queued, synchronous wake-ups excepted |
| KernelObject.Scheduler.SchedYield | A02/sched.c:1067-1106 | The call keeps the invariant and puts the task behind all others, with the model's marks |
| KernelObject.Scheduler.Yield | A02/sched.c:1114-1119 | The call keeps the invariant; an ordinary task gives way to any other runnable one, and a real-time task to any other of at least its priority |
| RoundRobinFairness.EventTurns | A02/sched.c:577-582 | No event adds a turn before a waiting task of the highest priority, and each quantum expiry removes one |
| RoundRobinFairness.RoundRobinIsFair | A02/sched.c:329-339 | While only SCHED_RR tasks have the highest priority, a waiting one is selected after at most as many expiries as it had top-priority turns before it at the start, even as tasks of the same priority arrive |
| Multiprocessor.EventKeeps | A02/sched.c:465-526 | Every step of every CPU keeps the hand-off invariant |
| Multiprocessor.ChoiceIsFree | A02/sched.c:117-119 | A task that passes can_schedule is held by no other CPU, not even one that is still switching it out |
| Multiprocessor.MutualExclusion | A02/sched.c:600-635 | In every reachable state no task is current, or still being switched out, on two CPUs |
| Multiprocessor.MaskIsExact | A02/sched.h:561-572 | cpus_runnable names a CPU exactly when that CPU holds the task, and processor then agrees |
| Multiprocessor.RunnableIsQueued | A02/sched.c:584-593 | A runnable task is always queued, a queued one that is not runnable is current and not yet in schedule, and nr_running is the queue length |
| Multiprocessor.CommitsAreBest | A02/sched.c:604-634 | Each committed choice is the first schedulable entry of maximal goodness for that CPU, or its idle task exactly when there is none |
| MultiprocessorEffects.CommitsRespectMasks | A02/sched.c:117-119 | In every run, whoever a CPU takes is queued, has that CPU in cpus_allowed and is on no other CPU; and a CPU idles only if no queued task meets that |
| MultiprocessorEffects.CommitsAreHardlyUnfair | A02/sched.c:168-182 | In every run, no ordinary task that a CPU could take leads its ordinary choice in ticks and nice by more than the affinity bonus and 1; among equals the last CPU decides first, the loaded mm second |
| MultiprocessorEffects.YieldGoesLast | A02/sched.c:1092-1104 | In every run, a yield marks exactly an ordinary task, asks for a reschedule, and puts the task behind all others |
| MultiprocessorEffects.YielderIsPassedOver | A02/sched.c:148-155 | In every run, a task that yields is not taken while its CPU could take another one |
| MultiprocessorEffects.YieldBitNeedsCpu | A02/sched.c:470-481 | In every run, a task has its yield bit only while a CPU holds it |
| MultiprocessorEffects.ScheduleClearsYield | A02/sched.c:480-481 | The yield bit is cleared in the tail, or when the task is taken again |
| MultiprocessorEffects.WakeUpQueuesLast | A02/sched.c:349-366 | In every run, a wake-up makes its task runnable and queued, last if it was not queued, and does nothing else to tasks, queue and CPUs |
| MultiprocessorEffects.EnterDecides | A02/sched.c:577-594 | Before it chooses, schedule keeps a runnable task queued, makes an interruptible one with a signal runnable, takes every other one off the queue, and gives an exhausted round-robin task a full slice: between 25 and 60 ms at nice 0 for tick rates from 100 to 3239, and in proportion to the distance from nice 20 |
| MultiprocessorEffects.QueueKeepsOrder | A02/sched.c:329-339 | In every run, queued tasks keep their order, but for an exhausted round-robin task and one that yields, which go behind all others, as does whoever joins |
| MultiprocessorEffects.RecalculationProgresses | A02/sched.c:621-622 | In every run, each step of a recalculation charges the next listed task rightly, by either formula, changes nothing else and leaves one task less to charge |
| Recalculation.RunBoundsCounters | A02/sched.c:577-622 | On any number of CPUs, in every run of the original formula, counters stay between 0 and 2 * NICE_TO_TICKS(-20) - 1 |
| Recalculation.RealTimeRunsFirst | A02/sched.c:168-191 | In such runs, with an affinity bonus below the limit, no committed choice is an ordinary or idle task while a real-time task that the CPU may schedule is queued, and the choice has at least its priority |
| Recalculation.RealTimeRunsFirstOnI386 | A02/sched.c:172-177 | The same for a bonus of 15 at every tick rate |
| Recalculation.RecalculatesWhenSpent | A02/sched.c:604-616 | In every run a scan starts a recalculation exactly when some task it may schedule is ordinary and out of ticks and all others are that too or yield |
| Recalculation.SecondRecalculationNeedsTick | A02/sched.c:616-626 | In every run, of either formula, with ticks and other CPUs' calls in the unlocked window, a call recalculates again only if a tick has used up some counter since its recalculation began |
| Recalculation.RecalculatesTwice | A02/sched.c:616-626 | A run in which that happens, and which is then back in the same state |
| RescheduleIdle.FindTarget | A02/sched.c:211-307 | The offer goes to the task's last CPU if that idles, else to an idle package, else to the CPU idle longest, else to the CPU whose task loses by most, else to nobody |
| RescheduleIdle.OfferIsSound | A02/sched.c:219-307 | An offer goes only to a CPU in the task's masks that idles, or that runs a task it outranks; nobody gets one only if no CPU in order is like that |
| RescheduleIdle.LowestPriorityIsTaken | A02/sched.c:284-292 | A CPU is taken from a real-time task only if all CPUs that could be taken run real-time tasks of at least that priority |
| RescheduleIdle.OfferIsSettled | A02/sched.c:252-307 | That description leaves exactly one possible answer |
| Completion.EventKeepsInv | A02/sched.c:714-736 | Every step of waiters, completers and other wake-ups keeps the accounting of tokens against awake waiters |
| Completion.OneWakeUpPerCall | A02/sched.c:723-735 | In every run, each call of complete() either wakes exactly one waiter or scans the whole queue, and not both |
| Completion.FullScanMissesNobody | A02/sched.c:723-735 | A call that scans the whole queue leaves no queued waiter asleep or off the run queue |
| Completion.LongestWaiterIsWoken | A02/sched.c:758-776 | Of the queued waiters off the run queue, complete() wakes the one that queued first |
| Completion.SleepersAreOffTheRunQueue | A02/sched.c:776-781 | In every run, a waiter marked asleep is on the run queue only until it calls schedule; the step that wakes one puts exactly that one back |
| Completion.NoLostWakeUp | A02/sched.c:758-786 | Whenever the lock is free at least min(done, queued) of the queued waiters are awake, and an awake waiter is on the run queue |
| Completion.TokensAreConserved | A02/sched.c:758-786 | In every run `done` plus the waits that ended is the number of complete() calls |
| Completion.InternalStepsEnd | A02/sched.c:714-736 | The steps that waiters and completers take by themselves lower a well-founded rank |
| Completion.AtRestNobodyIsMissed | A02/sched.c:768-786 | When no such step is left, no token lies unused while somebody waits |
| FairShare.EventDrift | A02/patch_v3.patch:911-913 | What each fork, incshare and exit does to the difference between a user's count and the sum of its live shares |
| FairShare.CountIsShareSum | A02/patch_v3.patch:1028-1039 | In every run a user's count is the sum of its live shares if and only if no process of that user has exited after more than one incshare |
| FairShare.TwoIncSharesLeak | A02/patch_v3.patch:911-913 | A run of fork, incshare, incshare, exit leaves a user without processes and a count of 2 |
| FairShare.QuantumBounds | A02/patch_v3.patch:1002-1007 | One patched quantum, scaled by the user's count, is within one count of share * procCount |
| FairShare.UsersGetEqualQuanta | A02/patch_v3.patch:1002-1007 | With an exact count, a user's n processes get quanta that sum to more than procCount - n and at most procCount + n, and to at most procCount when the count does not exceed it |
| FairShare.RunGivesEqualQuanta | A02/patch_v3.patch:977-983 | The same in every run without an overboosted exit, for a recalculation over the live processes |
| FairShare.Accounting.DoFork | A02/patch_v3.patch:928-930 | A new process is counted for exactly the share of 1 it brings, so no user's difference changes |
| FairShare.Accounting.SysIncshare | A02/patch_v3.patch:1028-1039 | The share goes up by one and the count with it, so no user's difference changes |
| FairShare.Accounting.ReleaseTask | A02/patch_v3.patch:911-913 | Exactly that process goes, with its share, and the user's difference stays exactly when the share was 1 or 2 |
| PidHash.SmallPidsStay | A02/sched.h:532 | A pid below 256 is its own slot |
| PidHash.BlocksFillTheTable | A02/sched.h:532 | Pids that agree in all but their low ten bits have slots of their own |
| PidHash.SlotDecidesPid | A02/sched.h:551-559 | Searching the one slot of a pid finds what searching all hashed tasks would find |
| PidHash.AfterHoldsTheHashed | A02/sched.h:534-549 | After any legal history the collection holds exactly the tasks hashed and not unhashed since, the most recent first |
| PidHash.FindsTheMostRecent | A02/sched.h:551-559 | After any legal history a search fails exactly when no task with the pid is hashed, and otherwise finds the one hashed last |
| PidHash.PidTable.constructor | A02/sched.h:528-532 | The empty table, with the program's hash function |
| PidHash.PidTable.HashPid | A02/sched.h:534-542 | The task becomes the most recent of the collection, and every next and pprev link is exact again |
| PidHash.PidTable.UnhashPid | A02/sched.h:544-549 | Exactly that task leaves the collection, whichever pointer pointed at it, and every other link is exact again |
| PidHash.PidTable.Perform | A02/sched.h:534-549 | After any legal history of calls the table holds the collection that FindsTheMostRecent speaks of |
| PidHash.PidTable.FindTaskByPid | A02/sched.h:551-559 | The walk along one chain returns the most recent hashed task with that pid, or null when there is none |

## Left out

Assumptions about the machine:

- Sequential consistency: `wmb`, `mb` and weak memory ordering are not modelled, and one lock region of `sched.c` is one step where the text above says so.
- pthread mutexes that another thread unlocks are binary semaphores; POSIX leaves that use undefined.
- Integers are unbounded; the wrap-around of `completion->done`, of counters and of the shares is not modelled.
- A worker's test and write of one matrix cell is one step; the cells it reads do not change while any worker is inside a row.

Transitive closure:

- The protocols take 0/1 matrices, which is all that `A01/wtc.c:70-100` builds; with other entries three of the versions (`A01/wtc_proc.c:15`, `A01/wtc_thr.c:22`, `A01/wtc_btproc.c:31`) test `M_prev[i][k]` for being nonzero and would differ from `A01/wtc_btthr.c:37`. `Warshall.Algorithm` takes any integers.
- The globals `head` and `iterator` start at 0 and a second call in one program is not modelled.
- Creating, destroying and freeing threads, processes, shared memory, mutexes and semaphores, printing, timing and file parsing: foreign calls. `pthread_join` is a wait for an exited worker.
- BagOfTasks.StuckRunIsComplete: `A01/wtc_btthr.c:120-124` destroys the mutexes of a thread before joining it, so that a thread may still lock and unlock a destroyed mutex; the model keeps them alive until every thread has exited.
- `A01/wtc_thr_cond_var_attempt.c`, `A01/wtc_proc_old.c` and the examples and generators: not part of the program.

Scheduler:

- Uniprocessor.OneRecalculation: the one-CPU model takes the recalculation as one step. The window in which ticks can come in is modelled in `Multiprocessor`, for one CPU or more; `Recalculation` shows that a second recalculation can happen there and what it takes.
- KernelObject.Scheduler.Choose: the same, since the object follows the one-CPU model.
- Uniprocessor.CountersStayInRange: not claimed for the patched formula, whose quanta grow with the number of processes.
- Recalculation.RunBoundsCounters: the same.
- RoundRobinFairness.RoundRobinIsFair: for the original formula and counters that start in their bound, because otherwise an ordinary task may outrank a real-time one.
- Multiprocessor.CommitsAreBest: need_resched and interprocessor interrupts are not modelled; a CPU may enter schedule at any time, which includes every time the program would.
- MultiprocessorEffects.YielderIsPassedOver: the unlocked sum of busy CPUs in `A02/sched.c:1077-1092` is left open: the model's yield step stands for a call that found somebody pending, and a call that found nobody is no step.
- RescheduleIdle.FindTarget: stops at the choice of the target; the flag and the interrupt that follow are not modelled, and neither is how the multiprocessor model's CPUs come to idle.
- The clock tick is not in these files; it lowers the current task's counter, never below 0, and on one CPU may ask for a reschedule. While a CPU switches, it may charge the old or the new task.
- Pending signals are a parameter of schedule; `fork`, `exit`, `nice`, `setscheduler` and the other system calls do not change the kernel models' task lists, policies or nice values.
- The policy word is a policy and a SCHED_YIELD bit; the idle tasks have the state and policy of INIT_TASK and are never queued, woken or put to sleep.
- The mm hand-over is modelled on one CPU only, and mm reference counts, `switch_mm`, kernel lock, `kstat` and `sleep_time` not at all.
- The run queue and the PID hash keep their pointers; wait queues, the task list and the run queue of the multiprocessor model are sequences. `list_add_tail` and `list_del` are those of the kernel's `list.h`, which is not part of this model. Task records are values in a table, and an object of `KernelObject` ignores their stored queue flag in favour of the list.
- Timers, `sleep_on`, non-exclusive waiters and `complete_all`: no completion uses them in these files.
- Completions are a transition system over values and have no class of their own, because each call is cut into steps by other tasks.
- The fair-share accounts are updated one event at a time and not while another CPU recalculates; `proc_sel(p, 0, 0)` selects the current process, `fork` itself counts the new process, and users do not change: all three in files that are not part of this model.
- `SharedQuantum` gives 0 for a count below 1, where C divides by zero.
- PidHash.PidTable.HashPid: hashing a task twice, or unhashing one that is not hashed, breaks the chains in the program too; callers do neither, and the contract asks for that.
- A03 (a network file system), `A02/entry.S`, `A02/unistd.h` and the other hunks of the patch: plumbing and tables.
