# uni-tasks: a verified model of the delayed-task scheduler

A Dafny model of the scheduler at the heart of uni-tasks: the time-ordered blocking queue, the
pool of worker threads that drains it, the task arithmetic that decides order and readiness, and
what is built on top of them (dispatcher, poll engine, request). `dafny verify dfyconfig.toml`
checks the whole project.

| file | what it models |
|---|---|
| `TaskTime.dfy` | due times, the two millisecond truncations, the order of the task set |
| `TaskQueue.dfy` | the set specialisation of `Queue`: abstract operations, and a class whose `WaitPop` keeps both loops of `wait_pop` and calls the predicate wait as a third |
| `TaskBase.dfy` | the fields of a task, its promise, the two id counters |
| `ThreadPool.dfy` | the pool as an object, under the schedule in which stop serves one worker at a time |
| `Pool.dfy` | the pool as a transition system: producers, workers and the thread calling start and stop interleave at the queue's mutex; a history records what happens |
| `PoolInvariant.dfy` | the invariant every step keeps |
| `TaskLife.dfy`, `PoolTheorems.dfy` | what follows for single tasks and for whole runs |
| `PoolDrain.dfy` | how many steps workers take: an overdue task is reached, the drain ends |
| `PoolRefinement.dfy` | refinement of one atomic object |
| `PoolVisits.dfy` | each worker's visit to `wait_pop` in a pool run is an execution of the class's `WaitPop` |
| `PoolLimits.dfy` | promises that hold for some pools only, with the runs that break them |
| `Dispatcher.dfy` | named pools, request ids, cancellation; a class over the pool objects |
| `ExecutionContext.dfy` | on which thread dispatched bodies run |
| `PollEngine.dfy` | the self-rescheduling poll chain racing with start, stop and other tasks of its pool, as a transition system |
| `PollTheorems.dfy` | when polling ends, and the distance between callbacks |
| `PollLimits.dfy` | overlapping and late callbacks: exactly when they can occur |
| `PollObject.dfy` | the poll engine as an object whose methods are runs of the transition system |
| `Request.dfy` | the one-shot request |

Time is an integer number of nanoseconds. In `Pool`, one action is one critical section of the
queue's mutex, one atomic access, or one event outside the lock (a timeout, a spurious wake-up, the
end of a task body, the passing of time). Which waiter `notify_one` wakes is left open, and closing
the queue and notifying everybody are two actions. "Reachable" always means: by some run of any
length, with any number of producers, from a pool that has not been started. The log in the state is
history only: no action looks at it.

## What turned out not to hold

Some things one might expect of the code are false. For each of them the model has a run that shows
it and the exact condition under which the code does what is expected:

- An overdue task can wait while a worker idles: a push may wake the one worker that was timing the
  head. This never happens exactly in pools of at most one thread and in pools that are given no
  delayed task (`NeverOverlooksIff`); the latter, whatever their size, have a worker on its way for
  every pending task as long as anybody idles (`WorkConserving`). What does hold for every pool is
  `DeadlineCoverage`, `OverdueIsNeverStuck` and `OverdueIsReached`.
- `public/uni/concurrency/ThreadPool.hpp:28-29` promises that stop executes the tasks added before it. That is true exactly for
  pools with at least one thread (`StopLeavesNothingIff`); those pools also run the tasks that were
  accepted after the started flag was cleared and before the queue was closed (`StopDrains`).
- A callback can begin after `PollEngine::stop` has cleared the flag, and even after it has returned:
  exactly when a callback is set and a thread had already read the flag (`LateCallbackIff`). A caller
  is safe from it exactly when the pool has no threads, or has one and stop is called on it
  (`NeverLateIff`). At most one callback is late for each start (`StopEndsPolling`).
- Callbacks can overlap: never exactly if the pool has at most one thread or start is called at most
  once (`AlwaysExclusiveIff`). One more start can lead to an overlap exactly when a callback is set,
  the pool has at least two threads and something of an earlier start is still pending, running or
  about to be dispatched (`RestartOverlapsIff`); that stop has returned in between does not rule it
  out (`RestartOverlaps`), but a stop that found no poll in progress does, once the poll task it may
  have missed has ended (`QuietStopKills`).

The two millisecond truncations (of due times for the order, of the difference to now for readiness)
agree for every clock reading from the epoch on (`HeadHidesNothingIff`), which is all that a clock
counting from boot delivers and all that `Pool` uses.

## Model

| member | source | states |
|---|---|---|
| TaskTime.ToMs | src/uni/tasks/TaskBaseImpl.cpp:46-51 | duration_cast truncates toward zero, on both sides of the epoch |
| TaskTime.BeforeIsStrictOrder | public/uni/tasks/TaskComparators.hpp:7-15 | the comparator is a strict order, and two tasks are equivalent for the set exactly when due millisecond and sequence id both agree |
| TaskTime.ReadyIff | src/uni/tasks/TaskBaseImpl.cpp:53-65 | a task counts as ready exactly from less than one millisecond before its due time on |
| TaskTime.HeadOfLine | public/uni/concurrency/Queue.hpp:184-189 | when the head is unready no task behind it is due; the wait started then ends by the head's due time, at an instant when that head is ready, and less than 1 ms after every other due time |
| TaskTime.HeadHidesNothingIff | src/uni/tasks/TaskBaseImpl.cpp:46-65 | the exact clock readings for which an unready head never hides a task that is due |
| TaskQueues.InsertSound | public/uni/concurrency/Queue.hpp:166-173 | insertion keeps the comparator order, loses nothing, and takes the task in unless its sequence id is already there |
| TaskQueues.InsertAddsExactlyOne | public/uni/concurrency/Queue.hpp:166-173 | with unique sequence ids insertion adds exactly one occurrence of the task |
| TaskQueues.SortedIsCanonical | public/uni/concurrency/Queue.hpp:141-145 | a sorted sequence is determined by its elements, so it represents the std::set faithfully |
| TaskQueues.WithoutExact | public/uni/concurrency/Queue.hpp:235-254 | removal leaves exactly the tasks with another id, still sorted, and shrinks the set exactly when one matched |
| TaskQueues.TaskQueue.Push | public/uni/concurrency/Queue.hpp:166-173 | refuses when closed, otherwise inserts and sends notify_one; whole new state |
| TaskQueues.TaskQueue.Close | public/uni/concurrency/Queue.hpp:211-219 | closes, leaves the elements alone and sends notify_all |
| TaskQueues.TaskQueue.Remove | public/uni/concurrency/Queue.hpp:235-254 | the erasing loop leaves exactly the other tasks, notifies nobody and reports true exactly when it removed one |
| TaskQueues.TaskQueue.WaitPop | public/uni/concurrency/Queue.hpp:175-208 | the open loop with its predicate wait and the drain loop together compute what one loop of "decide, wait, decide again" computes, for every script of interference during the waits |
| TaskQueues.WaitPopAnswer | public/uni/concurrency/Queue.hpp:175-208 | under any interference: a task handed out is less than 1 ms early and sorts before all it leaves behind; no task is handed out only by a closed empty queue; otherwise the caller is still waiting |
| TaskQueues.SleepObtainsHead | public/uni/concurrency/Queue.hpp:197-206 | one full-length wait without interference suffices to obtain the head |
| TaskBases.IdSource.Next | src/uni/utils/Utils.cpp:7-19 | each call returns an id larger by one than the last, starting from 1 |
| TaskBases.TaskBase.SetDueTime | src/uni/tasks/TaskBaseImpl.cpp:39-44 | changes the due time only; the delay seen at that instant is the one asked for |
| TaskBases.TaskBase.Run | src/uni/tasks/TaskBaseImpl.cpp:5-19 | settles an unsettled promise with a value or an exception according to the body, never a settled one; what escapes is an exception exactly when the body threw or the promise was settled before |
| TaskBases.TaskBase.Drop | public/uni/tasks/details/TaskBaseImpl.hpp:39 | when the task is destroyed a promise without a result becomes broken, any other keeps its result |
| TaskBases.FirstHandlingDecides | src/uni/tasks/TaskBaseImpl.cpp:5-19 | however often a task is run and dropped, its promise changes once, and its future shows what happened first |
| ThreadPools.ThreadPool.Start | public/uni/concurrency/details/ThreadPoolImpl.hpp:48-57 | throws when started; otherwise sets the flag and creates the configured number of threads |
| ThreadPools.ThreadPool.AddTask | public/uni/concurrency/details/ThreadPoolImpl.hpp:74-80 | the two refusals, started flag first, and the push |
| ThreadPools.ThreadPool.CancelPending | public/uni/concurrency/details/ThreadPoolImpl.hpp:95-100 | removes by request id and reports whether something was removed |
| ThreadPools.ThreadPool.WorkerThread | public/uni/concurrency/details/ThreadPoolImpl.hpp:103-135 | on a closed queue of n tasks: runs exactly those n in comparator order, one entry each with the task and whether it threw, with at most n timed waits, then leaves |
| ThreadPools.ThreadPool.Stop | public/uni/concurrency/details/ThreadPoolImpl.hpp:63-72 | throws when not started; otherwise closes, and with a thread to join has run everything pending in order, one entry for each task, when it returns |
| PoolInvariant.StepKeeps | public/uni/concurrency/details/ThreadPoolImpl.hpp:48-187 | every step of every thread keeps the invariant: sorted queue, coverage, exited workers mean closed and empty, tasks tracked by the history, ids unique, history well-formed |
| PoolInvariant.PushShape | public/uni/concurrency/Queue.hpp:166-173 | push with notify_one keeps coverage, whichever waiter is woken |
| PoolInvariant.CancelShape | public/uni/concurrency/Queue.hpp:235-254 | cancellation keeps coverage although it notifies nobody |
| PoolInvariant.TakeLockShape | public/uni/concurrency/Queue.hpp:180-207 | a worker that waits, extracts, idles or leaves keeps coverage and the meaning of having left |
| PoolInvariant.CreateFresh | src/uni/utils/Utils.cpp:14-19 | a new task's sequence id is new to the history and stays its own |
| PoolInvariant.ReachableInv | public/uni/concurrency/details/ThreadPoolImpl.hpp:48-187 | the invariant holds in every reachable state |
| TaskLife.LifeMovesForward | public/uni/concurrency/details/ThreadPoolImpl.hpp:103-135 | a task's life (created, admitted, pending, run, then done or cancelled) only moves forward; a refused add_task leaves the task with its producer |
| TaskLife.AcceptedStatus | public/uni/concurrency/Queue.hpp:166-173 | the queue accepted exactly the tasks that are pending, run, done or cancelled |
| PoolTheorems.AtMostOnce | public/uni/concurrency/details/ThreadPoolImpl.hpp:103-135 | no task is created, accepted, extracted or finished twice in any run |
| PoolTheorems.Conservation | public/uni/concurrency/details/ThreadPoolImpl.hpp:103-135 | accepted tasks are the disjoint union of queued (once), being run (by one worker), done and cancelled |
| PoolTheorems.FutureSettlesOnce | src/uni/tasks/TaskBaseImpl.cpp:5-19 | over any run each promise is settled at most once: value iff the body returned, exception iff it threw, broken iff the task was cancelled while pending, unset otherwise |
| PoolTheorems.FinishSettles | public/uni/concurrency/details/ThreadPoolImpl.hpp:117-127 | the step that ends a task's body turns its future from not ready into the body's own outcome |
| PoolTheorems.CancelSettles | public/uni/concurrency/Queue.hpp:235-254 | cancellation breaks the promises of exactly the pending tasks under the id |
| PoolTheorems.ExtractionOrder | public/uni/concurrency/Queue.hpp:182-187 | if a sorts before b and was accepted before b was extracted, a was extracted or cancelled in between; any number of workers and producers |
| PoolTheorems.WorkerTakesTurns | public/uni/concurrency/details/ThreadPoolImpl.hpp:106-134 | between two extractions by one worker the first task finishes |
| PoolTheorems.SingleThreadFifo | public/uni/tasks/details/TaskBaseImpl.hpp:35-38 | with one thread, undelayed tasks created and pushed in turn have finished or been cancelled before the next one is extracted, whatever other producers do |
| PoolTheorems.NeverEarly | public/uni/concurrency/Queue.hpp:184-188 | no task is extracted a millisecond or more before its due time |
| PoolTheorems.WaitingMeansNothingDue | public/uni/concurrency/Queue.hpp:184-189 | in every reachable state in which a worker would wait on the head, no pending task is due |
| PoolTheorems.DeadlineCoverage | public/uni/concurrency/Queue.hpp:166-208 | no lost wake-up: with tasks pending some worker is awake or busy, or in a timed wait that ends less than 1 ms after every pending due time |
| PoolTheorems.OverdueIsNeverStuck | public/uni/concurrency/Queue.hpp:166-208 | when a pending task is 1 ms overdue some worker can act at once |
| PoolTheorems.StartCreatesTheThreads | public/uni/concurrency/details/ThreadPoolImpl.hpp:162-171 | once start has returned the pool has exactly the configured number of threads |
| PoolTheorems.AdmissionFollowsTheFlag | public/uni/concurrency/details/ThreadPoolImpl.hpp:74-80 | over any run, add_task passes the started check exactly between a start and the next stop, and the queue's check exactly before close |
| PoolTheorems.CheckIsAnswered | public/uni/concurrency/details/ThreadPoolImpl.hpp:74-80 | the started check gives every task exactly one answer, decided by the history; a refused task stays with its producer |
| PoolTheorems.PushIsAnswered | public/uni/concurrency/Queue.hpp:166-173 | a push is never held up: before close the task is in the queue, once, and somebody is woken iff anybody waits; after it the task is back with its producer |
| PoolTheorems.LeaversAreKnown | public/uni/concurrency/details/ThreadPoolImpl.hpp:110-114 | the threads that have ended are exactly those the history reports |
| PoolTheorems.ClosingHasACause | public/uni/concurrency/details/ThreadPoolImpl.hpp:63-72 | over any run the queue is closed, notified or joined only after stop was called on a started pool or the destructor ran |
| PoolTheorems.StopDrains | public/uni/concurrency/details/ThreadPoolImpl.hpp:59-72 | with at least one thread, when stop or the destructor returns every task ever accepted is done or cancelled, late ones included, and stays so |
| PoolTheorems.StopSettlesEveryFuture | public/uni/concurrency/details/ThreadPoolImpl.hpp:173-178 | with at least one thread, once stop has returned the future of every accepted task is ready: value iff it returned, exception iff it threw, broken promise iff it was cancelled |
| PoolTheorems.WorkersLeaveLast | public/uni/concurrency/details/ThreadPoolImpl.hpp:110-133 | a worker leaves only after close and with nothing pending, then or later; a throwing task does not end it |
| PoolTheorems.CloseIsFinal | public/uni/concurrency/Queue.hpp:281-288 | once the queue is closed no later call sequence, start included, gets a task accepted |
| PoolTheorems.StoppedPoolRunsNothing | public/uni/concurrency/details/ThreadPoolImpl.hpp:48-80 | after stop has returned nothing is ever extracted again, even after a second start |
| PoolTheorems.StoppedPoolSendsWorkersHome | public/uni/concurrency/details/ThreadPoolImpl.hpp:48-57 | workers of a second start leave as soon as they get the lock |
| PoolLimits.StopLeavesNothingIff | public/uni/concurrency/details/ThreadPoolImpl.hpp:173-178 | stop leaves the queue empty exactly for pools with at least one thread |
| PoolLimits.NeverOverlooksIff | public/uni/concurrency/Queue.hpp:166-194 | exactly pools of at most one thread, and pools given no delayed task, never let a task be 1 ms overdue beside an idle worker that nobody is going to wake |
| PoolLimits.WorkConserving | public/uni/concurrency/Queue.hpp:166-194 | over every run without delayed tasks, any number of threads: while a worker idles, at most as many tasks are pending as workers are about to look at the queue |
| PoolDrain.NobodySpins | public/uni/concurrency/Queue.hpp:180-207 | between calls of start and stop, in any run, workers take at most pending * (4N + 1) + 4N steps, plus 8N + 1 per accepted task and 3 per spurious wake-up |
| PoolDrain.OverdueIsReached | public/uni/concurrency/Queue.hpp:180-207 | a task 1 ms overdue is still pending only while the workers have taken fewer steps than that, and then one of them can take another |
| PoolDrain.OverdueCanBeServed | public/uni/concurrency/Queue.hpp:180-207 | from every state with a task 1 ms overdue, worker steps alone lead to its extraction |
| PoolDrain.DrainIsBounded | public/uni/concurrency/Queue.hpp:197-219 | after notify_all, in any run, workers take at most pending * (4N + 1) + 4N steps, plus one per spurious wake-up, whatever else is submitted or cancelled |
| PoolDrain.NoUntimedWaitInDrain | public/uni/concurrency/Queue.hpp:211-219 | after notify_all no worker is ever in the untimed wait |
| PoolDrain.NotifyAllWakesEverybody | public/uni/concurrency/Queue.hpp:211-219 | after notify_all no worker is in a wait, timed or not; each one that was can take the lock, the others are undisturbed |
| PoolDrain.StopNeedsNoTimeIff | public/uni/concurrency/Queue.hpp:197-219 | from every state in which stop closes or notifies: it can return without any time passing iff the pool has no threads or every pending task is ready |
| PoolDrain.EmptyStopIsPrompt | public/uni/concurrency/Queue.hpp:197-219 | a stop that finds the queue empty can return by closing, notifying, joining, lock-taking and finishing alone, whatever the workers waited for |
| PoolDrain.StopCallCanReturn | public/uni/concurrency/details/ThreadPoolImpl.hpp:63-72 | stop, called on a started pool in any reachable state, can return, with the queue closed |
| PoolDrain.StopCanReturn | public/uni/concurrency/details/ThreadPoolImpl.hpp:143-178 | from every state in which stop closes, notifies or waits for its threads, its own steps, worker steps and time alone let it return |
| PoolDrain.DestructorCanReturn | public/uni/concurrency/details/ThreadPoolImpl.hpp:40-46 | the same for the destructor, called at any time between other calls |
| PoolRefinement.RunRefines | public/uni/concurrency/Queue.hpp:166-219 | step by step every run is a run of one atomic object (submit, take the least if due, remove by id, close); waits and wake-ups are stutters; "empty" is reported only when closed and empty |
| PoolRefinement.PoolRefinesAtomicQueue | public/uni/concurrency/Queue.hpp:166-219 | the same from the initial state |
| PoolVisits.VisitIsWaitPop | public/uni/concurrency/Queue.hpp:175-208 | a worker's stay in wait_pop during any run returns what the class's WaitPop returns under the other threads' actions, with the same queue, time and number of waits |
| Dispatcher.TaskDispatcher.constructor | src/uni/common/TaskDispatcherImpl.cpp:7-17 | one new stopped empty pool per configured name, with the configured thread count |
| Dispatcher.FirstEntryCounts | src/uni/common/TaskDispatcherImpl.cpp:10-16 | a name is configured exactly when some entry has it, and the first such entry gives the thread count |
| Dispatcher.TaskDispatcher.DispatchAutomatic | public/uni/common/details/TaskDispatcherImpl.hpp:33-40 | a fresh id is drawn even if the pool is unknown or refuses; whole new state |
| Dispatcher.TaskDispatcher.DispatchWithId | public/uni/common/details/TaskDispatcherImpl.hpp:42-50 | the task goes to the named pool under the caller's id |
| Dispatcher.TaskDispatcher.CancelPendingTasks | src/uni/common/TaskDispatcherImpl.cpp:39-48 | removes by id in the named pool; an unknown pool is ignored |
| Dispatcher.TaskDispatcher.CancelAndDispatch | public/uni/common/details/TaskDispatcherImpl.hpp:25-31 | removal first, then the follow-up under a fresh id |
| Dispatcher.DispatchAddsExactlyOne | public/uni/common/details/TaskDispatcherImpl.hpp:42-50 | adds exactly the task to exactly the named pool, or changes nothing |
| Dispatcher.AutomaticAddsExactlyOne | public/uni/common/details/TaskDispatcherImpl.hpp:33-40 | draws an id never issued and never used, and adds exactly the task under it to exactly the named pool iff that pool is started and open |
| Dispatcher.IssuedIdIsNew | src/uni/utils/Utils.cpp:7-12 | an id given to a user was never given out before and no pending task has it |
| Dispatcher.RepliesTell | public/uni/common/details/TaskDispatcherImpl.hpp:42-50 | which of the refusals a dispatch meets: unknown pool, stopped pool, closed queue |
| Dispatcher.CancelIsPrecise | public/uni/common/details/TaskDispatcherImpl.hpp:25-60 | when users only use ids that were issued to them, cancel removes exactly the tasks dispatched under that id in that pool: no task with an automatic id or id 0, and nothing in another pool |
| Dispatcher.CancelReplaces | public/uni/common/details/TaskDispatcherImpl.hpp:25-31 | afterwards no task under the id is left in the named pool; for every task the count is as before for other ids, plus one for the follow-up iff the pool is started and open; no other pool changes |
| Dispatcher.FollowUpIsSafe | public/uni/common/details/TaskDispatcherImpl.hpp:25-40 | the follow-up is enqueued under an id never issued and never used, next to every task with another id |
| ExecutionContext.OnOneOfThreads | public/uni/concurrency/details/ThreadPoolImpl.hpp:82-93 | the loop finds the calling thread exactly when it is one of the pool's |
| ExecutionContext.BodiesRunInContext | public/uni/common/details/TaskDispatcherImpl.hpp:166-179 | for any nesting and any interleaving over any pools: a body sent to P runs on a thread of P, the assertion in it passes exactly for P and throws otherwise, dispatch_or_execute in it is inline exactly for P and enqueues otherwise, and an unknown pool throws |
| ExecutionContext.SendingStep | public/uni/common/details/TaskDispatcherImpl.hpp:166-179 | a sent body either lies on top of the caller, who goes on behind the statement, for the same pool, or is one more in the queue |
| ExecutionContext.NobodyIsStuck | public/uni/common/details/TaskDispatcherImpl.hpp:166-179 | a thread with a body can always go on, an idle thread of the pool a queued body was sent to can begin it |
| ExecutionContext.EveryBodyRunsOnce | public/uni/common/details/TaskDispatcherImpl.hpp:166-179 | over every run each body that was sent has begun exactly once or is still queued, and nothing else has begun |
| PollEngine.LiveAtMostStarts | src/uni/common/PollEngineImpl.cpp:13-18 | poll tasks pending, running or about to be dispatched never outnumber the start calls |
| PollEngine.DispatchAdds | src/uni/common/PollEngineImpl.cpp:57-66 | the pool gets exactly one task, with the due time stamped and the id loaded, unless it refuses; no other step adds one |
| PollEngine.StopTakes | src/uni/common/PollEngineImpl.cpp:20-26 | the cancellation takes exactly the poll tasks under the loaded id and touches nothing else |
| PollTheorems.PollingGoesOn | src/uni/common/PollEngineImpl.cpp:40-66 | as long as nobody stops, throws or refuses there is exactly one poll task for every call of start, for every interleaving |
| PollLimits.CallbackFollowsIff | src/uni/common/PollEngineImpl.cpp:40-66 | while the flag is set a callback can follow iff one is set, the pool has a thread and some poll task lives |
| PollLimits.AlwaysExclusiveIff | src/uni/common/PollEngineImpl.cpp:40-55 | callbacks never overlap exactly for pools of at most one thread or at most one call of start |
| PollLimits.RestartOverlaps | src/uni/common/PollEngineImpl.cpp:13-26 | with two threads or more, callbacks can overlap although stop has returned between the two starts |
| PollLimits.RestartOverlapsIff | src/uni/common/PollEngineImpl.cpp:13-18 | from every reachable state, one more start can lead to an overlap iff a callback is set, the pool has two threads or more, and some poll task is pending, running or about to be dispatched |
| PollLimits.NeverLateIff | src/uni/common/PollEngineImpl.cpp:20-26 | after stop has cleared the flag no callback begins until the next start, exactly for pools without threads and for stop called on the only thread |
| PollTheorems.StopEndsPolling | src/uni/common/PollEngineImpl.cpp:20-26 | after the flag is cleared, per start at most one callback begins, at most one poll task looks at the flag, and at most ten steps remain, for every interleaving |
| PollTheorems.LateCallbackIff | src/uni/common/PollEngineImpl.cpp:45-53 | a callback can still begin exactly when one is set and some thread had already read the flag |
| PollTheorems.QuietStopKills | src/uni/common/PollEngineImpl.cpp:20-26 | with a single start, a stop that begins between two polls ends them, for every interleaving of its three steps: no callback begins, and when it returns no poll task is pending |
| PollTheorems.PollPeriod | src/uni/common/PollEngineImpl.cpp:57-66 | in any run with one start the k-th callback after it begins later than k * (ms - 1) ms after it, if the interval never falls below ms |
| PollTheorems.NextPollIsNear | src/uni/common/PollEngineImpl.cpp:57-66 | in any run whose interval never exceeds ms every pending poll task is due within ms from now |
| PollObject.PollEngineImpl.RunImpl | src/uni/common/PollEngineImpl.cpp:57-66 | adds exactly the poll task due one interval from now, under the next id, which is remembered; a run of the machine |
| PollObject.PollEngineImpl.StartImpl | src/uni/common/PollEngineImpl.cpp:13-18 | sets the flag and adds exactly the poll task due one interval from now |
| PollObject.PollEngineImpl.StopImpl | src/uni/common/PollEngineImpl.cpp:20-26 | clears the flag and takes exactly the poll tasks under the remembered id |
| PollObject.PollEngineImpl.PollImpl | src/uni/common/PollEngineImpl.cpp:40-55 | outside the pool the assertion fails and nothing else happens; nothing when not running; otherwise the callback, if there is one, then the next poll unless the callback threw |
| Requests.Request.Start | src/uni/common/RequestImpl.cpp:22-32 | whole new state and the reply, for a set, empty or throwing callback |
| Requests.Request.Cancel | src/uni/common/RequestImpl.cpp:34-44 | whole new state and the reply; the future is moved out in every case |
| Requests.StartEnters | src/uni/common/RequestImpl.cpp:22-32 | after any calls start enters its callback, once, iff the last call was not start, a callback was given and it has not succeeded; what it gives is stored |
| Requests.CancelEnters | src/uni/common/RequestImpl.cpp:34-44 | after any calls cancel enters its callback, once and with the future stored, iff the last call was start, a callback was given and it has not returned |
| Requests.EachCallbackOnce | src/uni/common/RequestImpl.cpp:22-44 | over any call sequence each callback returns normally at most once |
| Requests.CancelGetsTheFuture | src/uni/common/RequestImpl.cpp:30-43 | the first entry into the cancel callback after a successful start gets that start's future |
| Requests.CancelNeedsStart | src/uni/common/RequestImpl.cpp:34-44 | the cancel callback is entered at most once per attempt to start |

## Left out

Assumptions and reductions:

- In `Pool` the clock reading in `delay()` and the start of the following `wait_for` are one instant; both happen under the lock.
- Concurrent callers of start, stop and the destructor of one pool, stop called from one of its own workers, and the reads of the thread list while do_start still fills it.
- 64-bit overflow: of the id counters, and of milliseconds converted to nanoseconds.
- Thread creation failure, and exceptions that are not std::exception (they end the process).
- A task body is its outcome (returned or threw), except in `ExecutionContext`, where it is a program of dispatcher calls.
- Fairness of the operating system's scheduler and upper bounds on latency: the drain theorems bound the number of steps and show that some step can always be taken.
- PollEngine: does not include changes of the callback while polling; the pool below appears through what it guarantees (a task runs only when ready and on a free thread, cancellation by id reaches pending tasks only), and its order among ready poll tasks is left open.
- ThreadPools.ThreadPool.Stop: covers one schedule, in which each worker runs when it is joined; all schedules are covered by `Pool`.
- TaskQueues.TaskQueue: the std::set is a sorted sequence, and other threads reach the object through the interference script of `WaitPop` rather than through threads of their own.
- Dispatcher: the loops over all pools in start and stop (their order is unspecified, and a throwing pool ends them early).
- Requests.Request: reentrant and concurrent calls.

Not modelled, because it has no property of its own or only easier ones:

- The generic deque `Queue` (Queue.hpp:28-139), which the pool does not use.
- Overloads and forwarding in TaskFactory, Task, MemberFnTask, TaskDispatcher and TaskDispatcherBasic; pimpl wrappers, Runtime and the factories.
- Logging, the demo component and the build.
