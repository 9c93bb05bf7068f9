# dLeyna task processor and UDN paths: a verified model

This project models two parts of libdleyna-core and proves what they promise.

**The task processor with its service tasks** (`libdleyna/core/task-processor.c`,
`libdleyna/core/service-task.c`). A processor keeps a table of FIFO queues under
(source, sink) keys, runs at most one task of each queue at a time from main-loop idle
sources, and supports AUTO_START and AUTO_REMOVE queues, cancellation, deferred removal,
removal by source or sink, and shutdown. A service task that waits for a reply is
completed from inside the processor's own cancel path, so that cancelling, removing and
quitting re-enter the processor while it walks its table.

**The escaping of a UDN into a D-Bus path element** (`libdleyna/core/core.c`): a loop that
fills a buffer of bounded size, and the question when its result can be decoded.

## How it is organised

| file | content |
|---|---|
| `Protocol.dfy` | The callback log of one queue: the logs a queue may produce, and what every such log guarantees (order, exactly-once, conservation, the finally callback) |
| `Scheduler.dfy` | The processor as a state machine on values: one function per C function, plus the operations of a run and what they demand of the caller |
| `Invariant.dfy`, `Tables.dfy`, `Sums.dfy`, `Wrappers.dfy` | The invariant, and the proof that every operation keeps it |
| `Removal.dfy` | Cancel and removal sweeps in closed form, independent of the visiting order |
| `Shutdown.dfy` | `set_quitting`: a sweep during which the table may be emptied |
| `Histories.dfy` | What the invariant says about a queue's whole history |
| `Runs.dfy` | Safety over every run |
| `Progress.dfy` | How queues evolve over a run: drain, deferral, wake-ups, what holds at rest, failures |
| `Callbacks.dfy` | Runs as the clients see them: reports on callbacks and awaited actions always meet their own task |
| `Settling.dfy` | Runs of dispatches and reports alone: they end, at rest, with every chain run to its end |
| `Discipline.dfy` | A rule for callers under which nothing below about removals needs a side condition |
| `Commands.dfy` | That what callers ask for is what happens: the make of a queue, its finally callback, removal by name, whom a cancel and a failure tell |
| `Starts.dfy`, `Quitting.dfy` | Which queues start tasks at all; completions and removals while quitting |
| `Sessions.dfy` | A run, a shutdown and what follows it: how often the quit callback is scheduled |
| `Witnesses.dfy` | Runs that show the side conditions are needed |
| `Queues.dfy`, `Processor.dfy` | Tasks, queues and the processor as objects updated in place, each method proved to compute the function of `Scheduler.dfy` |
| `UdnPath.dfy` | The escaping loop on an array, its bounds, and the decoder |

A run is a sequence of operations chosen freely: calls by users of the processor (also
from inside the callbacks of running tasks), idle sources fired in any order by the main
loop, actions that return, replies that arrive. The table is visited in an arbitrary
order, each key only while it is still in the table. Each queue has a log of the
callbacks it made; the invariant says that `Protocol.Replay`, which knows nothing about
the processor, accepts the log and arrives at the queue's fields.

What the code relies on is stated in two places. `Scheduler.Legal` restricts the calls of
users: `add_queue` gets a new key; a task is added once; `queue_start` is not called on an
AUTO_REMOVE queue that is running its last task (lines 410-413 would remove the queue under
it). `Callbacks.Permitted` restricts clients, by their own books: they report once on each
callback and each awaited action; a failing action returns NULL; an action does not get its
own queue cancelled and then go on waiting; an action whose cancel callback has run does not
call back. That the task is then the current one of a live queue, which the unconditional
calls at `service-task.c:82` and `service-task.c:97` need and `Legal` repeats, is not asked
of anybody: `Callbacks.PlaysAreSound` proves it. Delete, cancel and finally callbacks do not
call the processor, except for the completion of a service task by its cancel callback.

## Where the code keeps a promise only under a condition

- The `cancelled` flag is cleared only when a task is started (line 378). A queue that was
  cancelled and then given tasks ignores the next cancel (`Commands.CancelTellsAll`), and
  if it is removed while scheduled its idle source is left behind. `Removal.RemovalAgreesIff`
  gives the exact condition; `Witnesses.StaleFlagOrphansSource` is a run of four calls. The
  statements over runs below ask that no removal meets such a queue (`Runs.Clean`). Callers
  can make sure of that: it never happens if no task is added to a queue between a cancel and
  the next start of a task (`Discipline.DisciplinedRunsAreSafe`,
  `Discipline.AllowedPlaysAreSound`).
- `set_quitting` ends every queue's history properly if and only if every running task is
  waiting for a reply (`Shutdown.ShutdownCleanIff`); otherwise the queue is freed under its
  task (`Witnesses.QuitUnderStartingTask`).
- During `set_quitting` the completion that brings `running_tasks` to zero empties the table
  (line 464); scheduled queues not visited yet keep their idle source.
  `Shutdown.ShutdownLeavesSourcesIff` says exactly which for a given visiting order,
  `Shutdown.ShutdownNeverLeavesSourcesIff` when no order leaves any, and
  `Witnesses.QuitDependsOnOrder` shows a state in which it depends on the order.
- `add_task` does not look at `quitting` (lines 436-438), so an AUTO_START queue added after
  the shutdown still runs, and its completion schedules the quit callback again
  (`Witnesses.QuitScheduledTwice`). `Sessions.QuitsOfSession` counts how often; it is once if
  no queue is added after the shutdown (`Sessions.QuitScheduledOnce`).
- A failing action ends its AUTO_REMOVE chain unless the queue had been cancelled, and given
  tasks again, while the action ran (`Progress.FailureEndsChainIff`;
  `Witnesses.FailureDoesNotEndChain` is a run).
- The comment at `core.c:36-37` promises that limits are checked. The loop tests the index
  before a step that may write three characters, and the limit is not a multiple of three:
  a long UDN can run over the end of the buffer. `UdnPath.FitsIff` says exactly which ones
  stay inside, `UdnPath.DashesOverrun` gives a family that does not, and nothing shorter than
  a third of the limit is affected (`UdnPath.ShortUdnFits`).
- The escaping cannot be undone when the UDN contains an underscore (`UdnPath.RoundTripIff`).
- The comment at `core.c:44-45` shows upper-case hexadecimal digits; the code writes lower
  case, and so does the model.

## Model

| member | source | states |
|---|---|---|
| Protocol.CompletionsAreStarts | libdleyna/core/task-processor.c:455-458 | In every log the protocol accepts the completions are the starts, in the same order, but for the task now running; starts are a subsequence of additions without repetition |
| Protocol.DeletedAtMostOnce | libdleyna/core/task-processor.c:420-458 | Every task added is exactly one of deleted, pending or current, and that once |
| Protocol.NothingAfterDelete | libdleyna/core/task-processor.c:175-181 | After its delete callback no callback of a task follows in the log |
| Protocol.FlagIsHistory | libdleyna/core/task-processor.c:188-191 | The cancelled flag is set if and only if a cancel was asked for after the most recent start, or since creation when nothing was started |
| Protocol.FinallyIsLast | libdleyna/core/task-processor.c:93-109 | The finally callback is the last entry of a log, its argument tells whether a cancel came after the last start, and all tasks are deleted by then |
| Protocol.FifoBetweenCuts | libdleyna/core/task-processor.c:380-431 | On any stretch of a log in which nothing was dropped: pending before ++ added = started ++ pending after |
| Invariant.AddTaskKeepsCore | libdleyna/core/task-processor.c:420-443 | Adding a task keeps the whole invariant: log and fields, table, running count, ownership, no lost wake-up |
| Invariant.StartKeepsCore | libdleyna/core/task-processor.c:390-418 | So does starting a queue, scheduling or removing it |
| Invariant.DispatchKeepsCore | libdleyna/core/task-processor.c:368-388 | So does the dispatch of a scheduled queue |
| Invariant.TaskCompletedKeepsCore | libdleyna/core/task-processor.c:445-479 | So does the completion of a task, quitting or not |
| Invariant.CancelKeepsCore | libdleyna/core/task-processor.c:183-223 | So does a cancel, including the re-entrant completion of a waiting task |
| Invariant.RemoveAllKeepsCore | libdleyna/core/task-processor.c:462-464 | So does emptying the table when nothing runs |
| Invariant.ActionReturnsKeepsCore | libdleyna/core/service-task.c:85-98 | So does the rest of the process callback, for every combination of result and failure |
| Callbacks.StepKeepsSlot | libdleyna/core/task-processor.c:183-346 | Any operation leaves every queue's current task in its slot, in the same phase, and puts no other there, unless it is that queue's own dispatch, a report by its own client, or a cancel that ends an awaited task |
| Callbacks.ReportsMeetTheirTask | libdleyna/core/service-task.c:79-97 | A client that reports on a callback under way or an awaited action, by its own books only, meets its own task as the current one of a live queue |
| Callbacks.MoveKeepsTracks | libdleyna/core/service-task.c:73-113 | After any permitted move the clients' books again list exactly the current tasks of the live queues, with their phases; actions called off by the cancel callback are struck out |
| Callbacks.PlaysAreSound | libdleyna/core/service-task.c:73-113 | Over every interleaving of calls, dispatches, reports and re-entrant cancels and removals, except removals that meet a queue cancelled, given work and scheduled again, no report ever misses its task and no dispatch crashes |
| Discipline.StepKeepsEmptied | libdleyna/core/task-processor.c:188-195 | If no task is added to a queue between a cancel and its next start, a live cancelled queue has nothing pending, and no removal is of the excepted kind |
| Discipline.DisciplinedRunsAreSafe | libdleyna/core/task-processor.c:142-490 | Runs in which callers keep that rule never crash and keep the invariant, whatever is removed when |
| Discipline.AllowedPlaysAreSound | libdleyna/core/service-task.c:73-113 | The same for plays: under that rule every report meets its own task over every interleaving, with no exception |
| Callbacks.PlaysAreRuns | libdleyna/core/service-task.c:73-113 | Every such play is a legal run, so that everything proved about runs holds of it |
| Callbacks.ReportedExactlyOnce | libdleyna/core/service-task.c:73-113 | At the end of any play, for each queue: starts = completions ++ current task, each task started once and in order of addition, no completion without a current task, and for a task still running exactly its client's report is outstanding |
| Histories.StartsAndCompletions | libdleyna/core/task-processor.c:455-458 | For a queue that satisfies the invariant: starts = completions ++ current task; starts follow the order of additions; each task is cancelled at most once; the log holds no completion without a current task |
| Histories.UncancelledIsFifo | libdleyna/core/task-processor.c:380-431 | A queue never cancelled satisfies added = started ++ pending |
| Histories.FinallyRunsOnce | libdleyna/core/task-processor.c:93-109 | No finally while the queue lives; when it is freed finally runs once, last, with TRUE if and only if a cancel came after the last start, and every task added has been deleted |
| Commands.FinallyRunsAsSet | libdleyna/core/task-processor.c:481-490 | After set_finally with a callback, in every run that does not set it again, the queue's last callback when it is freed is finally, also when it is freed by a shutdown; after set_finally with none it never is |
| Commands.NoFinallyUnasked | libdleyna/core/task-processor.c:161-166 | A queue on which no finally callback was ever set runs none, in every run |
| Commands.QueueKeepsItsMake | libdleyna/core/task-processor.c:156-168 | In every run a queue keeps the key, flags and callbacks it was added with, and is filed under its key until it is freed |
| Progress.ChainsEnd | libdleyna/core/task-processor.c:465-476 | When no idle source is pending and nothing runs, every AUTO_REMOVE queue that started anything, AUTO_START or not, has been freed with all tasks deleted and all starts completed; if it was never cancelled, these are all its tasks in order, and its log ends with finally(FALSE) |
| Settling.SettlingIsBounded | libdleyna/core/task-processor.c:368-479 | However dispatches and reports are scheduled, each one uses up effort, so there is a bound on how many can follow; they add and cancel nothing and put no queue to sleep |
| Settling.AtRestIff | libdleyna/core/task-processor.c:368-479 | No source is pending and nothing runs if and only if there is nothing to dispatch and nothing to report: a settling run that cannot go on has come to rest |
| Settling.ComesToRest | libdleyna/core/task-processor.c:368-479 | From every state of the invariant dispatches and reports of clients that do not fail, and nothing else, lead to rest |
| Settling.SettledQueuesRanAll | libdleyna/core/task-processor.c:445-479 | However the processor settles, at rest every queue that was scheduled, running or empty and never cancelled has started and completed exactly the tasks it had been given, in order; an AUTO_REMOVE queue that had any is freed, its log ending with finally(FALSE) if finally was set |
| Settling.BegunChainsRunOut | libdleyna/core/task-processor.c:445-479 | After every run, an AUTO_REMOVE chain that has begun and was never cancelled can be run to that end by dispatches and reports alone |
| Settling.StartedChainsRunOut | libdleyna/core/task-processor.c:390-418 | So does every chain set going by queue_start, however the run goes on by dispatches and reports |
| Histories.TaskConservation | libdleyna/core/task-processor.c:420-458 | A task ever added belongs to one queue instance and is there pending, current or deleted, exactly one of them, once; a task never added is nowhere |
| Histories.RunningIsPositive | libdleyna/core/task-processor.c:460-462 | running_tasks is the number of live queues with a current task, so decrementing it for one of them cannot underflow |
| Removal.CancelClosed | libdleyna/core/task-processor.c:183-223 | The whole effect of a cancel, re-entrant completion and removal included, as one change to one queue, the table, the count and the sources |
| Commands.CancelTellsAll | libdleyna/core/task-processor.c:188-204 | A first cancel calls the cancel and delete callbacks of every pending task and the cancel callback of the current one, and leaves nothing pending; a cancel of a queue still marked cancelled changes nothing |
| Commands.CancelTakesIff | libdleyna/core/task-processor.c:202-221 | A cancel outside shutdown takes the queue out of the table if and only if it was AUTO_REMOVE, not marked cancelled, and idle or waiting for a reply |
| Removal.RemovalClosedForm | libdleyna/core/task-processor.c:278-346 | For every visiting order a removal does the same: each selected queue is freed, or cancelled and deferred when its task cannot end at once; other queues are untouched; the invariant is kept |
| Removal.RemovalAgreesIff | libdleyna/core/task-processor.c:188-200 | A removal keeps idle sources and scheduled queues in bijection if and only if it meets no queue that was cancelled, given work and scheduled again |
| Removal.SelectiveRemoval | libdleyna/core/task-processor.c:278-346 | When all running tasks wait for replies, a removal by source leaves exactly the queues with another source, one by sink exactly those with another sink, unchanged in every field, and lowers running_tasks by the number of running queues removed |
| Commands.RemovalByNameAtRest | libdleyna/core/task-processor.c:286-321 | The keys left then are those whose source, or sink, differs from the name given |
| Commands.RemovalByName | libdleyna/core/task-processor.c:286-321 | At any point outside shutdown: a queue whose source, or sink, is the name given is freed, or deferred when its task runs and cannot be ended at once; every other queue is as it was |
| Quitting.RemovalAtAnyTime | libdleyna/core/task-processor.c:278-346 | The same while quitting, unless the completion of the last task has emptied the table |
| Removal.RemovalsCommute | libdleyna/core/task-processor.c:300-346 | Two removals, by source or sink, commute on the whole state, whatever orders their sweeps use |
| Shutdown.SweepEnds | libdleyna/core/task-processor.c:240-263 | The outcome of the shutdown sweep in closed form for every order, although a completion may empty the table on the way |
| Shutdown.ShutdownClosedForm | libdleyna/core/task-processor.c:250-263 | From any state of the invariant: table empty, every queue freed, running_tasks = number of tasks not waiting for a reply, quit callback scheduled once if that is zero and else not at all |
| Shutdown.ShutdownCleanIff | libdleyna/core/task-processor.c:250-263 | The shutdown leaves the invariant standing if and only if every running task is waiting for a reply |
| Shutdown.ShutdownDelivers | libdleyna/core/task-processor.c:250-263 | In that case: empty table, no running task, one more scheduled quit callback, every task deleted exactly once, every start completed, every finally that was set run exactly once and last |
| Shutdown.ShutdownNeverLeavesSourcesIff | libdleyna/core/task-processor.c:462-464 | The shutdown leaves no idle source of a freed queue, whatever the visiting order, if and only if no queue is scheduled while it is marked cancelled or while tasks run that all wait for replies |
| Runs.DispatchIsSafe | libdleyna/core/task-processor.c:368-388 | A pending idle source belongs to a live queue with pending tasks and no current one, so the dispatch finds its queue and a head and overwrites nothing |
| Runs.StepKeepsInvIff | libdleyna/core/task-processor.c:142-490 | Every legal operation succeeds, schedules no quit callback, and keeps the full invariant, main loop included, if and only if it is not a removal of the kind described by Removal.RemovalAgreesIff |
| Runs.RunsAreSafe | libdleyna/core/task-processor.c:142-490 | By induction over any run up to a shutdown: no dispatch crashes, no quit callback is scheduled, and the invariant holds at its end |
| Sessions.QuitsOfSession | libdleyna/core/task-processor.c:250-263 | Over any run, one set_quitting and any run after it: the quit callback has been scheduled once if all running tasks waited for replies at the shutdown, plus once for each time the running tasks have run out since |
| Sessions.QuitScheduledOnce | libdleyna/core/task-processor.c:250-263 | After a shutdown at such a point, and until a queue is added, nothing changes any more, and the quit callback has been scheduled exactly once since the processor was created; a dispatch can crash then if and only if the shutdown left an idle source behind |
| Sessions.NothingCrashesAfter | libdleyna/core/task-processor.c:250-263 | It cannot if no queue was scheduled at the shutdown while marked cancelled or while tasks ran |
| Progress.ReachableQueues | libdleyna/core/task-processor.c:390-479 | For every live queue of every reachable state: scheduled excludes running and implies pending tasks; no lost wake-up; an AUTO_REMOVE queue that has started a task is scheduled or running; a deferred queue is cancelled and running; running_tasks counts the running queues |
| Progress.StepEvolves | libdleyna/core/task-processor.c:142-490 | Every step only extends histories, never revives a freed queue, starts nothing on a deferred queue, and, unless it adds a task, uses up work: strictly when it is a dispatch or a completion |
| Progress.RunEvolves | libdleyna/core/task-processor.c:142-490 | The same about histories over any run |
| Progress.DeferredStartsNothing | libdleyna/core/task-processor.c:286-295 | A queue with a deferred removal has a running task; over any run it starts no other task, keeps it as current until it is freed, and has then deleted every task it was ever given |
| Progress.WorkRunsOut | libdleyna/core/task-processor.c:368-479 | In a run that adds no tasks the dispatches and completions are bounded by the work at its start, two units for each pending and one for each running task |
| Progress.NoLostWakeup | libdleyna/core/task-processor.c:433-438 | A live AUTO_START queue with pending tasks and no deferred removal is running a task or has a dispatch in the main loop that will succeed |
| Starts.StartedOnlyIfAsked | libdleyna/core/task-processor.c:436-438 | In every run a queue added without AUTO_START is not scheduled and starts nothing unless queue_start is called on its key |
| Starts.AddTaskSchedulesIff | libdleyna/core/task-processor.c:433-438 | In any state, reachable or not, adding a task schedules a queue if and only if it is AUTO_START, idle, not scheduled and not due for removal |
| Starts.NothingStartedWhileQuitting | libdleyna/core/task-processor.c:398-399 | A queue added without AUTO_START after a shutdown starts nothing, queue_start or not |
| Progress.RestMeansDone | libdleyna/core/task-processor.c:469-476 | When no idle source is pending and nothing runs, AUTO_START queues are empty, no removal is outstanding, and no AUTO_REMOVE queue that ran anything is left |
| Progress.CompletionGoesOn | libdleyna/core/task-processor.c:465-476 | After a completion the queue is still there if and only if its removal is not deferred and it has work or is not AUTO_REMOVE; and it is scheduled if and only if it has work |
| Quitting.CompletionWhileQuitting | libdleyna/core/task-processor.c:460-476 | While quitting, the completion that leaves nothing running empties the table and schedules the quit callback; any other leaves the queue scheduled, resting or removed as it always does |
| Progress.FailureEndsChainIff | libdleyna/core/service-task.c:91-97 | A failing action ends its AUTO_REMOVE queue if and only if the queue was not cancelled behind its back, has no pending task or is deferred; in the first case the log ends with every later task cancelled and deleted, the failed one completed, finally(TRUE) |
| Commands.FailureTellsAll | libdleyna/core/service-task.c:91-97 | A failing action on a queue with any flags, not cancelled before: every later task is told and deleted, the failed one is complete, nothing is pending, and the queue is gone if and only if it was AUTO_REMOVE |
| Progress.FailedChainStaysDown | libdleyna/core/service-task.c:85-98 | In every continuation of the run the queue's log stays as it is: no later task of the chain is ever started, and all are deleted |
| Witnesses.StaleFlagOrphansSource | libdleyna/core/task-processor.c:188-200 | Cancel, add, cancel: the second cancel changes nothing, and a removal leaves a source whose dispatch finds no queue |
| Witnesses.FailureDoesNotEndChain | libdleyna/core/service-task.c:91-97 | A chain cancelled and given a task while its first action runs: the action fails, and the next task is started |
| Witnesses.QuitScheduledTwice | libdleyna/core/task-processor.c:436-464 | A queue added after the shutdown runs its task, and the quit callback is scheduled a second time |
| Witnesses.QuitUnderStartingTask | libdleyna/core/task-processor.c:250-263 | Quitting while an action has not returned: the queue is gone, running_tasks stays 1, the quit callback is never scheduled |
| Witnesses.QuitDependsOnOrder | libdleyna/core/task-processor.c:462-464 | A reachable state with one waiting and one scheduled queue, where one visiting order leaves an idle source behind and the other does not |
| Queues.Queue.Cut | libdleyna/core/task-processor.c:188-204 | The queue's part of a first cancel: flag, cancel and delete callbacks of all pending tasks in order, idle id handed back, current task told |
| Queues.Queue.CancelAndDeleteTasks | libdleyna/core/task-processor.c:175-195 | The loop calls cancel and then delete for each pending task in order; no pending task has an action, so none of these cancels completes anything |
| Queues.Queue.Free | libdleyna/core/task-processor.c:93-109 | Deletes the pending tasks in order and then runs finally with the cancelled flag |
| Processors.Processor.constructor | libdleyna/core/task-processor.c:111-130 | A new processor stands for the initial state |
| Processors.Processor.AddQueue | libdleyna/core/task-processor.c:142-173 | The objects move as Scheduler.AddQueue does |
| Processors.Processor.AddTask | libdleyna/core/task-processor.c:420-443 | The objects move as Scheduler.AddTask does, and the task notes its queue; that it schedules AUTO_START queues and no others is said by Progress.NoLostWakeup and Starts.StartedOnlyIfAsked |
| Processors.Processor.Start | libdleyna/core/task-processor.c:390-418 | The objects move as Scheduler.Start does; what comes of it is said by Settling.StartedChainsRunOut and Starts.NothingStartedWhileQuitting |
| Processors.Processor.SetFinally | libdleyna/core/task-processor.c:481-490 | The objects move as Scheduler.SetFinally does; what comes of it is said by Commands.FinallyRunsAsSet |
| Processors.Processor.ProcessTask | libdleyna/core/task-processor.c:368-388 | The objects move as Scheduler.Dispatch does, up to the call of the process callback |
| Processors.Processor.TaskCompleted | libdleyna/core/task-processor.c:445-479 | The objects move as Scheduler.TaskCompleted does, emptying the table included |
| Processors.Processor.CancelOnly | libdleyna/core/task-processor.c:183-212 | The objects move as Scheduler.CancelOnly does through the task's cancel callback and back; the result says whether to remove the queue |
| Processors.Processor.Cancel | libdleyna/core/task-processor.c:215-223 | The objects move as Scheduler.Cancel does |
| Processors.Processor.SetQuitting | libdleyna/core/task-processor.c:250-263 | The objects move as Scheduler.SetQuitting does for any visiting order, and the table ends empty; when all running tasks wait for replies, nothing runs any more, one quit callback has been scheduled, and the log of every queue object is finished as in Shutdown.ShutdownDelivers |
| Processors.Processor.RemoveSelected | libdleyna/core/task-processor.c:278-298 | One visit of a removal, the queue object possibly freed during it |
| Processors.Processor.RemoveQueues | libdleyna/core/task-processor.c:300-346 | The objects move as Scheduler.RemoveQueues does for any visiting order; when all running tasks wait for replies, exactly the keys with the given source, or sink, leave the table, and every other key keeps the same queue object in the same state |
| Processors.Processor.RemoveAllQueues | libdleyna/core/task-processor.c:464 | Removing queue after queue in whatever order comes to the closed form of emptying the table |
| Processors.Processor.AddServiceTask | libdleyna/core/service-task.c:49-71 | A new service task without an action joins the queue |
| Processors.Processor.CalledRuns | libdleyna/core/service-task.c:73-97 | A task object on which the client has a report to make is the current task of the live queue object it noted, and has its action set if and only if a reply is awaited: the precondition of the two methods below follows from the client's books |
| Processors.Processor.ReplyBegins | libdleyna/core/service-task.c:73-80 | The reply callback clears the action before the client's callback runs, and the task stays current |
| Processors.Processor.ActionReturns | libdleyna/core/service-task.c:91-97 | The action is stored, a failure cancels the queue, and no action means completion |
| Processors.Processor.CancelTask | libdleyna/core/service-task.c:100-113 | For any task: one whose action is awaited is completed on the spot through the queue it noted; for all others nothing changes |
| UdnPath.EscapeShape | libdleyna/core/core.c:59-67 | The escaped form has length len + 2 * (escaped characters) and only bytes 0-9, A-Z, a-z and underscore |
| UdnPath.PlainChar | libdleyna/core/core.c:61-64 | Exactly the digits, the letters of either case and the underscore stand for themselves; any other character becomes an underscore and its two lower-case hexadecimal digits |
| UdnPath.PlainUdnStays | libdleyna/core/core.c:61-62 | A UDN of such characters only, up to a third of 2147483647 long, is its own path element |
| UdnPath.PathAlphabet | libdleyna/core/core.c:59-67 | Every path element is made of such characters only, whatever the UDN |
| UdnPath.FitsIff | libdleyna/core/core.c:54-65 | The loop ends inside its buffer if and only if the whole escaped form fits or some prefix fills the buffer exactly |
| UdnPath.AllEscapedFitsIff | libdleyna/core/core.c:53-65 | A UDN of escaped characters only stays inside the buffer if and only if 3 * len is at most G_MAXUINT32 / 2 |
| UdnPath.DashesOverrun | libdleyna/core/core.c:53-65 | Any longer run of dashes runs over the end of the buffer |
| UdnPath.ShortUdnFits | libdleyna/core/core.c:53-70 | If 3 * len is at most G_MAXUINT32 / 2 nothing is truncated and the length is exact |
| UdnPath.WriteChar | libdleyna/core/core.c:61-65 | One turn writes the escape of one character, terminator included, and disturbs nothing before it or beyond its terminator |
| UdnPath.FillBuffer | libdleyna/core/core.c:59-68 | For every input: the loop leaves exactly the escaped form of the characters it consumed if the input fits; it comes to a write behind the end of the buffer if and only if it does not |
| UdnPath.ConvertUdnToPath | libdleyna/core/core.c:27-73 | For every input: a buffer of min(3 * len, G_MAXUINT32 / 2) + 1 bytes with the path element and its terminator if the input fits, and no result exactly when it does not |
| UdnPath.DecodeInverts | libdleyna/core/core.c:59-67 | Reading _hh back as its byte inverts the escaping of every underscore-free UDN |
| UdnPath.RoundTripIff | libdleyna/core/core.c:59-67 | The escaping can be undone if and only if the UDN contains no underscore |
| UdnPath.PathElementsDiffer | libdleyna/core/core.c:59-67 | Two different underscore-free UDNs of permitted length have different path elements |
| UdnPath.UnderscoreCollision | libdleyna/core/core.c:61-64 | "-" and "_2d" have the same path element |

## Left out

- ProcessTask: stops where the client's code begins; the rest of the process callback is ActionReturns, so that anything the client does in between is a step of its own. It requires that the dispatch finds its queue, which Runs.DispatchIsSafe proves for every reachable state.
- ReplyBegins: stops where the client's reply callback begins; the end of the reply callback is TaskCompleted.
- RemoveQueues: takes the visiting order as a parameter and visits a key only while it is in the table; what GHashTable itself does when entries disappear during foreach_remove is not modelled. After a visit it uses the value just stored in defer_remove, where the code reads the field again, also when the queue has been freed meanwhile.
- Runs.RunsAreSafe: covers runs up to a shutdown; the shutdown itself is covered by the lemmas of Shutdown. After it Sessions counts quit callbacks, but the agreement with the main loop is not followed further: the next completion of a last task empties the table again.
- QuitsOfSession: covers one call of set_quitting; each further call schedules the quit callback again when nothing runs.
- ActionReturns: requires that the task is still the current one of a live queue, as the code does; Callbacks.PlaysAreSound proves that it is for the abstract queues, and CalledRuns carries it over to the objects.
- FillBuffer: a write behind the end of the buffer ends the model's loop; what such a write does to memory is not modelled.
- UdnPath.ConvertUdnToPath: covers 7-bit bytes other than NUL; a negative char in `%02x` does not give two digits.
- The 32-bit width of running_tasks, source ids and the array length: counts are unbounded integers.
- The order of callbacks of different queues relative to each other: each queue has its own log.
- User data of queues and tasks, dleyna_task_processor_lookup_queue and dleyna_service_task_create_source: they would add only easy members.
- Memory: allocation, string copies, and freeing beyond the delete and finally callbacks; a freed queue keeps its record so that its history can be talked about.
- GUPnP: the network action is an opaque value that is there or not; cancelling it and the weak reference to the proxy are not modelled.
- dleyna_task_processor_free, the hash function, logging.
- The main loop, connectors, settings, white list, error and log modules of the library.
