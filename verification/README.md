# A durable workflow engine, verified

This project models a durable workflow engine and proves what it promises. Workflow code runs
deterministically; its decisions become history events; workers rebuild it by replaying those events, keep it in a
cache, lose it and take each other's place, while clients signal, cancel and remove executions.

The model has three parts.

**The replaying executor.** A workflow program is an arbitrary deterministic function: a delivery (start, resolved
future, signal, cancellation, continue) and what the code can read give a new coroutine state, the operations it performed
and possibly an error. Around it, `Commands` and `Execution` give the value of commands, workflow state and executor after
every handler, replay, task and checkpoint. `CommandObjects`, `Executors` and `Workers` are the objects of the
source, changed in place, each method proved to do to its fields what those functions say. `Reactions` says what those
functions mean as a table: which stimulus an event gives the workflow code, which command and future it moves, and
when it fails; `Endings` says what a task reports in the end. On this rest replay
(`Steps`, `Determinism`, and in `Resting` exactly when it arrives at the live state), futures that settle once
(`Futures`, `Timers`), lawful histories (`Histories`, and in `Lawfulness` those of executions that fail), cache
transparency (`CacheTransparency`), what a backend may rely on (`Contract`) and how executions end (`Completion`).

**The checkpoint protocol of the SQLite backend.** `Database` gives the tables and every transaction as a
function that commits or aborts, `Tables` what they do row by row; `Backends` is the backend as an object with its loops over
batches, events and groups. `Ledger`
states what holds of the tables: every event has one owner and one place, and for every started activity, timer and
sub-workflow there is exactly one token (a row, an active execution, a pending or a recorded result) that is or will become its
outcome. `Recording`, `Bookkeeping`, `Settlement` and `Delivery` prove this of completing a workflow task; `Protocol` and
`Guarantees` of every run of any number of workers and clients, with leases expiring at any time; `Leases` adds whom a lease
keeps out and for how long, `Provenance` where firings and results of sub-workflows come from; `Cluster` replaces the
assumption of honest reports by real executors with real caches, `Conformance` shows that they follow the protocol, and
`Witness` is a run that meets all hypotheses.

**The deterministic runtime.** `Cancellation` is the tree of contexts, `Channels` the channels, `Scheduling` the
scheduler's in-place sweep, `Retrying` the retry loop.

A generated id is named by who drew it and what for, so ids never collide; a panic is an outcome of its
own; each SQLite transaction is one atomic step, as there is one connection and transactions are immediate.

## Hypotheses

They appear as `requires` of the theorems that need them, or as conditions on steps. `Hypotheses` and other modules say
exactly what holds without them; `Counterexamples` are runs in which it matters.

- Rest: where a task requests the cancellation of a sub-workflow, continuing the blocked workflow at that point does nothing
  (`Determinism.Restful`, `CacheTransparency.RestfulAfter`; in a cluster, of tasks of a worker that has the lease). Replaying
  the request continues the workflow once more than the live run did (workflow/executor/executor.go:659-661).
  `Resting.TaskReplaysIff` says that replay arrives at the live state exactly then, if there is one request in the task;
  with several, rest at each is sufficient (`Determinism.TaskReplays`), necessary for every single step
  (`Determinism.ReplayFollowsIff`), but not for the whole: continuations may undo each other
  (`Counterexamples.ContinuationsCancelOut`). `Resting.QuietRests` gives programs that always rest;
  `Counterexamples.ReplayDiverges` and `Counterexamples.WorkersDisagree` are a run of one that does not.
- History limit: the limit is not reached (`Contract.ExecutorIsHonest`, `Cluster.Enabled`).
  `Completion.EndIsUnique` says exactly when the limit matters, `Counterexamples.LimitEndsTwice` is a workflow that ends twice.
- Failed completion: an executor whose completion is rejected is dropped (`Cluster.Dropped`). The worker keeps it
  (internal/worker/workflow.go:98-102). `Hypotheses.KeptExecutorRefuses` says exactly when it then refuses later tasks; when
  it does not, `Hypotheses.KeptAgreesIff` and `Hypotheses.KeptServes` say when it is as good as any other, and
  `Counterexamples.KeptExecutorDiverges` is a run in which it completes a task as the recorded history never would.
- Sub-workflow cancellation: a result that meets a cancellation of the same task crashes the process, and exactly
  then (`Hypotheses.ResultCrashes`, with a run in `Counterexamples.CancelMeetsResult`). A crash is a step of the cluster;
  nothing is claimed of the crashed worker.
- Fencing is by worker name (`Guarantees.FencingIsByName`): a worker does not fetch an execution while it still holds a task
  of it (`Protocol.Permitted`). `Witness.OutdatedCompletionCommits` is a run in which it does.
- Order of rows: the history query has no ORDER BY (backend/sqlite/events.go:109-141); rows are assumed to come in the order in
  which they were inserted (`Backends.Backend.GetWorkflowInstanceHistory`). In any other order a worker without a cached
  executor fails the execution (`Hypotheses.OtherOrderFails`). Pending events come in no particular order.
- Replaying: workflow code does not ask whether it is being replayed, although it could (workflow/replaying.go:8-10).
- Buffered channels: no Send blocks (`Channels.NeverBlocks`); `Channels.ResumeKeepsLawIff` and `Channels.SendKeepsLawIff` say
  exactly when the law of delivery survives a blocked Send.
- Coroutines come to rest: the scheduler runs as long as they make progress (`Scheduling.Settling`).
- Generated ids are fresh, and results of activities carry the schedule id of their activity (`Protocol.Permitted`).

Where a comment in the source and the code differ, the model follows the code: closing a channel tells the waiting receivers and
leaves the buffer alone, although the comment speaks of draining buffered values (internal/sync/channel.go:69).

## Model

| member | source | states |
|---|---|---|
| `Executors.Executor.ExecuteTask` | workflow/executor/executor.go:126-227 | the object ends in the state, and returns the result, refusal or crash, that the value semantics `Execution.ExecuteTask` prescribes, for every program, history and executor state |
| `Executors.Executor.CatchupOnHistory` | workflow/executor/executor.go:229-264 | older history is refused; newer history is fetched and replayed; a replay error completes the workflow and skips the new events; a mismatch of sequence ids after replay is refused |
| `Executors.Executor.ReplayHistory` | workflow/executor/executor.go:266-285 | the loop replays the recorded events up to the first error or panic, keeping the sequence id and history length of every event |
| `Executors.Executor.ExecuteNewEvents` | workflow/executor/executor.go:287-327 | new events are executed up to the first error, the rest stay unexecuted; at the end the final command is added, unless futures are still pending |
| `Executors.Executor.ExecuteEvent` | workflow/executor/executor.go:338-413 | dispatch of every event type to its handler, including unknown types; what each then does is `Reactions.HandleIsTable` |
| `Reactions.HandleIsTable` | workflow/executor/executor.go:338-662 | an event is executed without error and leads to a state iff the table says so: the workflow code, seeing the state after command and future moved, is told exactly what the event says (start with its inputs, cancellation, signal with its argument, result, failure or firing of its own schedule id, or nothing), and what it decides is done in order; a started task sets the clock |
| `Reactions.HandleFails` | workflow/executor/executor.go:415-662 | and otherwise: it reports the first check that failed, or the error of the workflow code; it panics iff a command cannot make the move, or the workflow that should be told was never started |
| `Reactions.OperateIsTable` | workflow/activity.go:35-101 | an operation leads to a state iff a table says so: a new command with exactly these arguments, due at the clock plus the delay if it is a timer, tracked with its result type; or a canceled one |
| `Reactions.TaskReacts` | workflow/executor/executor.go:287-297 | a whole task: the clock is set first, then every received event in order, each with its own history length, does what the table says, up to the first that fails |
| `Reactions.HistoryReacts` | workflow/executor/executor.go:266-285 | a history that replays without error did the same, event by event |
| `Reactions.CatchUpMeans` | workflow/executor/executor.go:229-285 | catching up: refused as older iff the executor is ahead; otherwise exactly the later events are replayed in order; the first that is out of order or fails completes the execution with its error; the task is refused if they end at another sequence id |
| `Endings.WorkSays` | workflow/executor/executor.go:155-226 | what a task reports: the executed events numbered on, and last the end: none while coroutines run, the result or error the workflow returned, its continuation, the first error, pending futures, or that the history limit was reached; the parent is told the same |
| `Endings.SkippedSays` | workflow/executor/executor.go:240-254 | after a failed replay the task records only that it started, and ends the execution with that error, or with the limit's |
| `Executors.Executor.HandleResult` | workflow/executor/executor.go:478-532 | a result needs a pending future that decodes it and a command of the right type; it settles both and continues the workflow, or reports which check failed |
| `Executors.Executor.HandleScheduled` | workflow/executor/executor.go:457-476 | a recorded decision must meet the same command again, which is then committed; a sub-workflow command takes over the recorded instance |
| `Executors.Executor.HandleTimerFired` | workflow/executor/executor.go:549-593 | a firing whose future is gone is ignored, otherwise it is a result |
| `Executors.Executor.HandleTimerCanceled` | workflow/executor/executor.go:595-622 | the command must be CancelPending; a future that is still pending is canceled |
| `Executors.Executor.HandleSubWorkflowCancellation` | workflow/executor/executor.go:648-662 | the command must be CancelPending; the workflow is continued |
| `Executors.Executor.HandleExecutionStarted` | workflow/executor/executor.go:415-443 | the workflow must be registered and is started with the recorded inputs |
| `Executors.Executor.WorkflowCompleted` | workflow/executor/executor.go:779-784 | the completion command takes the next schedule id |
| `Executors.Executor.WorkflowRestarted` | workflow/executor/executor.go:786-796 | the continue-as-new command takes the next schedule id and a fresh execution id |
| `Executors.Executor.AssignSequenceIDs` | workflow/executor/executor.go:207-212 | everything executed is numbered consecutively after the last sequence id |
| `Executors.Executor.Checkpoint` | workflow/executor/executor.go:178-226 | commands become events in order, each command moves on, and the highest instance state wins |
| `Executors.WorkflowState.ExecuteCommands` | workflow/executor/executor.go:185-202 | the loop over commands collects exactly what each command yields, done commands being skipped |
| `Executors.WorkflowState.CommandByScheduleEventID` | internal/workflowstate/workflowstate.go:140-147 | list and index agree: the command found is the one at the position of its schedule id |
| `Executors.WorkflowState.Schedule` | internal/workflowstate/workflowstate.go:104-147 | a new command gets the next schedule id and is found by it |
| `Executors.WorkflowState.Operate` | workflow/activity.go:35-101 | scheduling an activity, timer or sub-workflow, or closing the Done channel it waits on, changes commands, futures and counter as the value semantics says |
| `Executors.WorkflowState.CancelOperation` | workflow/timer.go:74-99 | the cancel callback runs once; a timer's future is settled right away |
| `Executors.WorkflowState.NewSubInstance` | internal/command/schedule_subworkflow.go:26-51 | a sub-workflow instance points back to its parent and to the schedule id to come, its id is the chosen one or generated, and neither generated id was generated for an earlier command |
| `CommandObjects.CommandObject.Commit` | internal/command/command.go:62-69 | Pending commands are committed, a completion is done at once, any other transition panics |
| `CommandObjects.CommandObject.Done` | internal/command/cancelablecommand.go:37-48 | Committed commands, and canceled ones if cancelable, become done and drop their cancel callback; any other transition panics |
| `CommandObjects.CommandObject.Cancel` | internal/command/cancelablecommand.go:17-26 | a command that is not committed is canceled, a committed one waits for its cancellation to be recorded |
| `CommandObjects.CommandObject.HandleCancel` | internal/command/cancelablecommand.go:28-35 | only a CancelPending command may be canceled by its event |
| `Commands.ExecuteYields` | internal/command/schedule_timer.go:36-88 | what executing a command yields, field by field: its event with the name, inputs, attempt and queue asked for; a firing due and visible exactly when the timer is; a message that starts exactly the sub-workflow or continuation, cancels it, or tells the parent result or error |
| `CommandObjects.CommandObject.Execute` | internal/command/schedule_timer.go:36-88 | Pending and CancelPending commands yield what their action says (`Commands.Yields`: attributes, times, receivers) and move on, all others yield nothing |
| `CommandObjects.CommandObject.Scheduled` | internal/command/complete_workflow.go:44-103 | executed for the first time a command yields one event of its own, an activity to run iff it is an activity, a firing visible at its due time iff it is a timer, and one message iff a sub-workflow or continuation starts or a sub-workflow ends; all payloads are those of the command |
| `Stepping.LiveIsSteps` | workflow/executor/executor.go:287-297 | live execution of new events is the reference semantics in which workflow code sees each event's own final sequence id as the history length |
| `Stepping.ReplayIsSteps` | workflow/executor/executor.go:266-285 | replay of consecutive history is the same reference semantics, errors and panics included |
| `Stepping.StepsFrame` | workflow/executor/executor.go:274-281 | after any history the history length is the sequence id of its last event |
| `Tidiness.TidyHandle` | workflow/executor/executor.go:478-622 | whatever event is handled: an activity or timer has a pending future iff its command is Pending or Committed, cancel callbacks match states, and ids match positions |
| `Determinism.ReplayCommand` | workflow/executor/executor.go:457-476 | replaying the event of a command has exactly the effect that executing the command had: for a request to cancel a sub-workflow iff the workflow is at rest then, for every other command always |
| `Determinism.ReplayFollowsIff` | workflow/executor/executor.go:648-662 | replay follows the execution of the commands one by one iff the workflow is at rest at every request among them |
| `Determinism.CheckpointReplays` | workflow/executor/executor.go:178-212 | replaying the events of a checkpoint from the state before it succeeds and arrives at the state after it, if the workflow is at rest at the requests it records |
| `Determinism.TaskReplays` | workflow/executor/executor.go:126-227 | replaying everything an error-free task recorded succeeds and arrives at exactly the state the live executor is in, if the task leaves the workflow at rest at its requests |
| `Resting.CheckpointReplaysIff` | workflow/executor/executor.go:648-662 | with at most one request among its events, replaying a checkpoint arrives at the state after it iff the workflow is at rest there |
| `Resting.TaskReplaysIff` | workflow/executor/executor.go:648-662 | the same of whole tasks: replay arrives at the state of the executor that recorded the task iff the workflow is at rest at the request |
| `Resting.QuietRests` | workflow/executor/executor.go:648-662 | a program whose blocked coroutines do nothing when continued rests at every request of every task |
| `CacheTransparency.StateIsFunctionOfHistory` | workflow/executor/executor.go:229-285 | any two executors that agree with a history are equal up to generated ids of sub-workflows that were never committed |
| `CacheTransparency.CatchUpAgrees` | workflow/executor/executor.go:229-264 | an executor cached at any prefix that replays the missing suffix agrees with the whole history |
| `CacheTransparency.CatchUpKeeps` | workflow/executor/executor.go:229-264 | on a recorded history catching up never fails to replay and never crashes, whatever the sequence id asked for |
| `CacheTransparency.RestfulWherever` | workflow/executor/executor.go:155-176 | whether a task leaves the workflow at rest depends on the history alone: every executor that agrees with it rests iff the one rebuilt from it does |
| `CacheTransparency.WorkAgrees` | workflow/executor/executor.go:155-226 | an error-free task that rests extends a replayable history to a replayable history, and its executor agrees with it |
| `CacheTransparency.AnyCacheSameResult` | internal/worker/workflow.go:162-196 | executors cached at any two prefixes produce the very same result for the next task |
| `CacheTransparency.RunsAreTransparent` | internal/worker/workflow.go:162-196 | whole runs of the same tasks record the same history and results, whatever is cached, evicted, stale or run elsewhere, if one of them rests |
| `Lawfulness.TaskIsLawful` | workflow/executor/executor.go:155-226 | whatever a task does, succeed, fail, end the execution or reach the history limit: what it records extends a recorded history lawfully |
| `Lawfulness.RunsAreLawful` | workflow/executor/executor.go:178-202 | from its start to its end, with or without error, what an execution records is lawful |
| `Histories.ReplayableIsLawful` | workflow/executor/executor.go:457-662 | any history that replays without error is lawful, and the state of every command is what the history says about its id |
| `Histories.LawfulUnique` | workflow/executor/executor.go:178-202 | in a lawful history no schedule id is used twice, nothing has two results and nothing is stopped twice |
| `Contract.ExecutorIsHonest` | workflow/executor/executor.go:126-227 | every executor that agrees with the recorded history reports honestly: a prefix of the received events, all of them unless it fails, then one group of events per decision, each justified by the history |
| `Contract.RestartedIsDecided` | workflow/executor/executor.go:299-324 | an execution that continues as new starts no sub-workflow in the same task |
| `Completion.CleanFinish` | workflow/executor/executor.go:299-324 | a run that ends without error has a result for every activity and sub-workflow and a firing or cancellation for every timer it recorded |
| `Completion.EndRecorded` | workflow/executor/executor.go:173-176 | a task records the end of its execution once if it ends, and once more if it reaches the history limit |
| `Completion.EndIsUnique` | workflow/executor/executor.go:173-176 | the final event is unique, and the reported state non-Active exactly when it is present, iff end and history limit do not come together |
| `Counterexamples.LimitEndsTwice` | workflow/executor/executor.go:173-176 | a concrete workflow whose first task records the end twice |
| `Counterexamples.ReplayDiverges` | workflow/executor/executor.go:648-662 | a run of two tasks from a new executor, of a workflow not at rest at a request: the live executor has one command, a replay of what it recorded two |
| `Counterexamples.WorkersDisagree` | internal/worker/workflow.go:162-196 | in that run, the worker that kept its executor and one that rebuilds the workflow complete the next task differently |
| `Counterexamples.ContinuationsCancelOut` | workflow/executor/executor.go:648-662 | a run with two requests in one task that is replayed exactly although the workflow does not rest: the second continuation undoes the first |
| `Hypotheses.ResultCrashes` | internal/command/cancelablecommand.go:37-47 | a sub-workflow result panics iff the sub-workflow was canceled in the same task |
| `Counterexamples.CancelMeetsResult` | internal/command/cancelablecommand.go:37-47 | a run from a new executor in which that crashes the process |
| `Hypotheses.RefusedIff` | workflow/executor/executor.go:229-264 | on a complete history a task is refused iff the executor is ahead of it |
| `Hypotheses.KeptExecutorRefuses` | internal/worker/workflow.go:98-102 | an executor kept after its completion was rejected refuses a later task iff fewer events were recorded than it executed, so the same task always |
| `Hypotheses.KeptAgreesIff` | internal/worker/workflow.go:98-102 | it agrees with what was recorded instead iff both histories rebuild the same state |
| `Hypotheses.KeptServes` | internal/worker/workflow.go:98-102 | where replay cannot tell both histories apart it gives the very same results as any other executor |
| `Counterexamples.KeptExecutorDiverges` | internal/worker/workflow.go:98-102 | a run in which it is not refused and completes a task differently from every executor that agrees with the history |
| `Hypotheses.OtherOrderFails` | backend/sqlite/events.go:109-141 | a new executor that reads the history in any other order completes the execution with an error, or crashes |
| `Timers.CanceledTimerLeavesNothing` | workflow/timer.go:74-99 | a timer canceled before commit leaves no event in whatever follows |
| `Timers.GoneYieldsNothing` | internal/command/schedule_timer.go:36-88 | at every later checkpoint such a timer yields neither an event nor a firing |
| `Futures.LateIsRefused` | internal/workflowstate/workflowstate.go:127-134 | a result for a settled future is refused, a late firing is ignored |
| `Futures.SettledOnce` | workflow/executor/executor.go:478-622 | over any further history a settled future stays settled, and no result for it can be recorded |
| `Futures.ResultSettles` | workflow/executor/executor.go:478-532 | a result is handled only while its future is pending, and settles it |
| `Futures.OnlyResultSettles` | workflow/executor/executor.go:478-532 | nothing but its result settles the future of an activity |
| `Futures.EveryFutureSettles` | workflow/executor/executor.go:478-622 | along any history that replays, every future that was handed out is settled by exactly one of the events, or pending at the end |
| `Futures.OneResultEach` | workflow/executor/executor.go:299-324 | an execution that ends without error has recorded exactly one start and exactly one result of each of its activities and sub-workflows |
| `Decisions.DecisionMeans` | workflow/executor/executor.go:185-202 | every recorded decision comes from one command; starts use new ids, stops refer to what was started and not stopped |
| `Decisions.CollectYields` | workflow/executor/executor.go:185-202 | in a checkpoint every event, firing and message is what its own command says, and activities to run are exactly the recorded ones |
| `Decisions.CollectComplete` | workflow/executor/executor.go:185-202 | and no command with something to do is forgotten |
| `Decisions.CollectOrdered` | workflow/executor/executor.go:185-202 | decisions are recorded in the order of their schedule ids |
| `Decisions.MessageMeans` | internal/command/complete_workflow.go:64-97 | every message comes from one command: to a new execution, a recorded sub-workflow, or the parent |
| `Decisions.FinalIsLast` | internal/command/complete_workflow.go:44-103 | the final event is the last, present iff the state is not Active |
| `Transactions.RemoveKeeps` | backend/sqlite/sqlite.go:285-314 | removing a finished execution keeps all accounts of the others |
| `Transactions.CompleteActivityKeeps` | backend/sqlite/sqlite.go:859-888 | completing an activity turns its row into its one pending result |
| `Transactions.CreateKeeps` | backend/sqlite/sqlite.go:207-269 | a client's new execution keeps all accounts |
| `Transactions.DeliverKeeps` | backend/sqlite/sqlite.go:456-475 | a signal or cancellation keeps all accounts |
| `Transactions.LockKeeps` | backend/sqlite/sqlite.go:485-598 | leasing an instance keeps all accounts |
| `Transactions.LockActivityKeeps` | backend/sqlite/sqlite.go:770-857 | leasing an activity keeps all accounts |
| `Recording.RecordCommits` | backend/sqlite/sqlite.go:622-688 | recording an honest, timely report never hits a constraint, and does exactly this to the tables |
| `Bookkeeping.RecordedStructure` | backend/sqlite/sqlite.go:622-688 | afterwards events are owned, unique, numbered, final only at the end, and accounted for |
| `Settlement.RecordedActivities` | backend/sqlite/sqlite.go:662-674 | afterwards every recorded activity has exactly one of row, pending result, recorded result |
| `Settlement.RecordedTimers` | backend/sqlite/sqlite.go:676-688 | afterwards every timer has exactly one firing unless canceled, and no canceled timer is pending |
| `Settlement.RecordedSubWorkflows` | backend/sqlite/sqlite.go:690-730 | afterwards the sub-workflow outcomes still owed are exactly those the messages carry |
| `Delivery.HonestIsAddressed` | internal/command/continueasnew.go:42-88 | the messages of an honest report do not interfere: new executions are addressed by one message only, debts differ |
| `Delivery.DeliverConflict` | backend/sqlite/sqlite.go:704-716 | if the instance id is taken, exactly one row is added: the sender has a pending event that the sub-workflow of that parent event failed as the instance exists already; that pays the same debt |
| `Delivery.DeliverStart` | backend/sqlite/sqlite.go:232-269 | a new execution pays the debt to its parent |
| `Delivery.DeliverMessages` | backend/sqlite/sqlite.go:722-730 | messages to existing executions, with at most one outcome among them, pay exactly their debt |
| `Delivery.NoActiveLeft` | backend/sqlite/sqlite.go:616-638 | when an execution continues as new no other execution of the instance is active, so it never conflicts with its predecessor |
| `Tables.CreateInstanceMeans` | backend/sqlite/sqlite.go:232-269 | a new execution is refused iff one of the instance is active (or it exists); otherwise exactly one row is new: active, unleased, with queue and parent link |
| `Tables.InsertPendingMeans` | backend/sqlite/events.go:181-229 | events are added iff their ids are distinct and new to the instance, and then exactly they are |
| `Tables.DeliverGroupMeans` | backend/sqlite/sqlite.go:690-730 | what delivering to one target does to the rows: its events are pending; a start first creates the execution on the queue asked for, or the sender is told the failure |
| `Tables.EachReached` | backend/sqlite/sqlite.go:690-730 | no target of a task is left out, and delivering to the others takes nothing back |
| `Tables.StartDelivered` | backend/sqlite/sqlite.go:690-720 | a start message ends in a new execution iff none of the instance is active when it is delivered, and in a refusal otherwise |
| `Tables.RecordMeans` | backend/sqlite/sqlite.go:622-688 | the sender's own rows: released and sticky until the timeout, completed iff over; the history grows by the executed events; received events and firings of canceled timers leave, timers and activities join, nothing else changes |
| `Tables.CompleteMeans` | backend/sqlite/sqlite.go:601-739 | a completion without the lease is refused; one that commits records, then tells everyone, then removes a continued execution iff the settings say so |
| `Delivery.DeliverAll` | backend/sqlite/sqlite.go:690-730 | whatever the order of the groups, all are delivered and every debt is paid |
| `Protocol.CompleteKeeps` | backend/sqlite/sqlite.go:601-739 | the whole completion commits, keeps every account, appends exactly the executed events, and leaves other executions alone |
| `Protocol.StepSane` | backend/sqlite/sqlite.go:456-888 | every step of any worker or client keeps every invariant, and every lease still describes the tables |
| `Guarantees.Fencing` | backend/sqlite/sqlite.go:622-638 | a completion commits iff its worker still has the lease, a rejected one changes nothing, and what is appended was computed from exactly the history it extends |
| `Guarantees.FencingIsByName` | backend/sqlite/sqlite.go:622-638 | fetching again by the same worker changes nothing about the completion of the task it was given before |
| `Guarantees.OnlyLatestSucceeds` | backend/sqlite/sqlite.go:513-533 | in every run, across any number of lease expiries, only the worker that fetched last succeeds, and it does |
| `Guarantees.HistoryIsFinal` | backend/sqlite/sqlite.go:517-530 | in every run histories only grow, and never after their execution is over |
| `Guarantees.HistoryShape` | backend/sqlite/sqlite.go:584-591 | in every reachable database histories are numbered 1..n without gap or duplicate, and end with a final event iff the execution is over |
| `Guarantees.SingleActive` | backend/sqlite/sqlite.go:232-236 | in every reachable database at most one execution per instance id is active |
| `Guarantees.ActivityConserved` | backend/sqlite/sqlite.go:793-887 | in every reachable database each recorded activity has exactly one of row, pending result, recorded result |
| `Guarantees.TimerConserved` | backend/sqlite/events.go:231-272 | in every reachable database each timer has exactly one firing, unless it was canceled, and then none is pending |
| `Guarantees.SubWorkflowConserved` | backend/sqlite/sqlite.go:690-730 | in every reachable database each recorded sub-workflow has exactly one active execution of that parent and event, pending result or recorded result |
| `Guarantees.EventConserved` | backend/sqlite/sqlite.go:640-688 | in every reachable database each accepted event is pending or recorded, not both, except the event of a canceled timer |
| `Provenance.TimersFireWhenDue` | internal/command/schedule_timer.go:51-68 | in every reachable database a pending firing is visible exactly at the time for which the recorded timer of that schedule id was scheduled |
| `Provenance.EveryFiringStarted` | internal/command/schedule_timer.go:51-68 | every pending or recorded firing has such a recorded timer |
| `Provenance.CompletedMeansFinished` | internal/command/complete_workflow.go:64-97 | in every run a pending or recorded success of a sub-workflow comes from an execution of that parent and event that finished with exactly that result and no error |
| `Provenance.FailedMeansFailed` | internal/command/complete_workflow.go:64-97 | a failure comes from one that finished with exactly that error, unless it says that the instance exists already |
| `Provenance.ExistingInstanceFails` | backend/sqlite/sqlite.go:704-716 | a task that starts a sub-workflow of an instance with an active execution: after the completion its execution has, for that event, one token, a pending failure that says so |
| `Leases.LeaseExcludes` | backend/sqlite/sqlite.go:513-533 | in every run, after a fetch until a time, and without completion or change of the lease by its holder, nobody is given that execution by a clock up to that time |
| `Leases.StickyPrefers` | backend/sqlite/sqlite.go:513-533 | after a completion only the same worker is given the execution until the sticky timeout passed |
| `Leases.OnlyFreeIsFetched` | backend/sqlite/sqlite.go:505-533 | whatever is given is active, of a queue asked for, has a visible event, and its lease and preference are over or the worker's own |
| `Leases.AnybodyMayFetch` | backend/sqlite/sqlite.go:505-533 | in every reachable database each such execution may be given to any worker that does not hold it still |
| `Leases.ActivityLeaseExcludes` | backend/sqlite/sqlite.go:793-857 | in every run a leased activity that is not completed is given to nobody up to the end of the lease |
| `Leases.AnybodyMayFetchActivity` | backend/sqlite/sqlite.go:793-857 | an activity may be given to whoever asks for its queue iff its lease is free or over |
| `Guarantees.EveryRun` | backend/sqlite/sqlite.go:207-888 | all of these invariants hold after every permitted run |
| `Cluster.HolderReports` | internal/worker/workflow.go:107-143 | whoever holds the lease, with whatever it has cached, is never refused and reports honestly and lawfully, and its executor agrees with the extended history |
| `Cluster.SendCoherent` | internal/worker/workflow.go:71-105 | sending a report keeps every cached executor in agreement with a prefix of its history |
| `Cluster.EveryClusterRun` | internal/worker/workflow.go:71-196 | with real executors, any interleaving of workers, caches, crashes and clients: every account settles, every history is lawful, and every active execution's history replays without error |
| `Cluster.FollowsOn` | internal/worker/workflow.go:71-196 | every enabled move carries a run on, so the invariant never restricts what workers do |
| `Conformance.ClusterConforms` | internal/worker/workflow.go:71-196 | every run of the cluster is an allowed run of the protocol that ends in the same tables, with the same workers fetching |
| `Conformance.ClusterReachable` | internal/worker/workflow.go:71-196 | so whatever holds of every reachable database holds of every cluster |
| `Conformance.OnlyLatestRecords` | backend/sqlite/sqlite.go:622-638 | in a cluster a worker can record its report iff it was given the execution last |
| `Witness.ARun` | internal/worker/worker.go:228-250 | the hypotheses can be met: a run in which an instance is created, fetched, executed by a real executor and completed |
| `Witness.OutdatedCompletionCommits` | backend/sqlite/sqlite.go:513-533 | a run in which a worker is given an execution twice and its first, outdated completion commits |
| `Workers.WorkflowTaskWorker.GetExecutor` | internal/worker/workflow.go:162-196 | the cached executor, or a new one that shares nothing with the others |
| `Workers.WorkflowTaskWorker.Execute` | internal/worker/workflow.go:107-143 | the cached executor is changed in place as the value semantics says; other executors are untouched |
| `Workers.WorkflowTaskWorker.Complete` | internal/worker/workflow.go:71-105 | only the executor of an execution that is over is evicted, even if the backend rejects the completion |
| `Backends.Transaction.InsertPendingEvents` | backend/sqlite/events.go:181-229 | inserting in batches of 20 has the effect of, and fails exactly like, inserting all events at once |
| `Backends.Transaction.InsertHistoryEvents` | backend/sqlite/events.go:181-229 | the same for the history table |
| `Backends.Transaction.ScheduleActivities` | backend/sqlite/activities.go:12-32 | one row per scheduled activity, on the instance's queue by default |
| `Backends.Transaction.RemoveFutureEvents` | backend/sqlite/events.go:231-273 | exactly the coming events of canceled timers of the execution are removed |
| `Backends.EventsByWorkflowInstance` | backend/history/grouping.go:5-19 | for every target exactly the messages addressed to it, in their order, and no empty group |
| `Backends.Backend.CreateWorkflowInstance` | backend/sqlite/sqlite.go:207-269 | refused as existing iff an execution of the instance is active; otherwise one new row on its queue, with its event pending; on failure nothing changes |
| `Backends.Backend.SignalWorkflow` | backend/sqlite/sqlite.go:456-475 | exactly one more pending event, for an active execution of the instance; refused iff there is none |
| `Backends.Backend.CancelWorkflowInstance` | backend/sqlite/sqlite.go:386-411 | exactly one more pending event, for that execution; refused iff it does not exist |
| `Backends.Backend.RemoveInstance` | backend/sqlite/sqlite.go:285-314 | an execution is removed, with its history and nothing else, iff it exists and is over |
| `Backends.Backend.GetWorkflowTask` | backend/sqlite/sqlite.go:485-598 | leases to this worker an active instance of these queues with a visible event, whose lease is free or over, and whose sticky time is over or its own, and changes only that row; the task has its parent, queue, last sequence id and exactly the visible events; nothing is returned only if there is none |
| `Backends.Backend.GetPendingEvents` | backend/sqlite/events.go:75-107 | exactly the visible pending events of the execution, each once |
| `Backends.Backend.GetWorkflowInstanceHistory` | backend/sqlite/events.go:109-141 | exactly the recorded events after the given sequence id, in the order in which they were inserted |
| `Backends.Backend.ExtendWorkflowTask` | backend/sqlite/sqlite.go:741-768 | only the worker with the lease may extend it, and nothing else changes |
| `Backends.Backend.CompleteWorkflowTask` | backend/sqlite/sqlite.go:601-739 | commits as a whole or changes nothing; refused without the lease; otherwise the rows are as `Tables.TaskCompleted` says: history, leases, timers, activities, every message, and refusals for taken instance ids |
| `Backends.Backend.GetActivityTask` | backend/sqlite/sqlite.go:770-857 | leases to this worker an activity of these queues whose lease is free or over, and changes only that row; nothing is returned only if there is none |
| `Backends.Backend.CompleteActivityTask` | backend/sqlite/sqlite.go:859-888 | only the worker with the lease may replace the activity by its result; exactly that row goes and exactly that event is pending |
| `Cancellation.CancelContext.constructor` | internal/sync/context.go:197-267 | a new context hangs under its parent, or is canceled with the parent's error and cause |
| `Cancellation.CancelContext.Disconnected` | internal/sync/context.go:414-419 | a disconnected context hangs under nothing |
| `Cancellation.CancelContext.Cancel` | internal/sync/context.go:347-372 | for every order of the children: exactly the attached descendants that were not canceled are, with this cause, their callbacks run, and all other contexts stay as they are; it terminates |
| `Cancellation.TreeKept` | internal/sync/context.go:347-372 | canceling keeps the tree in order, so the next cancellation has the same effect guarantees |
| `Cancellation.EveryOrderSame` | internal/sync/context.go:364-366 | any two orders of visiting children give the same contexts, commands and futures |
| `Channels.RunKeepsLaw` | internal/sync/channel.go:61-234 | in every run where no Send blocks on a buffered channel: accepted values are the delivered ones followed by the buffered and queued ones, in order; receivers only wait when there is nothing to receive |
| `Channels.NewChannelLawful` | internal/sync/channel.go:36-47 | so from a new channel on, what was accepted is what was delivered, then the buffer, then the blocked senders, and receivers wait only on an open, empty channel |
| `Channels.AcceptedAreReceived` | internal/sync/channel.go:208-221 | in such a run the accepted values are exactly those handed out by the receive steps or to waiting receivers, in order, then the buffer, then the blocked senders |
| `Channels.EndedMeansDrained` | internal/sync/channel.go:119-153 | a receiver is told that the channel ended only when it is closed and every accepted value was handed out |
| `Channels.ServedReturns` | internal/sync/channel.go:125-153 | a receiver that was served while it waited returns exactly that value, however late it is resumed |
| `Channels.ClosedDrains` | internal/sync/channel.go:208-221 | a closed channel yields its buffer, in order, and then ends |
| `Channels.ResumeKeepsLawIff` | internal/sync/channel.go:87-109 | a resumed Send keeps the law iff the buffer has no room |
| `Channels.SendKeepsLawIff` | internal/sync/channel.go:180-206 | a new Send keeps the law iff it does not overtake a blocked one |
| `Channels.BlockedValueDeliveredTwice` | internal/sync/channel.go:87-109 | a concrete run that delivers a value twice |
| `Channels.Channel.SendValue` | internal/sync/channel.go:81-105 | Send up to the first yield |
| `Channels.Channel.ResumeSendValue` | internal/sync/channel.go:87-112 | a blocked Send after a yield |
| `Channels.Channel.ReceiveValue` | internal/sync/channel.go:119-146 | Receive up to the first yield: the oldest buffered value, or that of the first blocked sender, is removed and returned; otherwise the end if closed, or waiting |
| `Channels.Channel.ResumeReceiveValue` | internal/sync/channel.go:125-153 | a blocked Receive after a yield |
| `Channels.Channel.CloseChannel` | internal/sync/channel.go:61-79 | every waiting receiver is told, or the call panics if a Send is blocked |
| `Scheduling.Scheduler.Execute` | internal/sync/scheduler.go:21-51 | the in-place sweeps do what sweeping a queue does |
| `Scheduling.SweepRunsAll` | internal/sync/scheduler.go:25-47 | a sweep runs everyone present or started meanwhile once, in order of creation, each in the world the one before left behind; survivors keep their order |
| `Scheduling.SweepStopsAtFailure` | internal/sync/scheduler.go:39-42 | a sweep has an error iff a coroutine failed; that coroutine is the last that ran, none before it failed, and the error is its |
| `Scheduling.EndsQuiet` | internal/sync/scheduler.go:23-50 | without error, Execute ends only after a sweep in which nothing finished or made progress |
| `Retrying.WithRetries` | workflow/retries.go:34-110 | attempts 0, 1, 2, ...: another follows only a failure that can be retried and is no cancellation, within the maximum, after a wait that was not canceled; they stop only for one of these reasons or since the wait would end after retries expire; wait k lasts the first interval times the coefficient to the power k + 1, capped; the result is set once, with the last outcome or the timer's error |
| `Retrying.PowAdds` | workflow/retries.go:83-95 | the backoff multiplies by the coefficient once per attempt: powers of sums are products |

## Left out

- Spawned workflows, side effects and tracer spans: they record nothing, or resolve before their event, so replay claims
  do not extend to them (internal/command/spawn_workflow.go:58-82, workflow/sideeffect.go:35-47).
- Logging, tracing, metrics and context propagators.
- Attribute rows and their joins, JSON conversion, reflection and migrations: a payload is opaque, and a program says which
  payloads a future decodes.
- What a program does when a signal's payload does not decode: signals are opaque deliveries.
- Clock readings within one task are one reading, and the backend reads its clock once per transaction.
- Removed executions: their pending rows stay in the tables, and nothing is claimed of them.
- Bulk removal (backend/sqlite/sqlite.go:316-384), heartbeats of activities, pollers, the Redis, MySQL and Postgres
  backends, the workflow tester, the client, samples and diagnostics.
- Grouping of messages compares instances structurally, while the source compares the pointers to parents; honest messages to one
  execution share the pointer.
- A panic inside workflow code or a callback ends the process or fails the workflow; recovery of coroutine panics is part of
  the program.
- OS goroutines and their handshakes: a coroutine step is one atomic call.
- Progress and fairness: nothing is claimed about when a task is fetched.
- Wait groups, error groups and selectors; receive callbacks of channels other than Done, whose callbacks `Cancellation` lists
  as operations.
- Retrying.WithRetries: durations are real numbers, so truncation to nanoseconds is not modelled.
- Scheduling.Scheduler.Execute: does not cover coroutines that make progress forever.
- Cluster.EveryClusterRun: does not say anything about executors cached for an execution that is over or removed.
- Provenance.FailedMeansFailed: does not cover failures that say the instance exists already, which also a refused start gives
  its sender: `Tables.DeliverGroupMeans` and `Provenance.ExistingInstanceFails` say when.
- Backends.Backend.GetWorkflowInstanceHistory: returns the rows in the order of their insertion, which the query does not ask
  for; `Hypotheses.OtherOrderFails` says what follows from another order.
