/**
  The executor as functions on values: workflow state, event handlers, task execution and replay
  (workflow/executor, internal/workflowstate, workflow/{activity,timer,subworkflow}.go).
 */
module Execution {
  import opened Basics
  import opened History
  import opened Commands

  // ---------- the workflow program ----------

  /** The memory of the workflow's coroutines; only the program knows what it means. */
  datatype Coroutines = Coroutines(memory: seq<int>)


  /** How a tracked future is resolved. */
  datatype Outcome = Value(payload: Option<Payload>) | Failure(reason: Error)

  /** What makes the scheduler run the workflow's coroutines. */
  datatype Stimulus =
    | Start(name: string, inputs: seq<Payload>)
    | Resolved(scheduleEventID: int, outcome: Outcome)
    | Canceling
    | Signaled(name: string, arg: Payload)
    | Continue

  /** Everything workflow code can read while it runs, except whether it is being replayed. */
  datatype View = View(
    instance: Instance,
    time: Time,
    historyLength: int,
    pendingFutures: map<int, string>,
    commandStates: seq<CommandState>)

  /** What workflow code does to the workflow state while it runs. */
  datatype Operation =
    | ScheduleActivity(name: string, inputs: seq<Payload>, attempt: int, queue: Queue, resultType: string)
    | ScheduleTimer(delay: int, name: string)
    | ScheduleSubWorkflow(queue: Queue, chosen: string, name: string, inputs: seq<Payload>, resultType: string)
    | CloseDone(scheduleEventID: int)  // the context this operation was started with is canceled

  /** One run of the coroutines until they block: their new state, their operations, a coroutine error. */
  datatype Turn = Turn(coroutines: Coroutines, operations: seq<Operation>, error: Option<Error>)

  datatype Completion =
    | Returned(result: Payload, error: Option<Error>)
    | Restart(result: Payload, inputs: seq<Payload>)

  /**
    A deterministic workflow program: an arbitrary function from coroutine state, stimulus
    and view to the next turn. `completion` is None while coroutines are running.
   */
  datatype Program = Program(
    blank: Coroutines,
    registered: string -> bool,
    deliver: (Coroutines, Stimulus, View) -> Turn,
    completion: Coroutines -> Option<Completion>,
    decodes: (string, Payload) -> bool)

  // ---------- workflow state ----------

  /** The state that event handlers and workflow code read and write. */
  datatype Core = Core(
    instance: Instance,
    source: nat,                    // who draws UUIDs
    nextScheduleEventID: nat,
    commands: seq<Command>,
    pendingFutures: map<int, string>,
    workflow: Option<Coroutines>,
    workflowName: string,
    time: Time,
    historyLength: int)
  {
    /** The command with the given schedule id (commandIndex): ids are handed out from 1 on. */
    function Find(scheduleEventID: int): (c: Option<Command>)
      ensures c.Some? ==> 1 <= c.value.id <= |commands| && c.value.id == scheduleEventID
    {
      if 1 <= scheduleEventID <= |commands| && commands[scheduleEventID - 1].id == scheduleEventID
      then Some(commands[scheduleEventID - 1]) else None
    }

    function Put(c: Command): Core
      requires 1 <= c.id <= |commands|
    {
      this.(commands := commands[c.id - 1 := c])
    }

    function Add(action: Action, armed: bool): Core {
      this.(commands := commands + [Command(nextScheduleEventID, action, Pending, armed)],
            nextScheduleEventID := nextScheduleEventID + 1)
    }

    function Track(id: int, resultType: string): Core {
      this.(pendingFutures := pendingFutures[id := resultType])
    }

    function Untrack(id: int): Core {
      this.(pendingFutures := pendingFutures - {id})
    }

    function Look(): View {
      View(instance, time, historyLength, pendingFutures,
           seq(|commands|, i requires 0 <= i < |commands| => commands[i].state))
    }
  }

  /** What neither workflow code nor any event handler changes. */
  predicate SameFrame(a: Core, b: Core) {
    a.instance == b.instance && a.source == b.source && a.historyLength == b.historyLength
  }

  function NewCore(instance: Instance, source: nat): Core {
    Core(instance, source, 1, [], map[], None, "", 0, 0)
  }

  // ---------- operations of workflow code ----------

  function SubInstance(core: Core, chosen: string): Instance {
    var id := core.nextScheduleEventID;
    Instance(if chosen == "" then Drawn(core.source, ForInstance, id) else Chosen(chosen),
             Drawn(core.source, ForExecution, id),
             Some(core.instance), id)
  }

  /** The cancel callback of an operation, if it is still registered. */
  function CancelOperation(core: Core, scheduleEventID: int): (next: Core)
    ensures SameFrame(core, next) && next.workflow == core.workflow
  {
    match core.Find(scheduleEventID)
    case None => core
    case Some(c) =>
      if !c.armed then core else
      match c.Cancel()
      case None => core.Put(c.(armed := false))
      case Some(canceled) =>
        var next := core.Put(canceled.(armed := false));
        // A timer's future is resolved right away, a committed sub-workflow is waited for.
        if c.action.Timer? || canceled.state == Canceled then next.Untrack(scheduleEventID) else next
  }

  function Operate(core: Core, op: Operation): (next: Core)
    ensures SameFrame(core, next) && next.workflow == core.workflow
  {
    var id := core.nextScheduleEventID;
    match op
    case ScheduleActivity(name, inputs, attempt, queue, resultType) =>
      core.Add(Activity(name, inputs, attempt, queue), false).Track(id, resultType)
    case ScheduleTimer(delay, name) =>
      core.Add(Timer(core.time + delay, name), true).Track(id, "")
    case ScheduleSubWorkflow(queue, chosen, name, inputs, resultType) =>
      core.Add(SubWorkflow(queue, SubInstance(core, chosen), name, inputs), true).Track(id, resultType)
    case CloseDone(scheduleEventID) =>
      CancelOperation(core, scheduleEventID)
  }

  function OperateAll(core: Core, ops: seq<Operation>): (next: Core)
    ensures SameFrame(core, next) && next.workflow == core.workflow
    decreases |ops|
  {
    if ops == [] then core else OperateAll(Operate(core, ops[0]), ops[1..])
  }

  // ---------- event handlers ----------

  /** A handler succeeds, returns an error, or panics (a nil workflow, an invalid command transition). */
  datatype Handled = Ok(core: Core) | Err(core: Core, reason: Error) | Panic

  /** Runs the coroutines from state `coroutines`. */
  function Run(p: Program, core: Core, coroutines: Coroutines, stimulus: Stimulus): (h: Handled)
    ensures !h.Panic? ==> SameFrame(core, h.core)
  {
    var turn := p.deliver(coroutines, stimulus, core.Look());
    var next := OperateAll(core.(workflow := Some(turn.coroutines)), turn.operations);
    if turn.error.Some? then Err(next, turn.error.value) else Ok(next)
  }

  function Resume(p: Program, core: Core, stimulus: Stimulus): (h: Handled)
    ensures !h.Panic? ==> SameFrame(core, h.core)
  {
    if core.workflow.None? then Panic else Run(p, core, core.workflow.value, stimulus)
  }

  /** The kind of command, and if recorded its name, that an event refers to. */
  datatype Expectation = AnActivity | ATimer | ASubWorkflow | ActivityNamed(name: string) | SubWorkflowNamed(name: string)
  {
    predicate Meets(c: Command) {
      match this
      case AnActivity => c.action.Activity?
      case ATimer => c.action.Timer?
      case ASubWorkflow => c.action.SubWorkflow?
      case ActivityNamed(name) => c.action.Activity? && c.action.name == name
      case SubWorkflowNamed(name) => c.action.SubWorkflow? && c.action.name == name
    }
  }

  /** `Set` of a tracked future: decodes the payload, if there is one. */
  predicate Settable(p: Program, core: Core, id: int, outcome: Outcome)
    requires id in core.pendingFutures
  {
    outcome.Value? && outcome.payload.Some? ==> p.decodes(core.pendingFutures[id], outcome.payload.value)
  }

  /** A result arrives: resolve and remove the future, settle the command, go on. */
  function HandleResult(p: Program, core: Core, id: int, outcome: Outcome, expected: Expectation)
    : (h: Handled)
    ensures !h.Panic? ==> SameFrame(core, h.core)
  {
    if id !in core.pendingFutures then Err(core, NoPendingFuture)
    else if !Settable(p, core, id, outcome) then Err(core, DecodingFailed)
    else
      var next := core.Untrack(id);
      match next.Find(id)
      case None => Err(next, CommandNotFound)
      case Some(c) =>
        if !expected.Meets(c) then Err(next, UnexpectedCommand) else
        match c.Settle()
        case None => Panic
        case Some(settled) =>
          Resume(p, next.Put(settled), Resolved(id, outcome))
  }

  /** A replayed sub-workflow command takes over the instance it was originally committed with. */
  function Recorded(c: Command, instance: Option<Instance>): (r: Command)
    ensures r.id == c.id
  {
    if instance.Some? then c.WithInstance(instance.value) else c
  }

  /** A recorded decision is replayed: the same command must exist, and is committed. */
  function HandleScheduled(core: Core, id: int, expected: Expectation, recorded: Option<Instance>)
    : (h: Handled)
    ensures !h.Panic? ==> SameFrame(core, h.core)
  {
    match core.Find(id)
    case None => Err(core, CommandNotFound)
    case Some(c) =>
      if !expected.Meets(c) then Err(core, UnexpectedCommand) else
      match Recorded(c, recorded).Commit()
      case None => Panic
      case Some(committed) => Ok(core.Put(committed))
  }

  function HandleTimerFired(p: Program, core: Core, id: int): (h: Handled)
    ensures !h.Panic? ==> SameFrame(core, h.core)
  {
    if id !in core.pendingFutures then Ok(core)  // already canceled
    else HandleResult(p, core, id, Value(None), ATimer)
  }

  function HandleTimerCanceled(p: Program, core: Core, id: int): (h: Handled)
    ensures !h.Panic? ==> SameFrame(core, h.core)
  {
    match core.Find(id)
    case None => Err(core, CommandNotFound)
    case Some(c) =>
      if !c.action.Timer? then Err(core, UnexpectedCommand) else
      match c.HandleCancel()
      case None => Panic
      case Some(canceled) =>
        var next := core.Put(canceled);
        if id !in core.pendingFutures then Ok(next)
        else Resume(p, next.Untrack(id), Resolved(id, Failure(ContextCanceled)))
  }

  function HandleSubWorkflowCancellation(p: Program, core: Core, id: int): (h: Handled)
    ensures !h.Panic? ==> SameFrame(core, h.core)
  {
    match core.Find(id)
    case None => Err(core, CommandNotFound)
    case Some(c) =>
      if !c.action.SubWorkflow? then Err(core, UnexpectedCommand) else
      match c.HandleCancel()
      case None => Panic
      case Some(canceled) => Resume(p, core.Put(canceled), Continue)
  }

  function HandleExecutionStarted(p: Program, core: Core, name: string, inputs: seq<Payload>): (h: Handled)
    ensures !h.Panic? ==> SameFrame(core, h.core)
  {
    var next := core.(workflowName := name);
    if !p.registered(name) then Err(next, WorkflowNotFound)
    else Run(p, next, p.blank, Start(name, inputs))
  }

  /** Executes one event. */
  function Handle(p: Program, core: Core, e: Event): (h: Handled)
    ensures !h.Panic? ==> SameFrame(core, h.core)
  {
    var id := e.scheduleEventID;
    match e.attributes
    case ExecutionStarted(_, name, inputs) => HandleExecutionStarted(p, core, name, inputs)
    case ExecutionFinished(_, _) => Ok(core)
    case ExecutionContinuedAsNew(_, _) => Ok(core)
    case ExecutionTerminated => Err(core, UnknownEventType)
    case ExecutionCanceled => Resume(p, core, Canceling)
    case TaskStarted => Ok(core.(time := e.timestamp))
    case SubWorkflowScheduled(instance, name, _) =>
      HandleScheduled(core, id, SubWorkflowNamed(name), Some(instance))
    case SubWorkflowCancellationRequested(_) => HandleSubWorkflowCancellation(p, core, id)
    case SubWorkflowCompleted(result) =>
      HandleResult(p, core, id, Value(Some(result)), ASubWorkflow)
    case SubWorkflowFailed(reason) =>
      HandleResult(p, core, id, Failure(reason), ASubWorkflow)
    case ActivityScheduled(_, name, _, _) =>
      HandleScheduled(core, id, ActivityNamed(name), None)
    case ActivityCompleted(result) =>
      HandleResult(p, core, id, Value(Some(result)), AnActivity)
    case ActivityFailed(reason) =>
      HandleResult(p, core, id, Failure(reason), AnActivity)
    case TimerScheduled(_, _) =>
      HandleScheduled(core, id, ATimer, None)
    case TimerFired(_, _, _) => HandleTimerFired(p, core, id)
    case TimerCanceled => HandleTimerCanceled(p, core, id)
    case SignalReceived(name, arg) => Resume(p, core, Signaled(name, arg))
  }

  // ---------- the executor ----------

  datatype Executor = Executor(core: Core, lastSequenceID: int)

  function NewExecutor(instance: Instance, source: nat): Executor {
    Executor(NewCore(instance, source), 0)
  }

  datatype Replayed = Caught(executor: Executor) | Failed(executor: Executor, reason: Error) | Crash

  /** Replays recorded events. */
  function Replay(p: Program, x: Executor, events: seq<Event>): Replayed
    decreases |events|
  {
    if events == [] then Caught(x)
    else if events[0].sequenceID < x.lastSequenceID then Failed(x, OlderHistory)
    else
      match Handle(p, x.core.(historyLength := x.lastSequenceID + 1), events[0])
      case Ok(core) => Replay(p, Executor(core, events[0].sequenceID), events[1..])
      case Err(core, reason) => Failed(x.(core := core), reason)
      case Panic => Crash
  }

  datatype Live =
    | AllExecuted(core: Core)
    | Stopped(core: Core, count: nat, reason: Error)
    | Crashed

  /** Executes the new events of a task from position `i` on. */
  function ExecuteFrom(p: Program, core: Core, last: int, events: seq<Event>, i: nat): (live: Live)
    requires i <= |events|
    ensures live.Stopped? ==> live.count < |events|
    decreases |events| - i
  {
    if i == |events| then AllExecuted(core)
    else
      match Handle(p, core.(historyLength := last + i + 1), events[i])
      case Ok(next) => ExecuteFrom(p, next, last, events, i + 1)
      case Err(next, reason) => Stopped(next, i, reason)
      case Panic => Crashed
  }

  function CompleteWorkflow(core: Core, result: Payload, error: Option<Error>): Core {
    core.Add(Complete(core.instance, result, error), false)
  }

  function RestartWorkflow(core: Core, result: Payload, inputs: seq<Payload>): Core {
    core.Add(Action.ContinueAsNew(core.instance, core.workflowName, inputs, result,
                                  Drawn(core.source, ForExecution, core.nextScheduleEventID)), false)
  }

  /** After all new events: add the final command if no coroutine is left. */
  function Conclude(p: Program, core: Core): Handled {
    if core.workflow.None? then Panic
    else
      match p.completion(core.workflow.value)
      case None => Ok(core)
      case Some(completion) =>
        if core.pendingFutures != map[] then
          Err(core, FuturesStillPending)
        else
          match completion
          case Returned(result, error) => Ok(CompleteWorkflow(core, result, error))
          case Restart(result, inputs) => Ok(RestartWorkflow(core, result, inputs))
  }

  datatype Task = Task(
    instance: Instance,
    state: InstanceState,
    queue: Queue,
    newEvents: seq<Event>,
    lastSequenceID: int)

  datatype ExecutionResult = ExecutionResult(
    state: InstanceState,
    executed: seq<Event>,
    activityEvents: seq<Event>,
    timerEvents: seq<Event>,
    workflowEvents: seq<WorkflowEvent>)

  datatype TaskOutcome =
    | Executed(executor: Executor, result: ExecutionResult)
    | Refused(executor: Executor, reason: Error)
    | ProcessCrash

  /** What a history provider returns for "events after `last`". */
  function EventsAfter(history: seq<Event>, last: int): seq<Event> {
    if history == [] then []
    else (if history[0].sequenceID > last then [history[0]] else []) + EventsAfter(history[1..], last)
  }

  /** That is, exactly the later events, in the order they have. */
  lemma {:induction false} AfterIsFiltered(history: seq<Event>, last: int)
    ensures Filtered(history, (e: Event) => e.sequenceID > last, EventsAfter(history, last))
    decreases |history|
  {
    if history == [] {
      FilterNothing((e: Event) => e.sequenceID > last);
    } else {
      AfterIsFiltered(history[1..], last);
      FilterMore(history, (e: Event) => e.sequenceID > last, EventsAfter(history[1..], last));
    }
  }

  datatype CatchUpOutcome =
    | Ready(executor: Executor, skipNewEvents: bool)
    | Behind(executor: Executor, reason: Error)
    | CatchUpCrash

  /** Brings the executor to the task's sequence id; `source` names the UUIDs drawn meanwhile. */
  function CatchUp(p: Program, x: Executor, t: Task, history: seq<Event>, source: nat): CatchUpOutcome {
    if t.lastSequenceID < x.lastSequenceID then Behind(x, OlderHistory)
    else if t.lastSequenceID == x.lastSequenceID then Ready(x, false)
    else
      match Replay(p, x.(core := x.core.(source := source)), EventsAfter(history, x.lastSequenceID))
      case Caught(next) =>
        if t.lastSequenceID != next.lastSequenceID then Behind(next, HistoryMismatch)
        else Ready(next, false)
      case Failed(next, reason) =>
        Ready(Executor(CompleteWorkflow(next.core, "", Some(reason)), t.lastSequenceID), true)
      case Crash => CatchUpCrash
  }

  /** The task started event and the events received from the backend. */
  function ToExecute(t: Task, now: Time, source: nat): seq<Event> {
    [NewPendingEvent(Drawn(source, ForTask, 0), now, 0, TaskStarted)] + t.newEvents
  }

  datatype Batch = Batch(core: Core, executed: seq<Event>) | BatchCrash

  /** Executes the new events; an error completes the workflow, leaving the rest unexecuted. */
  function ExecuteNewEvents(p: Program, x: Executor, toExecute: seq<Event>): Batch {
    match ExecuteFrom(p, x.core, x.lastSequenceID, toExecute, 0)
    case Crashed => BatchCrash
    case Stopped(core, count, reason) => Batch(CompleteWorkflow(core, "", Some(reason)), toExecute[..count])
    case AllExecuted(core) =>
      match Conclude(p, core)
      case Panic => BatchCrash
      case Err(next, reason) => Batch(CompleteWorkflow(next, "", Some(reason)), toExecute)
      case Ok(next) => Batch(next, toExecute)
  }

  /** Turns commands into events and numbers everything executed. */
  function Checkpoint(core: Core, last: int, executed: seq<Event>, now: Time): (Executor, ExecutionResult) {
    var r := Collect(core.commands, now, core.source);
    var numbered := Number(executed + r.events, last);
    (Executor(core.(commands := ExecutedAll(core.commands), historyLength := last + |numbered|), last + |numbered|),
     ExecutionResult(r.state, numbered, r.activityEvents, r.timerEvents, r.workflowEvents))
  }

  /** The part of ExecuteTask after catching up. `source` names the UUIDs it draws. */
  function Work(p: Program, ready: Executor, skip: bool, t: Task, now: Time, source: nat, maxHistorySize: int)
    : TaskOutcome
  {
    var x := ready.(core := ready.core.(source := source));
    var toExecute := ToExecute(t, now, source);
    match (if skip then Batch(x.core, toExecute[..1]) else ExecuteNewEvents(p, x, toExecute))
    case BatchCrash => ProcessCrash
    case Batch(core, executed) =>
      var core' := if x.lastSequenceID + |executed| >= maxHistorySize
                   then CompleteWorkflow(core, "", Some(HistorySizeExceeded)) else core;
      var (x', result) := Checkpoint(core', x.lastSequenceID, executed, now);
      Executed(x', result)
  }

  /** ExecuteTask. `replaySource` names the UUIDs drawn while catching up. */
  function ExecuteTask(p: Program, x: Executor, t: Task, history: seq<Event>, now: Time, source: nat,
                          replaySource: nat, maxHistorySize: int): TaskOutcome
  {
    if t.state == Finished then Executed(x, ExecutionResult(Finished, [], [], [], []))
    else
      match CatchUp(p, x, t, history, replaySource)
      case CatchUpCrash => ProcessCrash
      case Behind(next, reason) => Refused(next, reason)
      case Ready(next, skip) => Work(p, next, skip, t, now, source, maxHistorySize)
  }
}
