/** Commands: the decisions of a workflow and their state machine (internal/command). */
module Commands {
  import opened Basics
  import opened History

  datatype CommandState = Pending | Committed | CancelPending | Canceled | Done

  datatype Action =
    | Activity(name: string, inputs: seq<Payload>, attempt: int, queue: Queue)
    | Timer(at: Time, name: string)
    | SubWorkflow(queue: Queue, instance: Instance, name: string, inputs: seq<Payload>)
    | Complete(instance: Instance, result: Payload, error: Option<Error>)
    | ContinueAsNew(instance: Instance, name: string, inputs: seq<Payload>, result: Payload,
                    continuedExecutionID: Name)

  /**
    A command. `armed` says that its cancel callback is still registered on the Done channel of the
    context it was created with.
   */
  datatype Command = Command(id: nat, action: Action, state: CommandState, armed: bool)
  {
    predicate Cancelable() {
      action.Timer? || action.SubWorkflow?
    }

    /** Replaces the instance a sub-workflow command runs; other commands have none. */
    function WithInstance(instance: Instance): (c: Command)
      ensures c.id == id
    {
      match action
      case SubWorkflow(queue, _, name, inputs) => this.(action := SubWorkflow(queue, instance, name, inputs))
      case _ => this
    }

    /** Marks the command as committed; None is the panic on an invalid transition. */
    function Commit(): (c: Option<Command>)
      ensures c.Some? ==> c.value.id == id
    {
      if state != Pending then None
      else if action.Complete? then Some(this.(state := CommandState.Done))
      else Some(this.(state := Committed))
    }

    /** Marks the result as applied; the whenDone callback removes the cancel callback. */
    function Settle(): (c: Option<Command>)
      ensures c.Some? ==> c.value.id == id
    {
      if state == Committed || (Cancelable() && state == Canceled)
      then Some(this.(state := CommandState.Done, armed := false))
      else None
    }

    function Cancel(): Option<Command> {
      match state
      case Pending | Canceled => Some(this.(state := Canceled))
      case Committed => Some(this.(state := CancelPending))
      case _ => None
    }

    function HandleCancel(): Option<Command> {
      if state == CancelPending then Some(this.(state := Canceled)) else None
    }

    /** Whether executing the command yields anything. */
    predicate Actionable() {
      state == Pending || (Cancelable() && state == CancelPending)
    }

    /** The state after `Execute`. */
    function Executed(): Command {
      if state == Pending then
        if action.Complete? then this.(state := CommandState.Done) else this.(state := Committed)
      else if Cancelable() && state == CancelPending then this.(state := Canceled)
      else this
    }

    /** What `Execute` returns; a command with nothing to do returns the empty result. */
    function Execute(now: Time, source: nat): CommandResult {
      if state == Pending then
        match action
        case Activity(name, inputs, attempt, queue) =>
          var event := OwnEvent(now, source, ActivityScheduled(queue, name, inputs, attempt));
          CommandResult(Active, [event], [event], [], [])
        case Timer(at, name) =>
          CommandResult(
            Active,
            [OwnEvent(now, source, TimerScheduled(at, name))],
            [],
            [NewPendingEvent(Drawn(source, ForMessage, id), now, id, TimerFired(now, at, name)).(visibleAt := Some(at))],
            [])
        case SubWorkflow(queue, instance, name, inputs) =>
          CommandResult(
            Active,
            [OwnEvent(now, source, SubWorkflowScheduled(instance, name, inputs))],
            [], [],
            [WorkflowEvent(instance, Message(now, source, 0, ExecutionStarted(queue, name, inputs)))])
        case Complete(instance, result, error) =>
          CommandResult(
            Finished,
            [NewPendingEvent(Drawn(source, ForEvent, id), now, 0, ExecutionFinished(result, error))],
            [], [],
            if instance.SubWorkflow() then
              [WorkflowEvent(
                 instance.parent.value,
                 Message(now, source, instance.parentEventID,
                         if error.Some? then SubWorkflowFailed(error.value) else SubWorkflowCompleted(result)))]
            else [])
        case ContinueAsNew(instance, name, inputs, result, continuedExecutionID) =>
          CommandResult(
            InstanceState.ContinuedAsNew,
            [NewPendingEvent(Drawn(source, ForEvent, id), now, 0,
                             ExecutionContinuedAsNew(result, continuedExecutionID))],
            [], [],
            [WorkflowEvent(Continued(instance, continuedExecutionID),
                           Message(now, source, 0, ExecutionStarted("", name, inputs)))])
      else if action.Timer? && state == CancelPending then
        CommandResult(Active, [OwnEvent(now, source, TimerCanceled)], [], [], [])
      else if action.SubWorkflow? && state == CancelPending then
        CommandResult(
          Active,
          [OwnEvent(now, source, SubWorkflowCancellationRequested(action.instance))],
          [], [],
          [WorkflowEvent(action.instance, Message(now, source, 0, ExecutionCanceled))])
      else NoResult
    }

    function OwnEvent(now: Time, source: nat, attributes: Attributes): Event {
      NewPendingEvent(Drawn(source, ForEvent, id), now, id, attributes)
    }

    function Message(now: Time, source: nat, scheduleEventID: int, attributes: Attributes): Event {
      NewPendingEvent(Drawn(source, ForMessage, id), now, scheduleEventID, attributes)
    }
  }

  /** The execution that continues `instance`; a sub-workflow keeps its parent link. */
  function Continued(instance: Instance, executionID: Name): Instance {
    if instance.SubWorkflow()
    then Instance(instance.instanceID, executionID, instance.parent, instance.parentEventID)
    else Instance(instance.instanceID, executionID, None, 0)
  }

  datatype CommandResult = CommandResult(
    state: InstanceState,
    events: seq<Event>,
    activityEvents: seq<Event>,
    timerEvents: seq<Event>,
    workflowEvents: seq<WorkflowEvent>)
  {
    /** The results of two commands, in this order. */
    function Then(next: CommandResult): CommandResult {
      CommandResult(
        if next.state.Rank() > state.Rank() then next.state else state,
        events + next.events,
        activityEvents + next.activityEvents,
        timerEvents + next.timerEvents,
        workflowEvents + next.workflowEvents)
    }
  }

  const NoResult := CommandResult(Active, [], [], [], [])

  /** The combined result of executing the commands in order. */
  function Collect(commands: seq<Command>, now: Time, source: nat): CommandResult {
    if commands == [] then NoResult
    else
      var last := |commands| - 1;
      Collect(commands[..last], now, source).Then(commands[last].Execute(now, source))
  }

  /** The commands after all of them were executed. */
  function ExecutedAll(commands: seq<Command>): (executed: seq<Command>)
    ensures |executed| == |commands|
    ensures forall i :: 0 <= i < |commands| ==> executed[i] == commands[i].Executed()
  {
    seq(|commands|, i requires 0 <= i < |commands| => commands[i].Executed())
  }

  // ---------- what executing a command yields ----------

  /** An event that was just made: not numbered yet, and visible at once. */
  predicate IsNew(e: Event, id: Name, now: Time, scheduleEventID: int, attributes: Attributes) {
    e == Event(id, 0, now, scheduleEventID, attributes, None)
  }

  /** The command's own event, which its instance records. */
  predicate Records(c: Command, e: Event, now: Time, source: nat) {
    var id := Drawn(source, ForEvent, c.id);
    match c.action
    case Activity(name, inputs, attempt, queue) =>
      IsNew(e, id, now, c.id, ActivityScheduled(queue, name, inputs, attempt))
    case Timer(at, name) =>
      IsNew(e, id, now, c.id, if c.state == Pending then TimerScheduled(at, name) else TimerCanceled)
    case SubWorkflow(_, instance, name, inputs) =>
      IsNew(e, id, now, c.id,
            if c.state == Pending then SubWorkflowScheduled(instance, name, inputs)
            else SubWorkflowCancellationRequested(instance))
    case Complete(_, result, error) => IsNew(e, id, now, 0, ExecutionFinished(result, error))
    case ContinueAsNew(_, _, _, result, executionID) => IsNew(e, id, now, 0, ExecutionContinuedAsNew(result, executionID))
  }

  /** The firing of a timer becomes visible when the timer is due. */
  predicate Fires(c: Command, e: Event, now: Time, source: nat) {
    c.action.Timer? &&
    e.attributes == TimerFired(now, c.action.at, c.action.name) && e.visibleAt == Some(c.action.at) &&
    e.scheduleEventID == c.id && e.id == Drawn(source, ForMessage, c.id) && e.timestamp == now
  }

  /** Whom the command tells what: a new execution, a canceled sub-workflow, or the parent of an execution that ends. */
  predicate Tells(c: Command, w: WorkflowEvent, now: Time, source: nat) {
    var id := Drawn(source, ForMessage, c.id);
    match c.action
    case SubWorkflow(queue, instance, name, inputs) =>
      w.instance == instance &&
      IsNew(w.event, id, now, 0, if c.state == Pending then ExecutionStarted(queue, name, inputs) else ExecutionCanceled)
    case Complete(instance, result, error) =>
      instance.parent == Some(w.instance) &&
      IsNew(w.event, id, now, instance.parentEventID,
            if error.Some? then SubWorkflowFailed(error.value) else SubWorkflowCompleted(result))
    case ContinueAsNew(instance, name, inputs, _, executionID) =>
      && w.instance.instanceID == instance.instanceID && w.instance.executionID == executionID
      && w.instance.parent == instance.parent && (instance.parent.Some? ==> w.instance.parentEventID == instance.parentEventID)
      && IsNew(w.event, id, now, 0, ExecutionStarted("", name, inputs))
    case _ => false
  }

  /** Whether somebody else has to know. */
  predicate HasMessage(c: Command) {
    c.action.SubWorkflow? || c.action.ContinueAsNew? || (c.action.Complete? && c.action.instance.parent.Some?)
  }

  /** Only commands that are new, or whose cancellation is still to be recorded, have something to do. */
  predicate HasWork(c: Command) {
    c.state == Pending || (c.state == CancelPending && (c.action.Timer? || c.action.SubWorkflow?))
  }

  /** What executing the command yields. */
  predicate Yields(c: Command, now: Time, source: nat, r: CommandResult) {
    if !HasWork(c) then r == CommandResult(Active, [], [], [], [])
    else
      && |r.events| == 1 && Records(c, r.events[0], now, source)
      && r.state == (if c.action.Complete? then Finished
                     else if c.action.ContinueAsNew? then InstanceState.ContinuedAsNew else Active)
      && r.activityEvents == (if c.action.Activity? then r.events else [])
      && (if c.action.Timer? && c.state == Pending then |r.timerEvents| == 1 && Fires(c, r.timerEvents[0], now, source)
          else r.timerEvents == [])
      && (if HasMessage(c) then |r.workflowEvents| == 1 && Tells(c, r.workflowEvents[0], now, source)
          else r.workflowEvents == [])
  }

  /** Where executing the command leaves it. */
  predicate MovesOn(c: Command, d: Command) {
    && d.id == c.id && d.action == c.action && d.armed == c.armed
    && d.state == if !HasWork(c) then c.state
                  else if c.state == CancelPending then Canceled
                  else if c.action.Complete? then CommandState.Done else Committed
  }

  lemma ExecuteYields(c: Command, now: Time, source: nat)
    ensures Yields(c, now, source, c.Execute(now, source)) && MovesOn(c, c.Executed())
  {
  }
}
