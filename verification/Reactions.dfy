/**
  What events do to a workflow, as a table: which command must be there, in which state, what becomes
  of it and of its future, and what the workflow code is told. Executing an event does exactly this.
 */
module Reactions {
  import opened Basics
  import opened History
  import opened Commands
  import opened Execution
  import opened Stepping

  // ---------- what an event says ----------

  /** What an event tells the workflow code; the third kind starts its coroutines from the beginning. */
  datatype Delivery = Silent | Told(stimulus: Stimulus) | Begun(stimulus: Stimulus)

  /** The outcome an event brings to whatever was started under its schedule id. */
  function OutcomeOf(e: Event): Option<Outcome> {
    match e.attributes
    case ActivityCompleted(result) => Some(Value(Some(result)))
    case ActivityFailed(reason) => Some(Failure(reason))
    case SubWorkflowCompleted(result) => Some(Value(Some(result)))
    case SubWorkflowFailed(reason) => Some(Failure(reason))
    case TimerFired(_, _, _) => Some(Value(None))
    case TimerCanceled => Some(Failure(ContextCanceled))
    case _ => None
  }

  /** Firings and cancellations of timers are ignored by futures that are settled already. */
  function DeliveryOf(e: Event, pending: bool): Delivery {
    match e.attributes
    case ExecutionStarted(_, name, inputs) => Begun(Start(name, inputs))
    case ExecutionCanceled => Told(Canceling)
    case SignalReceived(name, arg) => Told(Signaled(name, arg))
    case SubWorkflowCancellationRequested(_) => Told(Continue)
    case _ => if OutcomeOf(e).Some? && pending then Told(Resolved(e.scheduleEventID, OutcomeOf(e).value)) else Silent
  }

  /** The command an event is about must be of this kind; `named` if it must also have the recorded name. */
  predicate Concerns(e: Event, action: Action) {
    match e.attributes
    case ActivityScheduled(_, name, _, _) => action.Activity? && action.name == name
    case SubWorkflowScheduled(_, name, _) => action.SubWorkflow? && action.name == name
    case ActivityCompleted(_) => action.Activity?
    case ActivityFailed(_) => action.Activity?
    case SubWorkflowCompleted(_) => action.SubWorkflow?
    case SubWorkflowFailed(_) => action.SubWorkflow?
    case SubWorkflowCancellationRequested(_) => action.SubWorkflow?
    case TimerScheduled(_, _) => action.Timer?
    case TimerFired(_, _, _) => action.Timer?
    case TimerCanceled => action.Timer?
    case _ => false
  }

  /** Whether the event changes the command of its schedule id at all. */
  predicate Moves(e: Event, pending: bool) {
    IsScheduled(e.attributes) || IsResult(e.attributes) || e.attributes.TimerCanceled? ||
    e.attributes.SubWorkflowCancellationRequested? || (e.attributes.TimerFired? && pending)
  }

  /** How the event moves the command. */
  predicate Moved(e: Event, c: Command, d: Command) {
    d.id == c.id &&
    if IsScheduled(e.attributes) then
      && c.state == Pending && d.armed == c.armed
      && d.state == (if c.action.Complete? then CommandState.Done else Committed)
      && if e.attributes.SubWorkflowScheduled? then TookOver(c.action, e.attributes.instance, d.action) else d.action == c.action
    else if e.attributes.TimerCanceled? || e.attributes.SubWorkflowCancellationRequested? then
      c.state == CancelPending && d == c.(state := Canceled)
    else
      && (c.state == Committed || (c.state == Canceled && !c.action.Activity?))
      && d == c.(state := CommandState.Done, armed := false)
  }

  /** Only the instance differs. */
  predicate TookOver(a: Action, instance: Instance, b: Action) {
    a.SubWorkflow? && b.SubWorkflow? && b.instance == instance &&
    b.queue == a.queue && b.name == a.name && b.inputs == a.inputs
  }

  // ---------- the table ----------

  /** What an event changes before the workflow code is told. */
  predicate Prepared(core: Core, e: Event, next: Core) {
    var id := e.scheduleEventID;
    var pending := id in core.pendingFutures;
    && next.instance == core.instance && next.source == core.source && next.historyLength == core.historyLength
    && next.nextScheduleEventID == core.nextScheduleEventID && next.workflow == core.workflow
    && next.time == (if e.attributes.TaskStarted? then e.timestamp else core.time)
    && next.workflowName == (if e.attributes.ExecutionStarted? then e.attributes.name else core.workflowName)
    && (IsResult(e.attributes) ==> pending)
    && next.pendingFutures == (if OutcomeOf(e).Some? then core.pendingFutures - {id} else core.pendingFutures)
    && |next.commands| == |core.commands|
    && (forall i :: 0 <= i < |core.commands| && !(i + 1 == id && Moves(e, pending)) ==> next.commands[i] == core.commands[i])
    && (Moves(e, pending) ==>
          && 1 <= id <= |core.commands| && core.commands[id - 1].id == id
          && Concerns(e, core.commands[id - 1].action) && Moved(e, core.commands[id - 1], next.commands[id - 1]))
  }

  /** What the workflow code sees. */
  predicate Sees(core: Core, v: View) {
    && v.instance == core.instance && v.time == core.time && v.historyLength == core.historyLength
    && v.pendingFutures == core.pendingFutures
    && |v.commandStates| == |core.commands|
    && (forall i :: 0 <= i < |core.commands| ==> v.commandStates[i] == core.commands[i].state)
  }

  /** The future can decode the payload of a successful result. */
  predicate Readable(p: Program, core: Core, e: Event) {
    var id := e.scheduleEventID;
    (e.attributes.ActivityCompleted? || e.attributes.SubWorkflowCompleted?) && id in core.pendingFutures ==>
      p.decodes(core.pendingFutures[id], e.attributes.result)
  }

  /** The workflow code, seeing `v`, runs once from `coroutines`, and what it decides is done. */
  predicate Ran(p: Program, core: Core, coroutines: Coroutines, stimulus: Stimulus, v: View, next: Core) {
    var turn := p.deliver(coroutines, stimulus, v);
    turn.error.None? && next == OperateAll(core.(workflow := Some(turn.coroutines)), turn.operations)
  }

  /** The workflow code is told, if the event tells it anything. */
  predicate Delivered(p: Program, core: Core, e: Event, mid: Core, v: View, next: Core) {
    match DeliveryOf(e, e.scheduleEventID in core.pendingFutures)
    case Silent => next == mid
    case Told(stimulus) => core.workflow.Some? && Ran(p, mid, core.workflow.value, stimulus, v, next)
    case Begun(stimulus) => p.registered(mid.workflowName) && Ran(p, mid, p.blank, stimulus, v, next)
  }

  /** Executing the event took the workflow from `core` to `next`. */
  ghost predicate Reacts(p: Program, core: Core, e: Event, next: Core) {
    Readable(p, core, e) && !e.attributes.ExecutionTerminated? &&
    exists mid, v :: Prepared(core, e, mid) && Sees(mid, v) && Delivered(p, core, e, mid, v, next)
  }

  // ---------- the handlers follow the table ----------

  lemma ReactsBy(p: Program, core: Core, e: Event, mid: Core, next: Core)
    requires Prepared(core, e, mid) && Delivered(p, core, e, mid, mid.Look(), next)
    requires Readable(p, core, e) && !e.attributes.ExecutionTerminated?
    ensures Reacts(p, core, e, next)
  {
    hide Prepared, Delivered;
    assert Sees(mid, mid.Look());
  }

  lemma RunMeans(p: Program, core: Core, coroutines: Coroutines, stimulus: Stimulus)
    ensures var r := Run(p, core, coroutines, stimulus);
            r.Ok? ==> Ran(p, core, coroutines, stimulus, core.Look(), r.core)
  {
  }

  lemma ResumeMeans(p: Program, core: Core, stimulus: Stimulus)
    ensures var r := Resume(p, core, stimulus);
            r.Ok? ==> core.workflow.Some? && Ran(p, core, core.workflow.value, stimulus, core.Look(), r.core)
  {
    hide Run, Ran;
    if core.workflow.Some? {
      RunMeans(p, core, core.workflow.value, stimulus);
    }
  }

  lemma ResultReacts(p: Program, core: Core, e: Event, outcome: Outcome, expected: Expectation)
    requires IsResult(e.attributes) || e.attributes.TimerFired?
    requires OutcomeOf(e) == Some(outcome)
    requires expected == if e.attributes.TimerFired? then ATimer
                         else if e.attributes.ActivityCompleted? || e.attributes.ActivityFailed? then AnActivity
                         else ASubWorkflow
    requires HandleResult(p, core, e.scheduleEventID, outcome, expected).Ok?
    ensures Reacts(p, core, e, HandleResult(p, core, e.scheduleEventID, outcome, expected).core)
  {
    hide Resume, Ran, Reacts;
    var id := e.scheduleEventID;
    var mid := core.Untrack(id).Put(core.Untrack(id).Find(id).value.Settle().value);
    ResumeMeans(p, mid, Resolved(id, outcome));
    assert Prepared(core, e, mid);
    ReactsBy(p, core, e, mid, HandleResult(p, core, id, outcome, expected).core);
  }

  lemma ScheduledReacts(p: Program, core: Core, e: Event, expected: Expectation, recorded: Option<Instance>)
    requires match e.attributes
             case ActivityScheduled(_, name, _, _) => expected == ActivityNamed(name) && recorded == None
             case SubWorkflowScheduled(instance, name, _) => expected == SubWorkflowNamed(name) && recorded == Some(instance)
             case TimerScheduled(_, _) => expected == ATimer && recorded == None
             case _ => false
    requires HandleScheduled(core, e.scheduleEventID, expected, recorded).Ok?
    ensures Reacts(p, core, e, HandleScheduled(core, e.scheduleEventID, expected, recorded).core)
  {
    hide Reacts;
    var mid := HandleScheduled(core, e.scheduleEventID, expected, recorded).core;
    assert Prepared(core, e, mid);
    ReactsBy(p, core, e, mid, mid);
  }

  lemma TimerCanceledReacts(p: Program, core: Core, e: Event)
    requires e.attributes.TimerCanceled? && HandleTimerCanceled(p, core, e.scheduleEventID).Ok?
    ensures Reacts(p, core, e, HandleTimerCanceled(p, core, e.scheduleEventID).core)
  {
    hide Resume, Ran, Reacts;
    var id := e.scheduleEventID;
    var canceled := core.Put(core.Find(id).value.HandleCancel().value);
    var mid := if id in core.pendingFutures then canceled.Untrack(id) else canceled;
    ResumeMeans(p, mid, Resolved(id, Failure(ContextCanceled)));
    assert mid.pendingFutures == core.pendingFutures - {id};
    assert Prepared(core, e, mid);
    ReactsBy(p, core, e, mid, HandleTimerCanceled(p, core, id).core);
  }

  lemma CancellationReacts(p: Program, core: Core, e: Event)
    requires e.attributes.SubWorkflowCancellationRequested?
    requires HandleSubWorkflowCancellation(p, core, e.scheduleEventID).Ok?
    ensures Reacts(p, core, e, HandleSubWorkflowCancellation(p, core, e.scheduleEventID).core)
  {
    hide Resume, Ran, Reacts;
    var id := e.scheduleEventID;
    var mid := core.Put(core.Find(id).value.HandleCancel().value);
    ResumeMeans(p, mid, Stimulus.Continue);
    assert Prepared(core, e, mid);
    ReactsBy(p, core, e, mid, HandleSubWorkflowCancellation(p, core, id).core);
  }

  lemma StartedReacts(p: Program, core: Core, e: Event)
    requires e.attributes.ExecutionStarted?
    requires HandleExecutionStarted(p, core, e.attributes.name, e.attributes.inputs).Ok?
    ensures Reacts(p, core, e, HandleExecutionStarted(p, core, e.attributes.name, e.attributes.inputs).core)
  {
    hide Run, Ran, Reacts;
    var mid := core.(workflowName := e.attributes.name);
    RunMeans(p, mid, p.blank, Start(e.attributes.name, e.attributes.inputs));
    assert Prepared(core, e, mid);
    ReactsBy(p, core, e, mid, HandleExecutionStarted(p, core, e.attributes.name, e.attributes.inputs).core);
  }

  /** Events about no command: the workflow code is told at most. */
  lemma OtherReacts(p: Program, core: Core, e: Event, stimulus: Stimulus)
    requires e.attributes.ExecutionCanceled? || e.attributes.SignalReceived?
    requires DeliveryOf(e, e.scheduleEventID in core.pendingFutures) == Told(stimulus) && Resume(p, core, stimulus).Ok?
    ensures Reacts(p, core, e, Resume(p, core, stimulus).core)
  {
    hide Resume, Ran, Reacts;
    ResumeMeans(p, core, stimulus);
    assert Prepared(core, e, core);
    ReactsBy(p, core, e, core, Resume(p, core, stimulus).core);
  }

  lemma SilentReacts(p: Program, core: Core, e: Event)
    requires e.attributes.TaskStarted? || IsTerminal(e.attributes) ||
             (e.attributes.TimerFired? && e.scheduleEventID !in core.pendingFutures)
    ensures Reacts(p, core, e, if e.attributes.TaskStarted? then core.(time := e.timestamp) else core)
  {
    hide Reacts;
    var next := if e.attributes.TaskStarted? then core.(time := e.timestamp) else core;
    assert core.pendingFutures - {e.scheduleEventID} == core.pendingFutures || !e.attributes.TimerFired?;
    assert Prepared(core, e, next);
    ReactsBy(p, core, e, next, next);
  }

  /** Whatever event is executed without error: what it does is what the table says. */
  lemma HandleReacts(p: Program, core: Core, e: Event)
    requires Handle(p, core, e).Ok?
    ensures Reacts(p, core, e, Handle(p, core, e).core)
  {
    hide Reacts, Run, Resume, HandleResult, HandleScheduled, HandleTimerCanceled, HandleSubWorkflowCancellation,
         HandleExecutionStarted;
    match e.attributes
    case ExecutionStarted(_, _, _) => StartedReacts(p, core, e);
    case ExecutionFinished(_, _) => SilentReacts(p, core, e);
    case ExecutionContinuedAsNew(_, _) => SilentReacts(p, core, e);
    case ExecutionCanceled => OtherReacts(p, core, e, Canceling);
    case TaskStarted => SilentReacts(p, core, e);
    case SubWorkflowScheduled(instance, name, _) =>
      ScheduledReacts(p, core, e, SubWorkflowNamed(name), Some(instance));
    case SubWorkflowCancellationRequested(_) => CancellationReacts(p, core, e);
    case SubWorkflowCompleted(result) => ResultReacts(p, core, e, Value(Some(result)), ASubWorkflow);
    case SubWorkflowFailed(reason) => ResultReacts(p, core, e, Failure(reason), ASubWorkflow);
    case ActivityScheduled(_, name, _, _) => ScheduledReacts(p, core, e, ActivityNamed(name), None);
    case ActivityCompleted(result) => ResultReacts(p, core, e, Value(Some(result)), AnActivity);
    case ActivityFailed(reason) => ResultReacts(p, core, e, Failure(reason), AnActivity);
    case TimerScheduled(_, _) => ScheduledReacts(p, core, e, ATimer, None);
    case TimerFired(_, _, _) =>
      if e.scheduleEventID in core.pendingFutures {
        ResultReacts(p, core, e, Value(None), ATimer);
      } else {
        SilentReacts(p, core, e);
      }
    case TimerCanceled => TimerCanceledReacts(p, core, e);
    case SignalReceived(name, arg) => OtherReacts(p, core, e, Signaled(name, arg));
  }

  // ---------- and nothing else does ----------

  lemma SameView(core: Core, v: View)
    requires Sees(core, v)
    ensures v == core.Look()
  {
    assert v.commandStates == core.Look().commandStates;
  }

  /** The command the event is about, after it. */
  lemma PreparedPut(core: Core, e: Event, mid: Core)
    requires Prepared(core, e, mid) && Moves(e, e.scheduleEventID in core.pendingFutures)
    ensures core.Find(e.scheduleEventID) == Some(core.commands[e.scheduleEventID - 1])
    ensures
      var d := mid.commands[e.scheduleEventID - 1];
      d.id == e.scheduleEventID &&
      mid == if OutcomeOf(e).Some? then core.Put(d).Untrack(e.scheduleEventID) else core.Put(d)
  {
    var d := mid.commands[e.scheduleEventID - 1];
    assert mid.commands == core.commands[e.scheduleEventID - 1 := d];
  }

  lemma PreparedSame(core: Core, e: Event, mid: Core)
    requires Prepared(core, e, mid) && !Moves(e, e.scheduleEventID in core.pendingFutures)
    ensures mid == core.(time := if e.attributes.TaskStarted? then e.timestamp else core.time,
                         workflowName := if e.attributes.ExecutionStarted? then e.attributes.name else core.workflowName)
  {
    assert mid.commands == core.commands;
    assert e.attributes.TimerFired? ==> core.pendingFutures - {e.scheduleEventID} == core.pendingFutures;
  }

  lemma RanRuns(p: Program, core: Core, coroutines: Coroutines, stimulus: Stimulus, next: Core)
    requires Ran(p, core, coroutines, stimulus, core.Look(), next)
    ensures Run(p, core, coroutines, stimulus) == Ok(next)
  {
  }

  /** What is told is told by running the workflow code. */
  lemma DeliveredRuns(p: Program, core: Core, e: Event, mid: Core, next: Core)
    requires Delivered(p, core, e, mid, mid.Look(), next) && mid.workflow == core.workflow
    ensures
      match DeliveryOf(e, e.scheduleEventID in core.pendingFutures)
      case Silent => next == mid
      case Told(stimulus) => Resume(p, mid, stimulus) == Ok(next)
      case Begun(stimulus) => Run(p, mid, p.blank, stimulus) == Ok(next)
  {
    hide Ran, Run;
    match DeliveryOf(e, e.scheduleEventID in core.pendingFutures)
    case Silent =>
    case Told(stimulus) => RanRuns(p, mid, core.workflow.value, stimulus, next);
    case Begun(stimulus) => RanRuns(p, mid, p.blank, stimulus, next);
  }

  /** If the table has the event move a command, its handler does. */
  lemma MovesHandled(p: Program, core: Core, e: Event, mid: Core, next: Core)
    requires Prepared(core, e, mid) && Readable(p, core, e) && Moves(e, e.scheduleEventID in core.pendingFutures)
    requires
      match DeliveryOf(e, e.scheduleEventID in core.pendingFutures)
      case Silent => next == mid
      case Told(stimulus) => Resume(p, mid, stimulus) == Ok(next)
      case Begun(stimulus) => Run(p, mid, p.blank, stimulus) == Ok(next)
    ensures Handle(p, core, e) == Ok(next)
  {
    hide Resume, Run, Prepared;
    var id := e.scheduleEventID;
    PreparedMoves(core, e, mid);
    PreparedPut(core, e, mid);
    var c, d := core.commands[id - 1], mid.commands[id - 1];
    assert core.Untrack(id).Put(d) == core.Put(d).Untrack(id);
    assert e.attributes.SubWorkflowScheduled? ==> d == c.WithInstance(e.attributes.instance).(state := Committed);
  }

  lemma PreparedMoves(core: Core, e: Event, mid: Core)
    requires Prepared(core, e, mid) && Moves(e, e.scheduleEventID in core.pendingFutures)
    ensures 1 <= e.scheduleEventID <= |core.commands| == |mid.commands|
    ensures
      var c := core.commands[e.scheduleEventID - 1];
      c.id == e.scheduleEventID && Concerns(e, c.action) && Moved(e, c, mid.commands[e.scheduleEventID - 1])
    ensures IsResult(e.attributes) ==> e.scheduleEventID in core.pendingFutures
  {
  }

  lemma OthersHandled(p: Program, core: Core, e: Event, mid: Core, next: Core)
    requires Prepared(core, e, mid) && !Moves(e, e.scheduleEventID in core.pendingFutures)
    requires !e.attributes.ExecutionTerminated? && (e.attributes.ExecutionStarted? ==> p.registered(mid.workflowName))
    requires
      match DeliveryOf(e, e.scheduleEventID in core.pendingFutures)
      case Silent => next == mid
      case Told(stimulus) => Resume(p, mid, stimulus) == Ok(next)
      case Begun(stimulus) => Run(p, mid, p.blank, stimulus) == Ok(next)
    ensures Handle(p, core, e) == Ok(next)
  {
    hide Resume, Run, Prepared;
    PreparedSame(core, e, mid);
  }

  /** An event is executed without error, arriving at `next`, exactly if the table says so. */
  lemma HandleIsTable(p: Program, core: Core, e: Event, next: Core)
    ensures Handle(p, core, e) == Ok(next) <==> Reacts(p, core, e, next)
  {
    hide Handle, Prepared, Delivered, Sees, Readable;
    if Handle(p, core, e) == Ok(next) {
      HandleReacts(p, core, e);
    }
    if Reacts(p, core, e, next) {
      var mid, v :| Prepared(core, e, mid) && Sees(mid, v) && Delivered(p, core, e, mid, v, next);
      SameView(mid, v);
      PreparedKeeps(p, core, e, mid, v, next);
      DeliveredRuns(p, core, e, mid, next);
      if Moves(e, e.scheduleEventID in core.pendingFutures) {
        MovesHandled(p, core, e, mid, next);
      } else {
        OthersHandled(p, core, e, mid, next);
      }
    }
  }

  lemma PreparedKeeps(p: Program, core: Core, e: Event, mid: Core, v: View, next: Core)
    requires Prepared(core, e, mid) && Delivered(p, core, e, mid, v, next)
    ensures mid.workflow == core.workflow && (e.attributes.ExecutionStarted? ==> p.registered(mid.workflowName))
  {
  }

  // ---------- refusals ----------

  /** Why an event is refused before anything happens, in the order in which it is checked. */
  function Refusal(p: Program, core: Core, e: Event): Option<Error> {
    var id := e.scheduleEventID;
    var pending := id in core.pendingFutures;
    if e.attributes.ExecutionTerminated? then Some(UnknownEventType)
    else if e.attributes.ExecutionStarted? && !p.registered(e.attributes.name) then Some(WorkflowNotFound)
    else if IsResult(e.attributes) && !pending then Some(NoPendingFuture)
    else if !Readable(p, core, e) then Some(DecodingFailed)
    else if !Moves(e, pending) then None
    else if !(1 <= id <= |core.commands| && core.commands[id - 1].id == id) then Some(CommandNotFound)
    else if !Concerns(e, core.commands[id - 1].action) then Some(UnexpectedCommand)
    else None
  }

  /** The command is in a state in which the event cannot move it. */
  predicate Stuck(core: Core, e: Event) {
    var id := e.scheduleEventID;
    Moves(e, id in core.pendingFutures) && 1 <= id <= |core.commands| &&
    var c := core.commands[id - 1];
    if IsScheduled(e.attributes) then c.state != Pending
    else if e.attributes.TimerCanceled? || e.attributes.SubWorkflowCancellationRequested? then c.state != CancelPending
    else !(c.state == Committed || (c.state == Canceled && !c.action.Activity?))
  }

  /** The workflow code was told, and reported an error. */
  predicate Failed(p: Program, core: Core, e: Event, mid: Core, v: View, reason: Error) {
    match DeliveryOf(e, e.scheduleEventID in core.pendingFutures)
    case Silent => false
    case Told(stimulus) => core.workflow.Some? && p.deliver(core.workflow.value, stimulus, v).error == Some(reason)
    case Begun(stimulus) => p.deliver(p.blank, stimulus, v).error == Some(reason)
  }

  /**
    Every other way executing an event ends: it is refused for the first check that fails; a transition its command
    cannot make, or workflow code that was not started, panics; or the workflow code reports an error.
   */
  lemma HandleFails(p: Program, core: Core, e: Event)
    ensures
      match Refusal(p, core, e)
      case Some(reason) => Handle(p, core, e).Err? && Handle(p, core, e).reason == reason
      case None =>
        var told := DeliveryOf(e, e.scheduleEventID in core.pendingFutures).Told?;
        Handle(p, core, e).Panic? <==> Stuck(core, e) || (told && core.workflow.None?)
    ensures Refusal(p, core, e).None? && Handle(p, core, e).Err? ==>
              exists mid, v :: Prepared(core, e, mid) && Sees(mid, v) && Failed(p, core, e, mid, v, Handle(p, core, e).reason)
  {
    hide Handle, Prepared, Sees;
    if Refusal(p, core, e).Some? {
      RefusedFirst(p, core, e);
    } else {
      PanicsExactly(p, core, e);
      if Handle(p, core, e).Err? {
        var mid := CodeFailed(p, core, e);
      }
    }
  }

  lemma RefusedFirst(p: Program, core: Core, e: Event)
    requires Refusal(p, core, e).Some?
    ensures Handle(p, core, e).Err? && Handle(p, core, e).reason == Refusal(p, core, e).value
  {
    hide Run, Resume;
  }

  lemma RunReturns(p: Program)
    ensures forall core, coroutines, stimulus :: !Run(p, core, coroutines, stimulus).Panic?
    ensures forall core, stimulus :: Resume(p, core, stimulus).Panic? <==> core.workflow.None?
  {
  }

  lemma PanicsExactly(p: Program, core: Core, e: Event)
    requires Refusal(p, core, e).None?
    ensures Handle(p, core, e).Panic? <==>
            Stuck(core, e) ||
            (DeliveryOf(e, e.scheduleEventID in core.pendingFutures).Told? && core.workflow.None?)
  {
    hide Run, Resume;
    RunReturns(p);
  }

  lemma RunFails(p: Program, core: Core, coroutines: Coroutines, stimulus: Stimulus)
    ensures var r := Run(p, core, coroutines, stimulus);
            r.Err? ==> p.deliver(coroutines, stimulus, core.Look()).error == Some(r.reason)
  {
  }

  lemma ResumeFails(p: Program, core: Core, stimulus: Stimulus)
    ensures var r := Resume(p, core, stimulus);
            r.Err? ==> core.workflow.Some? && p.deliver(core.workflow.value, stimulus, core.Look()).error == Some(r.reason)
  {
    if core.workflow.Some? {
      RunFails(p, core, core.workflow.value, stimulus);
    }
  }

  lemma CodeFailed(p: Program, core: Core, e: Event) returns (mid: Core)
    requires Refusal(p, core, e).None? && Handle(p, core, e).Err?
    ensures Prepared(core, e, mid) && Sees(mid, mid.Look())
    ensures Failed(p, core, e, mid, mid.Look(), Handle(p, core, e).reason)
  {
    hide Run, Resume, Prepared;
    var id := e.scheduleEventID;
    if OutcomeOf(e).Some? {
      mid := OutcomeFailed(p, core, e);
    } else if e.attributes.SubWorkflowCancellationRequested? {
      var canceled := core.Find(id).value.HandleCancel().value;
      mid := core.Put(canceled);
      ResumeFails(p, mid, Stimulus.Continue);
      assert Prepared(core, e, mid) by { PutPrepares(core, e, canceled); }
    } else if e.attributes.ExecutionStarted? {
      mid := core.(workflowName := e.attributes.name);
      RunFails(p, mid, p.blank, Start(e.attributes.name, e.attributes.inputs));
      assert Prepared(core, e, mid) by { NamePrepares(core, e); }
    } else {
      mid := core;
      var stimulus := DeliveryOf(e, id in core.pendingFutures).stimulus;
      ResumeFails(p, mid, stimulus);
      assert Prepared(core, e, mid) by { NothingPrepares(core, e); }
    }
  }

  lemma OutcomeFailed(p: Program, core: Core, e: Event) returns (mid: Core)
    requires Refusal(p, core, e).None? && Handle(p, core, e).Err? && OutcomeOf(e).Some?
    ensures Prepared(core, e, mid) && Failed(p, core, e, mid, mid.Look(), Handle(p, core, e).reason)
  {
    hide Run, Resume, Prepared;
    var id := e.scheduleEventID;
    var c := core.Find(id).value;
    var d := if e.attributes.TimerCanceled? then c.HandleCancel().value else c.Settle().value;
    mid := core.Put(d).Untrack(id);
    assert core.Untrack(id).Put(d) == mid;
    ResumeFails(p, mid, Resolved(id, OutcomeOf(e).value));
    assert Prepared(core, e, mid) by { PutPrepares(core, e, d); }
  }

  lemma PutPrepares(core: Core, e: Event, d: Command)
    requires Moves(e, e.scheduleEventID in core.pendingFutures) && core.Find(e.scheduleEventID).Some?
    requires IsResult(e.attributes) ==> e.scheduleEventID in core.pendingFutures
    requires Concerns(e, core.Find(e.scheduleEventID).value.action) && Moved(e, core.Find(e.scheduleEventID).value, d)
    ensures Prepared(core, e, if OutcomeOf(e).Some? then core.Put(d).Untrack(e.scheduleEventID) else core.Put(d))
  {
  }

  lemma NamePrepares(core: Core, e: Event)
    requires e.attributes.ExecutionStarted?
    ensures Prepared(core, e, core.(workflowName := e.attributes.name))
  {
  }

  lemma NothingPrepares(core: Core, e: Event)
    requires e.attributes.ExecutionCanceled? || e.attributes.SignalReceived?
    ensures Prepared(core, e, core)
  {
  }

  // ---------- what the workflow code decides ----------

  /** A new pending command with the next schedule id, and its future. */
  predicate Added(core: Core, action: Action, armed: bool, resultType: string, next: Core) {
    var id := core.nextScheduleEventID;
    && next.commands == core.commands + [Command(id, action, Pending, armed)]
    && next.pendingFutures == core.pendingFutures[id := resultType]
    && next.nextScheduleEventID == id + 1
  }

  /** A new child of the instance under its next schedule id. */
  predicate NewChild(core: Core, chosen: string, child: Instance) {
    var id := core.nextScheduleEventID;
    && child.parent == Some(core.instance) && child.parentEventID == id
    && child.instanceID == (if chosen == "" then Drawn(core.source, ForInstance, id) else Chosen(chosen))
    && child.executionID == Drawn(core.source, ForExecution, id)
  }

  /** A command whose context is canceled: canceled unless it was committed, then it asks for its cancellation. */
  predicate Closed(c: Command, d: Command) {
    && d.id == c.id && d.action == c.action && !d.armed
    && d.state == (match c.state
                   case Pending => Canceled
                   case Canceled => Canceled
                   case Committed => CancelPending
                   case CancelPending => CancelPending
                   case Done => CommandState.Done)
  }

  /** Its future is settled with it, except that of a sub-workflow that was committed. */
  predicate Releases(c: Command) {
    c.state == Pending || c.state == Canceled || (c.state == Committed && c.action.Timer?)
  }

  /** What an operation of the workflow code does. */
  predicate Does(core: Core, op: Operation, next: Core) {
    && next.instance == core.instance && next.source == core.source && next.workflow == core.workflow
    && next.workflowName == core.workflowName && next.time == core.time && next.historyLength == core.historyLength
    && match op
       case ScheduleActivity(name, inputs, attempt, queue, resultType) =>
         Added(core, Activity(name, inputs, attempt, queue), false, resultType, next)
       case ScheduleTimer(delay, name) => Added(core, Timer(core.time + delay, name), true, "", next)
       case ScheduleSubWorkflow(queue, chosen, name, inputs, resultType) =>
         |next.commands| == |core.commands| + 1 &&
         var a := next.commands[|core.commands|].action;
         && a.SubWorkflow? && a.queue == queue && a.name == name && a.inputs == inputs
         && NewChild(core, chosen, a.instance) && Added(core, a, true, resultType, next)
       case CloseDone(id) => Closes(core, id, next)
  }

  /** The Done channel closes for the operation with this id, if it still waits for that. */
  predicate Closes(core: Core, id: int, next: Core) {
    next.nextScheduleEventID == core.nextScheduleEventID &&
    if 1 <= id <= |core.commands| && core.commands[id - 1].id == id && core.commands[id - 1].armed then
      && |next.commands| == |core.commands| && Closed(core.commands[id - 1], next.commands[id - 1])
      && (forall i :: 0 <= i < |core.commands| && i != id - 1 ==> next.commands[i] == core.commands[i])
      && next.pendingFutures == if Releases(core.commands[id - 1]) then core.pendingFutures - {id} else core.pendingFutures
    else next.commands == core.commands && next.pendingFutures == core.pendingFutures
  }

  lemma OperateIsTable(core: Core, op: Operation, next: Core)
    ensures Operate(core, op) == next <==> Does(core, op, next)
  {
    OperateDoes(core, op);
    if Does(core, op, next) {
      DoesOne(core, op, Operate(core, op), next);
    }
  }

  lemma OperateDoes(core: Core, op: Operation)
    ensures Does(core, op, Operate(core, op))
  {
  }

  lemma DoesOne(core: Core, op: Operation, a: Core, b: Core)
    requires Does(core, op, a) && Does(core, op, b)
    ensures a == b
  {
    if op.CloseDone? {
      ClosesOne(core, op.scheduleEventID, a, b);
    }
  }

  lemma ClosesOne(core: Core, id: int, a: Core, b: Core)
    requires Closes(core, id, a) && Closes(core, id, b)
    ensures a.commands == b.commands && a.pendingFutures == b.pendingFutures &&
            a.nextScheduleEventID == b.nextScheduleEventID
  {
    if 1 <= id <= |core.commands| && core.commands[id - 1].id == id && core.commands[id - 1].armed {
      assert Closed(core.commands[id - 1], a.commands[id - 1]) && Closed(core.commands[id - 1], b.commands[id - 1]);
      forall i | 0 <= i < |core.commands|
        ensures a.commands[i] == b.commands[i]
      {
      }
    }
  }

  /** Operations are done one after the other, in their order. */
  lemma {:induction false} OperationsInOrder(core: Core, ops: seq<Operation>) returns (states: seq<Core>)
    ensures |states| == |ops| + 1 && states[0] == core && states[|ops|] == OperateAll(core, ops)
    ensures forall i :: 0 <= i < |ops| ==> Does(states[i], ops[i], states[i + 1])
    decreases |ops|
  {
    hide Operate, Does;
    if ops == [] {
      states := [core];
    } else {
      OperateDoes(core, ops[0]);
      var rest := OperationsInOrder(Operate(core, ops[0]), ops[1..]);
      states := [core] + rest;
    }
  }

  // ---------- whole tasks and histories ----------

  /** What executing the events one after the other did: event `i` is executed with history length `last + i + 1`. */
  ghost predicate ReactsInTurn(p: Program, states: seq<Core>, events: seq<Event>, last: int) {
    |states| == |events| + 1 &&
    forall i :: 0 <= i < |events| ==> Reacts(p, states[i].(historyLength := last + i + 1), events[i], states[i + 1])
  }

  lemma {:induction false} LiveReacts(p: Program, core: Core, last: int, events: seq<Event>, i: nat)
    returns (states: seq<Core>)
    requires i <= |events| && !ExecuteFrom(p, core, last, events, i).Crashed?
    ensures
      var live := ExecuteFrom(p, core, last, events, i);
      var n := if live.Stopped? then live.count else |events|;
      && i <= n <= |events| && ReactsInTurn(p, states, events[i..n], last + i) && states[0] == core
      && (live.AllExecuted? ==> states[n - i] == live.core)
      && (live.Stopped? ==>
            Handle(p, states[n - i].(historyLength := last + n + 1), events[n]) == Err(live.core, live.reason))
    decreases |events| - i
  {
    hide Handle, Reacts;
    var before := core.(historyLength := last + i + 1);
    states := [core];
    if i < |events| && Handle(p, before, events[i]).Ok? {
      var live := ExecuteFrom(p, core, last, events, i);
      var next := Handle(p, before, events[i]).core;
      var rest := LiveReacts(p, next, last, events, i + 1);
      var n := if live.Stopped? then live.count else |events|;
      HandleReacts(p, before, events[i]);
      states := [core] + rest;
      assert events[i..n] == [events[i]] + events[i + 1..n];
      forall j | 0 <= j < |events[i..n]|
        ensures Reacts(p, states[j].(historyLength := last + i + j + 1), events[i..n][j], states[j + 1])
      {
        if j > 0 {
          assert Reacts(p, rest[j - 1].(historyLength := last + (i + 1) + (j - 1) + 1), events[i + 1..n][j - 1], rest[j]);
        }
      }
    }
  }

  /**
    A task: first the clock is set to `now`, then every event that was received, in order, does to the workflow
    what the table says, up to the first that fails.
   */
  lemma TaskReacts(p: Program, x: Executor, t: Task, now: Time, source: nat) returns (states: seq<Core>)
    requires !ExecuteFrom(p, x.core.(source := source), x.lastSequenceID, ToExecute(t, now, source), 0).Crashed?
    ensures
      var live := ExecuteFrom(p, x.core.(source := source), x.lastSequenceID, ToExecute(t, now, source), 0);
      && 1 <= |states| - 1 <= |t.newEvents| + 1
      && states[0] == x.core.(source := source)
      && states[1] == states[0].(time := now, historyLength := x.lastSequenceID + 1)
      && (forall i :: 0 <= i < |states| - 2 ==>
            Reacts(p, states[i + 1].(historyLength := x.lastSequenceID + i + 2), t.newEvents[i], states[i + 2]))
      && (live.AllExecuted? ==> |states| == |t.newEvents| + 2 && states[|states| - 1] == live.core)
      && (live.Stopped? ==>
            var n := |states| - 2;
            n < |t.newEvents| &&
            Handle(p, states[n + 1].(historyLength := x.lastSequenceID + n + 2), t.newEvents[n]) == Err(live.core, live.reason))
  {
    hide Reacts, Handle, ExecuteFrom;
    var start, events := x.core.(source := source), ToExecute(t, now, source);
    states := LiveReacts(p, start, x.lastSequenceID, events, 0);
    var live := ExecuteFrom(p, start, x.lastSequenceID, events, 0);
    var n := if live.Stopped? then live.count else |events|;
    var before := start.(historyLength := x.lastSequenceID + 1);
    assert Handle(p, before, events[0]) == Ok(before.(time := now)) by { ClockSet(p, before, events[0]); }
    assert events[0..n][0] == events[0];
    assert Reacts(p, before, events[0], states[1]);
    HandleIsTable(p, before, events[0], states[1]);
    forall i | 0 <= i < |states| - 2
      ensures Reacts(p, states[i + 1].(historyLength := x.lastSequenceID + i + 2), t.newEvents[i], states[i + 2])
    {
      assert events[0..n][i + 1] == t.newEvents[i];
    }
  }

  lemma ClockSet(p: Program, core: Core, e: Event)
    requires e.attributes.TaskStarted?
    ensures Handle(p, core, e) == Ok(core.(time := e.timestamp))
  {
  }

  /** A history that replays without error did the same, event by event. */
  lemma {:induction false} HistoryReacts(p: Program, core: Core, h: seq<Event>) returns (states: seq<Core>)
    requires Steps(p, core, h).Ok?
    ensures |states| == |h| + 1 && states[0] == core && states[|h|] == Steps(p, core, h).core
    ensures forall i :: 0 <= i < |h| ==> Reacts(p, states[i].(historyLength := h[i].sequenceID), h[i], states[i + 1])
    decreases |h|
  {
    hide Handle, Reacts;
    if h == [] {
      states := [core];
    } else {
      var before := core.(historyLength := h[0].sequenceID);
      HandleReacts(p, before, h[0]);
      var rest := HistoryReacts(p, Handle(p, before, h[0]).core, h[1..]);
      states := [core] + rest;
    }
  }

  // ---------- catching up ----------

  /** The executor executed the recorded events one after the other, the first in state `states[0]`. */
  ghost predicate Replays(p: Program, events: seq<Event>, states: seq<Executor>) {
    && 1 <= |states| <= |events| + 1
    && forall i :: 0 <= i < |states| - 1 ==>
         && states[i].lastSequenceID <= events[i].sequenceID == states[i + 1].lastSequenceID
         && Reacts(p, states[i].core.(historyLength := states[i].lastSequenceID + 1), events[i], states[i + 1].core)
  }

  /** The event cannot be replayed: it is older than the state, or fails. */
  predicate Hinders(p: Program, x: Executor, e: Event, next: Executor, reason: Error) {
    if e.sequenceID < x.lastSequenceID then next == x && reason == OlderHistory
    else
      next.lastSequenceID == x.lastSequenceID &&
      Handle(p, x.core.(historyLength := x.lastSequenceID + 1), e) == Err(next.core, reason)
  }

  lemma NothingReplayed(p: Program, x: Executor, events: seq<Event>)
    ensures Replays(p, events, [x])
  {
  }

  lemma ReplaysMore(p: Program, x: Executor, events: seq<Event>, rest: seq<Executor>)
    requires events != [] && Replays(p, events[1..], rest)
    requires x.lastSequenceID <= events[0].sequenceID == rest[0].lastSequenceID
    requires Reacts(p, x.core.(historyLength := x.lastSequenceID + 1), events[0], rest[0].core)
    ensures Replays(p, events, [x] + rest) && |rest| > 0
  {
    hide Reacts;
    var states := [x] + rest;
    forall i | 0 <= i < |states| - 1
      ensures states[i].lastSequenceID <= events[i].sequenceID == states[i + 1].lastSequenceID
      ensures Reacts(p, states[i].core.(historyLength := states[i].lastSequenceID + 1), events[i], states[i + 1].core)
    {
      assert i > 0 ==> states[i] == rest[i - 1] && events[i] == events[1..][i - 1];
    }
  }

  /** Replay goes on to the last event, or to the first that cannot be replayed. */
  lemma {:induction false} ReplayReacts(p: Program, x: Executor, events: seq<Event>) returns (states: seq<Executor>)
    requires !Replay(p, x, events).Crash?
    ensures Replays(p, events, states) && states[0] == x
    ensures
      var n := |states| - 1;
      match Replay(p, x, events)
      case Caught(next) => n == |events| && next == states[n]
      case Failed(next, reason) => n < |events| && Hinders(p, states[n], events[n], next, reason)
    decreases |events|
  {
    hide Handle, Reacts, Replays, Hinders;
    NothingReplayed(p, x, events);
    states := [x];
    if events != [] && x.lastSequenceID <= events[0].sequenceID {
      var before := x.core.(historyLength := x.lastSequenceID + 1);
      if Handle(p, before, events[0]).Ok? {
        var next := Executor(Handle(p, before, events[0]).core, events[0].sequenceID);
        HandleReacts(p, before, events[0]);
        var rest := ReplayReacts(p, next, events[1..]);
        NotEmpty(p, events[1..], rest);
        states := [x] + rest;
        ReplaysMore(p, x, events, rest);
      } else {
        assert Hinders(p, x, events[0], Replay(p, x, events).executor, Replay(p, x, events).reason) by { Hindered(p, x, events); }
      }
    } else if events != [] {
      assert Hinders(p, x, events[0], x, OlderHistory) by { Hindered(p, x, events); }
    }
  }

  lemma Hindered(p: Program, x: Executor, events: seq<Event>)
    requires events != [] && !Replay(p, x, events).Crash?
    requires x.lastSequenceID <= events[0].sequenceID ==>
               !Handle(p, x.core.(historyLength := x.lastSequenceID + 1), events[0]).Ok?
    ensures Replay(p, x, events).Failed?
    ensures Hinders(p, x, events[0], Replay(p, x, events).executor, Replay(p, x, events).reason)
  {
    hide Handle;
  }

  /** The executor only has to record that the execution failed. */
  predicate GivesUp(failed: Executor, reason: Error, last: int, next: Executor) {
    && next.lastSequenceID == last
    && next.core == failed.core.(
         commands := failed.core.commands +
           [Command(failed.core.nextScheduleEventID, Complete(failed.core.instance, "", Some(reason)), Pending, false)],
         nextScheduleEventID := failed.core.nextScheduleEventID + 1)
  }

  /**
    Catching up: an executor that is ahead of the task is refused, one that is not behind stays as it is; otherwise
    exactly the missing events are replayed. If one fails the execution does, whereas the task is refused if they
    do not lead to the task's last event.
   */
  lemma CatchUpMeans(p: Program, x: Executor, t: Task, history: seq<Event>, source: nat)
    returns (missing: seq<Event>, states: seq<Executor>)
    requires !CatchUp(p, x, t, history, source).CatchUpCrash?
    ensures Filtered(history, (e: Event) => e.sequenceID > x.lastSequenceID, missing)
    ensures t.lastSequenceID > x.lastSequenceID ==>
              Replays(p, missing, states) && states[0] == x.(core := x.core.(source := source))
    ensures
      var outcome := CatchUp(p, x, t, history, source);
      if t.lastSequenceID < x.lastSequenceID then outcome == Behind(x, OlderHistory)
      else if t.lastSequenceID == x.lastSequenceID then outcome == Ready(x, false)
      else
        var n := |states| - 1;
        match outcome
        case Behind(next, reason) =>
          n == |missing| && next == states[n] && next.lastSequenceID != t.lastSequenceID && reason == HistoryMismatch
        case Ready(next, skip) =>
          if skip then
            n < |missing| && exists failed, reason ::
              Hinders(p, states[n], missing[n], failed, reason) && GivesUp(failed, reason, t.lastSequenceID, next)
          else n == |missing| && next == states[n] && next.lastSequenceID == t.lastSequenceID
  {
    hide Replay, Replays, Hinders, Filtered;
    missing, states := EventsAfter(history, x.lastSequenceID), [];
    AfterIsFiltered(history, x.lastSequenceID);
    if x.lastSequenceID < t.lastSequenceID {
      var start := x.(core := x.core.(source := source));
      states := ReplayReacts(p, start, missing);
      assert |states| > 0 by { NotEmpty(p, missing, states); }
      match Replay(p, start, missing)
      case Caught(_) =>
      case Failed(failed, reason) =>
        assert Hinders(p, states[|states| - 1], missing[|states| - 1], failed, reason);
        assert GivesUp(failed, reason, t.lastSequenceID, CatchUp(p, x, t, history, source).executor);
    }
  }

  lemma NotEmpty(p: Program, events: seq<Event>, states: seq<Executor>)
    requires Replays(p, events, states)
    ensures |states| > 0
  {
  }
}
