/** What holds of the workflow state between any two events, whatever history is executed. */
module Tidiness {
  import opened Basics
  import opened History
  import opened Commands
  import opened Execution
  import opened Stepping

  /**
    How state, cancel callback and pending future of a command go together. An activity
    or timer has a pending future iff it is Pending or Committed.
   */
  predicate TidyCommand(c: Command, pending: bool) {
    match c.action
    case Activity(_, _, _, _) =>
      (c.state == Pending || c.state == Committed || c.state == CommandState.Done) && !c.armed &&
      (pending <==> c.state == Pending || c.state == Committed)
    case Timer(_, _) =>
      (c.armed <==> c.state == Pending || c.state == Committed) &&
      (pending <==> c.state == Pending || c.state == Committed)
    case SubWorkflow(_, _, _, _) =>
      (c.armed <==> c.state == Pending || c.state == Committed) &&
      (c.armed || c.state == CancelPending ==> pending) &&
      (c.state == CommandState.Done ==> !pending)
    case _ => false  // the execution has not ended
  }

  predicate Indexed(core: Core) {
    && core.nextScheduleEventID == |core.commands| + 1
    && (forall i :: 0 <= i < |core.commands| ==> core.commands[i].id == i + 1)
  }

  predicate Tidy(core: Core) {
    && Indexed(core)
    && (forall i :: 0 <= i < |core.commands| ==> TidyCommand(core.commands[i], i + 1 in core.pendingFutures))
    && (forall id :: id in core.pendingFutures ==> 1 <= id <= |core.commands|)
    && (core.workflow.None? ==> core.commands == [])
  }

  lemma TidyPut(core: Core, c: Command)
    requires Indexed(core) && 1 <= c.id <= |core.commands|
    ensures Indexed(core.Put(c))
    ensures Tidy(core) && TidyCommand(c, c.id in core.pendingFutures) ==> Tidy(core.Put(c))
  {
  }

  lemma TidyResolve(core: Core, c: Command)
    requires Tidy(core) && 1 <= c.id <= |core.commands| && TidyCommand(c, false)
    ensures Tidy(core.Put(c).Untrack(c.id))
    ensures Tidy(core.Untrack(c.id).Put(c))
  {
  }

  lemma TidyCancel(core: Core, id: int)
    requires Tidy(core)
    ensures Tidy(CancelOperation(core, id))
  {
    if core.Find(id).Some? && core.Find(id).value.armed {
      var c := core.Find(id).value;
      var canceled := c.Cancel().value.(armed := false);
      if c.action.Timer? || canceled.state == Canceled {
        TidyResolve(core, canceled);
      } else {
        TidyPut(core, canceled);
      }
    }
  }

  lemma TidyOperate(core: Core, op: Operation)
    requires Tidy(core) && core.workflow.Some?
    ensures Tidy(Operate(core, op)) && Operate(core, op).workflow == core.workflow
  {
    hide CancelOperation;
    if op.CloseDone? {
      TidyCancel(core, op.scheduleEventID);
    }
  }

  lemma {:induction false} TidyOperateAll(core: Core, ops: seq<Operation>)
    requires Tidy(core) && core.workflow.Some?
    ensures Tidy(OperateAll(core, ops)) && OperateAll(core, ops).workflow == core.workflow
    decreases |ops|
  {
    hide Operate, Tidy;
    if ops != [] {
      TidyOperate(core, ops[0]);
      TidyOperateAll(Operate(core, ops[0]), ops[1..]);
    }
  }

  /** The workflow's memory is what some turn of the program left behind. */
  ghost predicate Settled(p: Program, core: Core) {
    core.workflow.Some? ==>
      exists s, d, v {:trigger p.deliver(s, d, v)} :: core.workflow.value == p.deliver(s, d, v).coroutines
  }

  lemma TidyRun(p: Program, core: Core, coroutines: Coroutines, stimulus: Stimulus)
    requires Tidy(core)
    ensures var h := Run(p, core, coroutines, stimulus); !h.Panic? && Tidy(h.core) && Settled(p, h.core)
  {
    hide OperateAll;
    var turn := p.deliver(coroutines, stimulus, core.Look());
    TidyOperateAll(core.(workflow := Some(turn.coroutines)), turn.operations);
  }

  lemma TidyResume(p: Program, core: Core, stimulus: Stimulus)
    requires Tidy(core)
    ensures var h := Resume(p, core, stimulus); h.Ok? ==> Tidy(h.core) && Settled(p, h.core)
  {
    hide Run, Tidy, Settled;
    if core.workflow.Some? {
      TidyRun(p, core, core.workflow.value, stimulus);
    }
  }

  lemma TidyResult(p: Program, core: Core, id: int, outcome: Outcome, expected: Expectation)
    requires Tidy(core)
    requires expected.AnActivity? || expected.ATimer? || expected.ASubWorkflow?
    ensures var h := HandleResult(p, core, id, outcome, expected); h.Ok? ==> Tidy(h.core) && Settled(p, h.core)
  {
    hide Resume, Settled;
    var h := HandleResult(p, core, id, outcome, expected);
    if h.Ok? {
      var settled := core.Untrack(id).Find(id).value.Settle().value;
      TidyResolve(core, settled);
      TidyResume(p, core.Untrack(id).Put(settled), Resolved(id, outcome));
    }
  }

  lemma TidyScheduled(core: Core, id: int, expected: Expectation, recorded: Option<Instance>)
    requires Tidy(core)
    requires !expected.AnActivity? || recorded.None?
    ensures var h := HandleScheduled(core, id, expected, recorded); h.Ok? ==> Tidy(h.core) && h.core.workflow == core.workflow
  {
    hide Tidy;
    var h := HandleScheduled(core, id, expected, recorded);
    if h.Ok? {
      var c := Recorded(core.Find(id).value, recorded).Commit().value;
      assert TidyCommand(c, c.id in core.pendingFutures) by {
        TidyFind(core, id);
      }
      TidyIndexed(core);
      TidyPut(core, c);
    }
  }

  lemma TidyIndexed(core: Core)
    requires Tidy(core)
    ensures Indexed(core)
  {
  }

  lemma TidyFind(core: Core, id: int)
    requires Tidy(core) && core.Find(id).Some?
    ensures TidyCommand(core.Find(id).value, id in core.pendingFutures)
  {
  }

  lemma TidyTimerCanceled(p: Program, core: Core, id: int)
    requires Tidy(core)
    ensures
      var h := HandleTimerCanceled(p, core, id);
      h.Ok? ==> Tidy(h.core) && h.core == core.Put(core.Find(id).value.HandleCancel().value)
  {
    hide Tidy;
    if HandleTimerCanceled(p, core, id).Ok? {
      TidyFind(core, id);
      TidyIndexed(core);
      TidyPut(core, core.Find(id).value.HandleCancel().value);
    }
  }

  lemma TidySubWorkflowCancellation(p: Program, core: Core, id: int)
    requires Tidy(core)
    ensures var h := HandleSubWorkflowCancellation(p, core, id); h.Ok? ==> Tidy(h.core) && Settled(p, h.core)
  {
    hide Tidy, Resume, Settled;
    if HandleSubWorkflowCancellation(p, core, id).Ok? {
      var c := core.Find(id).value.HandleCancel().value;
      TidyFind(core, id);
      TidyIndexed(core);
      TidyPut(core, c);
      TidyResume(p, core.Put(c), Stimulus.Continue);
    }
  }

  /** Whatever event is handled without error, everything stays in order. */
  lemma TidyHandle(p: Program, core: Core, e: Event)
    requires Tidy(core) && Settled(p, core)
    ensures var h := Handle(p, core, e); h.Ok? ==> Tidy(h.core) && Settled(p, h.core)
  {
    hide Run, Resume, HandleResult, HandleScheduled, HandleTimerCanceled, HandleSubWorkflowCancellation, Tidy, Settled;
    var id := e.scheduleEventID;
    match e.attributes
    case ExecutionStarted(_, name, inputs) =>
      assert Tidy(core.(workflowName := name)) by { TidyExceptName(core, name); }
      TidyRun(p, core.(workflowName := name), p.blank, Start(name, inputs));
    case ExecutionFinished(_, _) =>
    case ExecutionContinuedAsNew(_, _) =>
    case ExecutionTerminated =>
    case ExecutionCanceled => TidyResume(p, core, Canceling);
    case TaskStarted => TidyExceptTime(p, core, e.timestamp);
    case SubWorkflowScheduled(instance, name, _) =>
      TidyScheduled(core, id, SubWorkflowNamed(name), Some(instance));
      SettledByWorkflow(p, core, HandleScheduled(core, id, SubWorkflowNamed(name), Some(instance)));
    case SubWorkflowCancellationRequested(_) => TidySubWorkflowCancellation(p, core, id);
    case SubWorkflowCompleted(result) => TidyResult(p, core, id, Value(Some(result)), ASubWorkflow);
    case SubWorkflowFailed(reason) => TidyResult(p, core, id, Failure(reason), ASubWorkflow);
    case ActivityScheduled(_, name, _, _) =>
      TidyScheduled(core, id, ActivityNamed(name), None);
      SettledByWorkflow(p, core, HandleScheduled(core, id, ActivityNamed(name), None));
    case ActivityCompleted(result) => TidyResult(p, core, id, Value(Some(result)), AnActivity);
    case ActivityFailed(reason) => TidyResult(p, core, id, Failure(reason), AnActivity);
    case TimerScheduled(_, _) =>
      TidyScheduled(core, id, ATimer, None);
      SettledByWorkflow(p, core, HandleScheduled(core, id, ATimer, None));
    case TimerFired(_, _, _) => TidyResult(p, core, id, Value(None), ATimer);
    case TimerCanceled =>
      TidyTimerCanceled(p, core, id);
      SettledByWorkflow(p, core, HandleTimerCanceled(p, core, id));
    case SignalReceived(name, arg) => TidyResume(p, core, Signaled(name, arg));
  }

  lemma SettledByWorkflow(p: Program, core: Core, h: Handled)
    requires Settled(p, core) && (h.Ok? ==> h.core.workflow == core.workflow)
    ensures h.Ok? ==> Settled(p, h.core)
  {
  }

  lemma TidyExceptName(core: Core, name: string)
    requires Tidy(core)
    ensures Tidy(core.(workflowName := name))
  {
  }

  lemma TidyExceptTime(p: Program, core: Core, time: Time)
    requires Tidy(core) && Settled(p, core)
    ensures Tidy(core.(time := time)) && Settled(p, core.(time := time))
  {
  }

  lemma TidyExceptSource(p: Program, core: Core, source: nat)
    requires Tidy(core) && Settled(p, core)
    ensures Tidy(core.(source := source)) && Settled(p, core.(source := source))
  {
  }

  lemma TidyExceptLength(p: Program, core: Core, n: int)
    requires Tidy(core) && Settled(p, core)
    ensures Tidy(core.(historyLength := n)) && Settled(p, core.(historyLength := n))
  {
  }

  lemma {:induction false} TidySteps(p: Program, core: Core, events: seq<Event>)
    requires Tidy(core) && Settled(p, core)
    ensures var h := Steps(p, core, events); h.Ok? ==> Tidy(h.core) && Settled(p, h.core)
    decreases |events|
  {
    hide Handle, Tidy, Settled;
    if events != [] {
      var before := core.(historyLength := events[0].sequenceID);
      TidyExceptLength(p, core, events[0].sequenceID);
      TidyHandle(p, before, events[0]);
      if Handle(p, before, events[0]).Ok? {
        TidySteps(p, Handle(p, before, events[0]).core, events[1..]);
      }
    }
  }
}
