/**
  Two executors agree "up to fresh ids": everything equal except the UUIDs drawn for
  sub-workflow instances that were never committed. Every operation of the executor respects this.
 */
module Similarity {
  import opened Basics
  import opened History
  import opened Commands
  import opened Execution

  /**
    In these states the instance a sub-workflow command drew is not (or no longer) of any consequence.
    With `drawn`, both executors draw from the same source and pending commands agree too.
   */
  predicate Inconsequential(state: CommandState, drawn: bool) {
    state == Canceled || state == CommandState.Done || (!drawn && state == Pending)
  }

  predicate SameCommand(c: Command, d: Command, drawn: bool) {
    c == d ||
    (c.action.SubWorkflow? && d.action.SubWorkflow? && Inconsequential(c.state, drawn) &&
     c == d.WithInstance(c.action.instance))
  }

  predicate SameCommands(cs: seq<Command>, ds: seq<Command>, drawn: bool) {
    |cs| == |ds| && forall i :: 0 <= i < |cs| ==> SameCommand(cs[i], ds[i], drawn)
  }

  predicate Similar(a: Core, b: Core, drawn: bool) {
    && a.instance == b.instance
    && (drawn ==> a.source == b.source)
    && a.nextScheduleEventID == b.nextScheduleEventID
    && a.pendingFutures == b.pendingFutures
    && a.workflow == b.workflow
    && a.workflowName == b.workflowName
    && a.time == b.time
    && a.historyLength == b.historyLength
    && SameCommands(a.commands, b.commands, drawn)
  }

  predicate SimilarHandled(r: Handled, q: Handled, drawn: bool) {
    match (r, q)
    case (Ok(a), Ok(b)) => Similar(a, b, drawn)
    case (Err(a, x), Err(b, y)) => x == y && Similar(a, b, drawn)
    case (Panic, Panic) => true
    case _ => false
  }

  lemma SimilarTransitive(a: Core, b: Core, c: Core, drawn: bool)
    requires Similar(a, b, drawn) && Similar(b, c, drawn)
    ensures Similar(a, c, drawn)
  {
    forall i | 0 <= i < |a.commands|
      ensures SameCommand(a.commands[i], c.commands[i], drawn)
    {
      assert SameCommand(a.commands[i], b.commands[i], drawn) && SameCommand(b.commands[i], c.commands[i], drawn);
    }
  }

  lemma SimilarSymmetric(a: Core, b: Core, drawn: bool)
    requires Similar(a, b, drawn)
    ensures Similar(b, a, drawn)
  {
    forall i | 0 <= i < |a.commands|
      ensures SameCommand(b.commands[i], a.commands[i], drawn)
    {
      assert SameCommand(a.commands[i], b.commands[i], drawn);
    }
  }

  lemma SimilarPut(a: Core, b: Core, c: Command, d: Command, drawn: bool)
    requires Similar(a, b, drawn) && SameCommand(c, d, drawn) && 1 <= c.id <= |a.commands|
    ensures Similar(a.Put(c), b.Put(d), drawn)
  {
  }

  lemma SimilarPutSame(a: Core, b: Core, c: Command, drawn: bool)
    requires Similar(a, b, drawn) && 1 <= c.id <= |a.commands|
    ensures 1 <= c.id <= |b.commands|
    ensures Similar(a.Put(c), b.Put(c), drawn)
  {
  }

  lemma SimilarFind(a: Core, b: Core, id: int, drawn: bool)
    requires Similar(a, b, drawn)
    ensures a.Find(id).Some? == b.Find(id).Some?
    ensures a.Find(id).Some? ==> SameCommand(a.Find(id).value, b.Find(id).value, drawn)
  {
    if 1 <= id <= |a.commands| {
      assert SameCommand(a.commands[id - 1], b.commands[id - 1], drawn);
    }
  }

  lemma SimilarLook(a: Core, b: Core, drawn: bool)
    requires Similar(a, b, drawn)
    ensures a.Look() == b.Look()
  {
    forall i | 0 <= i < |a.commands|
      ensures a.commands[i].state == b.commands[i].state
    {
      assert SameCommand(a.commands[i], b.commands[i], drawn);
    }
  }

  lemma SimilarCancel(a: Core, b: Core, id: int, drawn: bool)
    requires Similar(a, b, drawn)
    ensures Similar(CancelOperation(a, id), CancelOperation(b, id), drawn)
  {
    SimilarFind(a, b, id, drawn);
    if a.Find(id).Some? {
      var c, d := a.Find(id).value, b.Find(id).value;
      if c.armed {
        if c.Cancel().None? {
          SimilarPut(a, b, c.(armed := false), d.(armed := false), drawn);
        } else {
          SimilarPut(a, b, c.Cancel().value.(armed := false), d.Cancel().value.(armed := false), drawn);
        }
      }
    }
  }

  lemma SimilarOperate(a: Core, b: Core, op: Operation, drawn: bool)
    requires Similar(a, b, drawn)
    ensures Similar(Operate(a, op), Operate(b, op), drawn)
  {
    hide CancelOperation;
    if op.CloseDone? {
      SimilarCancel(a, b, op.scheduleEventID, drawn);
    }
  }

  lemma {:induction false} SimilarOperateAll(a: Core, b: Core, ops: seq<Operation>, drawn: bool)
    requires Similar(a, b, drawn)
    ensures Similar(OperateAll(a, ops), OperateAll(b, ops), drawn)
    decreases |ops|
  {
    if ops != [] {
      SimilarOperate(a, b, ops[0], drawn);
      SimilarOperateAll(Operate(a, ops[0]), Operate(b, ops[0]), ops[1..], drawn);
    }
  }

  lemma SimilarRun(p: Program, a: Core, b: Core, coroutines: Coroutines, stimulus: Stimulus, drawn: bool)
    requires Similar(a, b, drawn)
    ensures SimilarHandled(Run(p, a, coroutines, stimulus), Run(p, b, coroutines, stimulus), drawn)
  {
    SimilarLook(a, b, drawn);
    var turn := p.deliver(coroutines, stimulus, a.Look());
    SimilarOperateAll(a.(workflow := Some(turn.coroutines)), b.(workflow := Some(turn.coroutines)), turn.operations, drawn);
  }

  lemma SimilarResume(p: Program, a: Core, b: Core, stimulus: Stimulus, drawn: bool)
    requires Similar(a, b, drawn)
    ensures SimilarHandled(Resume(p, a, stimulus), Resume(p, b, stimulus), drawn)
  {
    if a.workflow.Some? {
      SimilarRun(p, a, b, a.workflow.value, stimulus, drawn);
    }
  }

  lemma SameToHandlers(c: Command, d: Command, expected: Expectation, drawn: bool)
    requires SameCommand(c, d, drawn)
    ensures expected.Meets(c) == expected.Meets(d)
    ensures c.id == d.id
    ensures c.Settle().Some? == d.Settle().Some?
    ensures c.Settle().Some? ==> SameCommand(c.Settle().value, d.Settle().value, drawn)
  {
  }

  lemma SameOnceRecorded(c: Command, d: Command, expected: Expectation, recorded: Option<Instance>, drawn: bool)
    requires SameCommand(c, d, drawn) && expected.Meets(c)
    requires recorded.None? ==> !expected.ASubWorkflow? && !expected.SubWorkflowNamed?
    ensures Recorded(c, recorded) == Recorded(d, recorded)
  {
  }

  lemma SimilarResult(p: Program, a: Core, b: Core, id: int, outcome: Outcome, expected: Expectation,
                         drawn: bool)
    requires Similar(a, b, drawn)
    ensures SimilarHandled(HandleResult(p, a, id, outcome, expected), HandleResult(p, b, id, outcome, expected), drawn)
  {
    hide Resume, SameCommands, SameCommand, Expectation.Meets, Command.Settle;
    if id in a.pendingFutures && Settable(p, a, id, outcome) {
      var a', b' := a.Untrack(id), b.Untrack(id);
      SimilarFind(a', b', id, drawn);
      if a'.Find(id).Some? {
        var c, d := a'.Find(id).value, b'.Find(id).value;
        SameToHandlers(c, d, expected, drawn);
        if expected.Meets(c) && c.Settle().Some? {
          SimilarPut(a', b', c.Settle().value, d.Settle().value, drawn);
          SimilarResume(p, a'.Put(c.Settle().value), b'.Put(d.Settle().value), Resolved(id, outcome), drawn);
        }
      }
    }
  }

  lemma SimilarScheduled(a: Core, b: Core, id: int, expected: Expectation, recorded: Option<Instance>,
                            drawn: bool)
    requires Similar(a, b, drawn)
    requires recorded.None? ==> !expected.ASubWorkflow? && !expected.SubWorkflowNamed?
    ensures SimilarHandled(HandleScheduled(a, id, expected, recorded), HandleScheduled(b, id, expected, recorded), drawn)
  {
    hide Similar, SameCommand, Expectation.Meets, Command.Commit, Recorded, Core.Put, Core.Find;
    SimilarFind(a, b, id, drawn);
    if a.Find(id).Some? {
      var c, d := a.Find(id).value, b.Find(id).value;
      SameToHandlers(c, d, expected, drawn);
      if expected.Meets(c) {
        SameOnceRecorded(c, d, expected, recorded, drawn);
        if Recorded(c, recorded).Commit().Some? {
          SimilarPutSame(a, b, Recorded(c, recorded).Commit().value, drawn);
        }
      }
    }
  }

  lemma SimilarTimerCanceled(p: Program, a: Core, b: Core, id: int, drawn: bool)
    requires Similar(a, b, drawn)
    ensures SimilarHandled(HandleTimerCanceled(p, a, id), HandleTimerCanceled(p, b, id), drawn)
  {
    SimilarFind(a, b, id, drawn);
    if a.Find(id).Some? && a.Find(id).value.HandleCancel().Some? {
      var c, d := a.Find(id).value.HandleCancel().value, b.Find(id).value.HandleCancel().value;
      SimilarPut(a, b, c, d, drawn);
      SimilarResume(p, a.Put(c).Untrack(id), b.Put(d).Untrack(id), Resolved(id, Failure(ContextCanceled)), drawn);
    }
  }

  lemma SimilarSubWorkflowCancellation(p: Program, a: Core, b: Core, id: int, drawn: bool)
    requires Similar(a, b, drawn)
    ensures SimilarHandled(HandleSubWorkflowCancellation(p, a, id), HandleSubWorkflowCancellation(p, b, id), drawn)
  {
    SimilarFind(a, b, id, drawn);
    if a.Find(id).Some? && a.Find(id).value.HandleCancel().Some? {
      var c, d := a.Find(id).value.HandleCancel().value, b.Find(id).value.HandleCancel().value;
      SimilarPut(a, b, c, d, drawn);
      SimilarResume(p, a.Put(c), b.Put(d), Stimulus.Continue, drawn);
    }
  }

  lemma SimilarHandle(p: Program, a: Core, b: Core, e: Event, drawn: bool)
    requires Similar(a, b, drawn)
    ensures SimilarHandled(Handle(p, a, e), Handle(p, b, e), drawn)
  {
    hide Run, Resume, HandleResult, HandleScheduled, HandleTimerCanceled, HandleSubWorkflowCancellation, SameCommands;
    var id := e.scheduleEventID;
    match e.attributes
    case ExecutionStarted(_, name, inputs) =>
      SimilarRun(p, a.(workflowName := name), b.(workflowName := name), p.blank, Start(name, inputs), drawn);
    case ExecutionFinished(_, _) =>
    case ExecutionContinuedAsNew(_, _) =>
    case ExecutionTerminated =>
    case ExecutionCanceled =>
      SimilarResume(p, a, b, Canceling, drawn);
    case TaskStarted =>
    case SubWorkflowScheduled(instance, name, _) =>
      SimilarScheduled(a, b, id, SubWorkflowNamed(name), Some(instance), drawn);
    case SubWorkflowCancellationRequested(_) =>
      SimilarSubWorkflowCancellation(p, a, b, id, drawn);
    case SubWorkflowCompleted(result) =>
      SimilarResult(p, a, b, id, Value(Some(result)), ASubWorkflow, drawn);
    case SubWorkflowFailed(reason) =>
      SimilarResult(p, a, b, id, Failure(reason), ASubWorkflow, drawn);
    case ActivityScheduled(_, name, _, _) =>
      SimilarScheduled(a, b, id, ActivityNamed(name), None, drawn);
    case ActivityCompleted(result) =>
      SimilarResult(p, a, b, id, Value(Some(result)), AnActivity, drawn);
    case ActivityFailed(reason) =>
      SimilarResult(p, a, b, id, Failure(reason), AnActivity, drawn);
    case TimerScheduled(_, _) =>
      SimilarScheduled(a, b, id, ATimer, None, drawn);
    case TimerFired(_, _, _) =>
      SimilarResult(p, a, b, id, Value(None), ATimer, drawn);
    case TimerCanceled =>
      SimilarTimerCanceled(p, a, b, id, drawn);
    case SignalReceived(name, arg) =>
      SimilarResume(p, a, b, Signaled(name, arg), drawn);
  }

  lemma {:induction false} SimilarExecuteFrom(p: Program, a: Core, b: Core, last: int, events: seq<Event>,
                                                 i: nat)
    requires Similar(a, b, true) && i <= |events|
    ensures
      match (ExecuteFrom(p, a, last, events, i), ExecuteFrom(p, b, last, events, i))
      case (AllExecuted(c), AllExecuted(d)) => Similar(c, d, true)
      case (Stopped(c, m, x), Stopped(d, n, y)) => m == n && x == y && Similar(c, d, true)
      case (Crashed, Crashed) => true
      case _ => false
    decreases |events| - i
  {
    hide Handle;
    if i < |events| {
      var a', b' := a.(historyLength := last + i + 1), b.(historyLength := last + i + 1);
      SimilarHandle(p, a', b', events[i], true);
      if Handle(p, a', events[i]).Ok? {
        SimilarExecuteFrom(p, Handle(p, a', events[i]).core, Handle(p, b', events[i]).core, last, events, i + 1);
      }
    }
  }

  lemma SimilarConclude(p: Program, a: Core, b: Core)
    requires Similar(a, b, true)
    ensures SimilarHandled(Conclude(p, a), Conclude(p, b), true)
  {
  }

  lemma SimilarComplete(a: Core, b: Core, result: Payload, error: Option<Error>)
    requires Similar(a, b, true)
    ensures Similar(CompleteWorkflow(a, result, error), CompleteWorkflow(b, result, error), true)
  {
  }

  lemma SimilarNewEvents(p: Program, x: Executor, y: Executor, toExecute: seq<Event>)
    requires Similar(x.core, y.core, true) && x.lastSequenceID == y.lastSequenceID
    ensures
      match (ExecuteNewEvents(p, x, toExecute), ExecuteNewEvents(p, y, toExecute))
      case (Batch(c, es), Batch(d, fs)) => es == fs && Similar(c, d, true)
      case (BatchCrash, BatchCrash) => true
      case _ => false
  {
    hide Handle, Conclude, Similar, CompleteWorkflow;
    SimilarExecuteFrom(p, x.core, y.core, x.lastSequenceID, toExecute, 0);
    match (ExecuteFrom(p, x.core, x.lastSequenceID, toExecute, 0), ExecuteFrom(p, y.core, y.lastSequenceID, toExecute, 0)) {
      case (AllExecuted(c), AllExecuted(d)) =>
        SimilarConclude(p, c, d);
        if Conclude(p, c).Err? {
          SimilarComplete(Conclude(p, c).core, Conclude(p, d).core, "", Some(Conclude(p, c).reason));
        }
      case (Stopped(c, _, reason), Stopped(d, _, _)) =>
        SimilarComplete(c, d, "", Some(reason));
      case _ =>
    }
  }

  lemma {:induction false} SameCollect(cs: seq<Command>, ds: seq<Command>, now: Time, source: nat)
    requires SameCommands(cs, ds, true)
    ensures Collect(cs, now, source) == Collect(ds, now, source)
    decreases |cs|
  {
    if cs != [] {
      var last := |cs| - 1;
      SameCollect(cs[..last], ds[..last], now, source);
      assert SameCommand(cs[last], ds[last], true);
    }
  }

  lemma SimilarCheckpoint(a: Core, b: Core, last: int, executed: seq<Event>, now: Time)
    requires Similar(a, b, true)
    ensures Checkpoint(a, last, executed, now).1 == Checkpoint(b, last, executed, now).1
    ensures Checkpoint(a, last, executed, now).0.lastSequenceID == Checkpoint(b, last, executed, now).0.lastSequenceID
    ensures Similar(Checkpoint(a, last, executed, now).0.core, Checkpoint(b, last, executed, now).0.core, true)
  {
    SameCollect(a.commands, b.commands, now, a.source);
    var x, y := Checkpoint(a, last, executed, now).0.core, Checkpoint(b, last, executed, now).0.core;
    forall i | 0 <= i < |x.commands|
      ensures SameCommand(x.commands[i], y.commands[i], true)
    {
      assert SameCommand(a.commands[i], b.commands[i], true);
    }
  }

  /** Similar executors given the same task, clock reading and UUIDs produce the very same result. */
  lemma SimilarWork(p: Program, x: Executor, y: Executor, skip: bool, t: Task, now: Time, source: nat,
                       maxHistorySize: int)
    requires x.lastSequenceID == y.lastSequenceID
    requires Similar(x.core.(source := source), y.core.(source := source), true)
    ensures
      match (Work(p, x, skip, t, now, source, maxHistorySize), Work(p, y, skip, t, now, source, maxHistorySize))
      case (Executed(x', r), Executed(y', q)) =>
        r == q && x'.lastSequenceID == y'.lastSequenceID && Similar(x'.core, y'.core, true)
      case (ProcessCrash, ProcessCrash) => true
      case _ => false
  {
    hide Similar, ExecuteNewEvents, CompleteWorkflow, Checkpoint;
    var x', y' := x.(core := x.core.(source := source)), y.(core := y.core.(source := source));
    var toExecute := ToExecute(t, now, source);
    SimilarNewEvents(p, x', y', toExecute);
    var left := if skip then Batch(x'.core, toExecute[..1]) else ExecuteNewEvents(p, x', toExecute);
    var right := if skip then Batch(y'.core, toExecute[..1]) else ExecuteNewEvents(p, y', toExecute);
    if left.Batch? {
      var exceeded := Some(HistorySizeExceeded);
      SimilarComplete(left.core, right.core, "", exceeded);
      SimilarCheckpoint(left.core, right.core, x.lastSequenceID, left.executed, now);
      SimilarCheckpoint(CompleteWorkflow(left.core, "", exceeded), CompleteWorkflow(right.core, "", exceeded),
                        x.lastSequenceID, left.executed, now);
    }
  }
}
