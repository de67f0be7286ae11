/** Every future is settled once: by its result, its firing or its cancellation, whichever comes first. */
module Futures {
  import opened Basics
  import opened History
  import opened Commands
  import opened Execution
  import opened Stepping
  import opened Tidiness
  import opened Determinism
  import opened Resting
  import opened Histories
  import opened CacheTransparency
  import opened Completion

  /** The future of a schedule id that was handed out is settled: it is not tracked any more. */
  predicate Over(core: Core, id: int) {
    1 <= id < core.nextScheduleEventID && id !in core.pendingFutures
  }

  lemma OverOperate(core: Core, op: Operation, id: int)
    requires Over(core, id)
    ensures Over(Operate(core, op), id)
  {
  }

  lemma {:induction false} OverOperateAll(core: Core, ops: seq<Operation>, id: int)
    requires Over(core, id)
    ensures Over(OperateAll(core, ops), id)
    decreases |ops|
  {
    hide Operate, Over;
    if ops != [] {
      OverOperate(core, ops[0], id);
      OverOperateAll(Operate(core, ops[0]), ops[1..], id);
    }
  }

  lemma OverRun(p: Program, core: Core, coroutines: Coroutines, stimulus: Stimulus, id: int)
    requires Over(core, id)
    ensures var r := Run(p, core, coroutines, stimulus); !r.Panic? ==> Over(r.core, id)
  {
    hide OperateAll;
    var turn := p.deliver(coroutines, stimulus, core.Look());
    OverOperateAll(core.(workflow := Some(turn.coroutines)), turn.operations, id);
  }

  lemma OverResume(p: Program, core: Core, stimulus: Stimulus, id: int)
    requires Over(core, id)
    ensures var r := Resume(p, core, stimulus); !r.Panic? ==> Over(r.core, id)
  {
    hide Run, Over;
    if core.workflow.Some? {
      OverRun(p, core, core.workflow.value, stimulus, id);
    }
  }

  lemma OverResult(p: Program, core: Core, n: int, outcome: Outcome, expected: Expectation, id: int)
    requires Over(core, id)
    ensures var r := HandleResult(p, core, n, outcome, expected); !r.Panic? ==> Over(r.core, id)
  {
    hide Resume;
    var next := core.Untrack(n);
    if n in core.pendingFutures && next.Find(n).Some? && next.Find(n).value.Settle().Some? {
      OverResume(p, next.Put(next.Find(n).value.Settle().value), Resolved(n, outcome), id);
    }
  }

  /** Whatever event is handled, with or without error, a settled future stays settled. */
  lemma OverHandle(p: Program, core: Core, e: Event, id: int)
    requires Over(core, id)
    ensures var r := Handle(p, core, e); !r.Panic? ==> Over(r.core, id)
  {
    hide Run, Resume, HandleResult;
    var n := e.scheduleEventID;
    match e.attributes
    case ExecutionStarted(_, name, inputs) =>
      OverRun(p, core.(workflowName := name), p.blank, Start(name, inputs), id);
    case ExecutionCanceled => OverResume(p, core, Canceling, id);
    case SubWorkflowCancellationRequested(_) =>
      if core.Find(n).Some? && core.Find(n).value.HandleCancel().Some? {
        OverResume(p, core.Put(core.Find(n).value.HandleCancel().value), Stimulus.Continue, id);
      }
    case SubWorkflowCompleted(result) => OverResult(p, core, n, Value(Some(result)), ASubWorkflow, id);
    case SubWorkflowFailed(reason) => OverResult(p, core, n, Failure(reason), ASubWorkflow, id);
    case ActivityCompleted(result) => OverResult(p, core, n, Value(Some(result)), AnActivity, id);
    case ActivityFailed(reason) => OverResult(p, core, n, Failure(reason), AnActivity, id);
    case TimerFired(_, _, _) => OverResult(p, core, n, Value(None), ATimer, id);
    case TimerCanceled =>
      if core.Find(n).Some? && core.Find(n).value.HandleCancel().Some? {
        var next := core.Put(core.Find(n).value.HandleCancel().value);
        OverResume(p, next.Untrack(n), Resolved(n, Failure(ContextCanceled)), id);
      }
    case SignalReceived(name, arg) => OverResume(p, core, Signaled(name, arg), id);
    case _ =>
  }

  /** Nothing settles a future again: a late result is refused, a late firing ignored. */
  lemma LateIsRefused(p: Program, core: Core, e: Event)
    requires Over(core, e.scheduleEventID)
    ensures IsResult(e.attributes) ==> Handle(p, core, e) == Err(core, NoPendingFuture)
    ensures e.attributes.TimerFired? ==> Handle(p, core, e) == Ok(core)
  {
  }

  /** So over any further history, a future that was settled stays settled and no result for it can be recorded. */
  lemma {:induction false} SettledOnce(p: Program, core: Core, events: seq<Event>, id: int)
    requires Over(core, id) && Steps(p, core, events).Ok?
    ensures Over(Steps(p, core, events).core, id)
    ensures forall e :: e in events && e.scheduleEventID == id ==> !IsResult(e.attributes)
    decreases |events|
  {
    hide Handle, IsResult;
    if events != [] {
      var before := core.(historyLength := events[0].sequenceID);
      OverHandle(p, before, events[0], id);
      if events[0].scheduleEventID == id {
        LateIsRefused(p, before, events[0]);
      }
      SettledOnce(p, Handle(p, before, events[0]).core, events[1..], id);
      assert events == [events[0]] + events[1..];
    }
  }

  // ---------- counting settlements ----------

  /** A result that is handled settles its future. */
  lemma ResultSettles(p: Program, core: Core, e: Event)
    requires Tidy(core) && IsResult(e.attributes) && Handle(p, core, e).Ok?
    ensures e.scheduleEventID in core.pendingFutures && Over(Handle(p, core, e).core, e.scheduleEventID)
  {
    hide Resume;
    var id := e.scheduleEventID;
    var next := core.Untrack(id);
    var outcome := match e.attributes
                   case ActivityCompleted(result) => Value(Some(result))
                   case ActivityFailed(reason) => Failure(reason)
                   case SubWorkflowCompleted(result) => Value(Some(result))
                   case SubWorkflowFailed(reason) => Failure(reason);
    OverResume(p, next.Put(next.Find(id).value.Settle().value), Resolved(id, outcome), id);
  }

  /** The command of this id is an activity. */
  predicate IsActivity(core: Core, id: int) {
    core.Find(id).Some? && core.Find(id).value.action.Activity?
  }

  lemma ResumeKeepsActivity(p: Program, core: Core, stimulus: Stimulus, id: int)
    requires IsActivity(core, id)
    ensures var r := Resume(p, core, stimulus); r.Ok? ==> IsActivity(r.core, id)
  {
    hide Resume;
    ResumeExtends(p, core, stimulus);
  }

  lemma PutKeepsActivity(core: Core, c: Command, id: int)
    requires IsActivity(core, id) && core.Find(c.id).Some? && (c.action == core.Find(c.id).value.action || c.id != id)
    ensures IsActivity(core.Put(c), id) && forall n :: IsActivity(core.Put(c).Untrack(n), id)
  {
  }

  lemma ResultKeepsActivity(p: Program, core: Core, n: int, outcome: Outcome, expected: Expectation, id: int)
    requires IsActivity(core, id)
    ensures var r := HandleResult(p, core, n, outcome, expected); r.Ok? ==> IsActivity(r.core, id)
  {
    hide Resume;
    if HandleResult(p, core, n, outcome, expected).Ok? {
      var settled := core.Untrack(n).Find(n).value.Settle().value;
      PutKeepsActivity(core.Untrack(n), settled, id);
      ResumeKeepsActivity(p, core.Untrack(n).Put(settled), Resolved(n, outcome), id);
    }
  }

  lemma CancelKeepsActivity(p: Program, core: Core, n: int, id: int)
    requires IsActivity(core, id)
    ensures var r := HandleTimerCanceled(p, core, n); r.Ok? ==> IsActivity(r.core, id)
    ensures var r := HandleSubWorkflowCancellation(p, core, n); r.Ok? ==> IsActivity(r.core, id)
  {
    hide Resume;
    if core.Find(n).Some? && core.Find(n).value.HandleCancel().Some? {
      var next := core.Put(core.Find(n).value.HandleCancel().value);
      PutKeepsActivity(core, core.Find(n).value.HandleCancel().value, id);
      ResumeKeepsActivity(p, next, Stimulus.Continue, id);
      ResumeKeepsActivity(p, next.Untrack(n), Resolved(n, Failure(ContextCanceled)), id);
    }
  }

  lemma StartKeepsActivity(p: Program, core: Core, name: string, inputs: seq<Payload>, id: int)
    requires IsActivity(core, id)
    ensures var r := HandleExecutionStarted(p, core, name, inputs); r.Ok? ==> IsActivity(r.core, id)
  {
    var next := core.(workflowName := name);
    var turn := p.deliver(p.blank, Start(name, inputs), next.Look());
    OperateExtends(next.(workflow := Some(turn.coroutines)), turn.operations);
  }

  /** It stays one. */
  lemma StaysActivity(p: Program, core: Core, e: Event, id: int)
    requires IsActivity(core, id)
    ensures var r := Handle(p, core, e); r.Ok? ==> IsActivity(r.core, id)
  {
    hide Resume, HandleResult, HandleTimerCanceled, HandleSubWorkflowCancellation, HandleExecutionStarted;
    var n := e.scheduleEventID;
    match e.attributes
    case ExecutionStarted(_, name, inputs) => StartKeepsActivity(p, core, name, inputs, id);
    case ExecutionCanceled => ResumeKeepsActivity(p, core, Canceling, id);
    case SubWorkflowCancellationRequested(_) => CancelKeepsActivity(p, core, n, id);
    case SubWorkflowCompleted(result) => ResultKeepsActivity(p, core, n, Value(Some(result)), ASubWorkflow, id);
    case SubWorkflowFailed(reason) => ResultKeepsActivity(p, core, n, Failure(reason), ASubWorkflow, id);
    case ActivityCompleted(result) => ResultKeepsActivity(p, core, n, Value(Some(result)), AnActivity, id);
    case ActivityFailed(reason) => ResultKeepsActivity(p, core, n, Failure(reason), AnActivity, id);
    case TimerFired(_, _, _) => ResultKeepsActivity(p, core, n, Value(None), ATimer, id);
    case TimerCanceled => CancelKeepsActivity(p, core, n, id);
    case SignalReceived(name, arg) => ResumeKeepsActivity(p, core, Signaled(name, arg), id);
    case _ =>
  }

  /** An activity's future is settled by its result, and by nothing else. */
  lemma OnlyResultSettles(p: Program, core: Core, h: seq<Event>, e: Event, id: int)
    requires Tidy(core) && Settled(p, core) && Linked(core, h) && id in core.pendingFutures
    requires IsActivity(core, id) && Handle(p, core, e).Ok? && Over(Handle(p, core, e).core, id)
    ensures KindOf(e.attributes) == Some(ActivityEnd) && e.scheduleEventID == id
  {
    hide Handle, Settled, Ids, SubInstances, Started;
    var next := Handle(p, core, e).core;
    LinkedHandle(p, core, h, e);
    TidyHandle(p, core, e);
    IdsStep(h, e);
    StaysActivity(p, core, e, id);
    assert LinkedCommand(core.commands[id - 1], h, true) && TidyCommand(core.commands[id - 1], true);
    assert LinkedCommand(next.commands[id - 1], h + [e], false) && TidyCommand(next.commands[id - 1], false);
  }

  /** How many of the events settle the future. */
  function Settlements(p: Program, core: Core, events: seq<Event>, id: int): nat
    decreases |events|
  {
    if events == [] then 0
    else
      var r := Handle(p, core.(historyLength := events[0].sequenceID), events[0]);
      if !r.Ok? then 0
      else (if !Over(core, id) && Over(r.core, id) then 1 else 0) + Settlements(p, r.core, events[1..], id)
  }

  lemma {:induction false} SettledExactly(p: Program, core: Core, events: seq<Event>, id: int)
    requires Steps(p, core, events).Ok?
    ensures Settlements(p, core, events, id) ==
            if !Over(core, id) && Over(Steps(p, core, events).core, id) then 1 else 0
    decreases |events|
  {
    hide Handle;
    if events != [] {
      var before := core.(historyLength := events[0].sequenceID);
      var next := Handle(p, before, events[0]).core;
      SettledExactly(p, next, events[1..], id);
      if Over(before, id) {
        OverHandle(p, before, events[0], id);
      }
      if Over(next, id) {
        SettledOnce(p, next, events[1..], id);
      }
    }
  }

  /** Along any history that replays, every future handed out is settled exactly once, or still pending at the end. */
  lemma EveryFutureSettles(p: Program, instance: Instance, source: nat, h: seq<Event>, id: int)
    requires Steps(p, NewCore(instance, source), h).Ok?
    ensures
      var end := Steps(p, NewCore(instance, source), h).core;
      1 <= id < end.nextScheduleEventID ==>
        Settlements(p, NewCore(instance, source), h, id) == if id in end.pendingFutures then 0 else 1
  {
    hide Steps;
    SettledExactly(p, NewCore(instance, source), h, id);
  }

  // ---------- results in a closed history ----------

  /** The event at position `i` is of kind `k` and about `id`. */
  predicate About(h: seq<Event>, i: nat, k: Kind, id: int) {
    i < |h| && KindOf(h[i].attributes) == Some(k) && h[i].scheduleEventID == id
  }

  ghost predicate ExactlyOne(h: seq<Event>, k: Kind, id: int) {
    exists i :: About(h, i, k, id) && forall j :: About(h, j, k, id) ==> j == i
  }

  lemma OneInLawful(h: seq<Event>, k: Kind, id: int)
    requires Lawful(h) && k != TimerFire && id in Ids(h, k)
    ensures ExactlyOne(h, k, id)
  {
    hide Lawful;
    var e :| e in h && KindOf(e.attributes) == Some(k) && e.scheduleEventID == id;
    var i :| 0 <= i < |h| && h[i] == e;
    assert About(h, i, k, id);
    forall j: nat | About(h, j, k, id)
      ensures j == i
    {
      if i < j {
        LawfulUnique(h, i, j);
      } else if j < i {
        LawfulUnique(h, j, i);
      }
    }
  }

  /** An execution that ends without error has recorded exactly one result of everything it started. */
  lemma OneResultEach(p: Program, instance: Instance, h: seq<Event>, x: Executor, t: Task, now: Time, source: nat,
                      maxHistorySize: int, id: int)
    requires Agrees(p, instance, h, x) && Restful(p, x, t, now, source)
    requires ErrorFree(p, x, t, now, source, maxHistorySize)
    requires Work(p, x, false, t, now, source, maxHistorySize).result.state != Active
    ensures
      var all := h + Work(p, x, false, t, now, source, maxHistorySize).result.executed;
      && (id in Ids(all, ActivityStart) ==> ExactlyOne(all, ActivityStart, id) && ExactlyOne(all, ActivityEnd, id))
      && (id in Ids(all, SubWorkflowStart) ==>
            ExactlyOne(all, SubWorkflowStart, id) && ExactlyOne(all, SubWorkflowEnd, id))
  {
    hide Agrees, Restful, ErrorFree, Work, Lawful, ExactlyOne, Ids;
    CleanFinish(p, instance, h, x, t, now, source, maxHistorySize);
    var all := h + Work(p, x, false, t, now, source, maxHistorySize).result.executed;
    forall k | k != TimerFire && id in Ids(all, k)
      ensures ExactlyOne(all, k, id)
    {
      OneInLawful(all, k, id);
    }
  }
}
