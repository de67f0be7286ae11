/**
  What a backend may rely on when a worker completes a task, whether the task ran without error or
  not. Every executor that agrees with the history it was given keeps this contract.
 */
module Contract {
  import opened Basics
  import opened History
  import opened Commands
  import opened Execution
  import opened Similarity
  import opened Stepping
  import opened Tidiness
  import opened Determinism
  import opened Histories
  import opened CacheTransparency

  /** The events a backend delivers to a workflow. */
  predicate Deliverable(a: Attributes) {
    a.ExecutionStarted? || a.ExecutionCanceled? || a.SignalReceived? || a.TimerFired? || IsResult(a)
  }

  /** What the recorded history `h` says about a command that may still be executed. */
  predicate SoundCommand(c: Command, h: seq<Event>, instance: Instance, source: nat) {
    && !Final(c)
    && (c.state == Pending ==> c.id !in Started(h))
    && (c.state == CancelPending || c.armed ==> c.Cancelable())
    && (c.state == Pending && c.action.SubWorkflow? ==>
          c.action.instance.executionID == Drawn(source, ForExecution, c.id) &&
          c.action.instance.parent == Some(instance) && c.action.instance.parentEventID == c.id)
    && (c.action.Timer? && (c.state == Committed || c.state == CancelPending) ==>
          c.id in Ids(h, TimerStart) && c.id !in Ids(h, TimerStop))
    && (c.action.SubWorkflow? && (c.state == Committed || c.state == CancelPending) ==>
          (c.id, c.action.instance) in SubInstances(h) &&
          c.id !in Ids(h, SubWorkflowStop) && c.id !in Ids(h, SubWorkflowEnd))
  }

  predicate Sound(core: Core, h: seq<Event>) {
    && Indexed(core)
    && (forall i :: 0 <= i < |core.commands| ==> SoundCommand(core.commands[i], h, core.instance, core.source))
    && (forall id :: id in Started(h) ==> id <= |core.commands|)
  }

  /** The commands a task is completed with: decisions of the workflow, then at most one that ends it. */
  predicate Decided(cs: seq<Command>, h: seq<Event>, instance: Instance, source: nat) {
    && (forall i :: 0 <= i < |cs| ==> cs[i].id == i + 1)
    && (forall i :: 0 <= i < |cs| ==>
          SoundCommand(cs[i], h, instance, source) ||
          (i == |cs| - 1 && Final(cs[i]) && cs[i].state == Pending && cs[i].action.instance == instance &&
           (cs[i].action.ContinueAsNew? ==> cs[i].action.continuedExecutionID == Drawn(source, ForExecution, cs[i].id))))
    && (EndsWith(cs) && cs[|cs| - 1].action.ContinueAsNew? ==>
          forall i :: 0 <= i < |cs| ==> !(cs[i].action.SubWorkflow? && cs[i].state == Pending))
  }

  /** The last command ends the execution. */
  predicate EndsWith(cs: seq<Command>) {
    cs != [] && Final(cs[|cs| - 1]) && cs[|cs| - 1].state == Pending
  }

  /**
    The result records the first `m` of the received events, all of them unless the execution fails,
    followed by what executing the commands `cs` yields.
   */
  predicate Honest(seen: seq<Event>, t: Task, r: ExecutionResult, now: Time, source: nat, m: nat, cs: seq<Command>) {
    var received := ToExecute(t, now, source);
    var c := Collect(cs, now, source);
    && m <= |received|
    && (m < |received| ==> EndsWith(cs) && cs[|cs| - 1].action.Complete?)
    && Decided(cs, seen, t.instance, source)
    && r == ExecutionResult(c.state, Number(received[..m] + c.events, |seen|), c.activityEvents, c.timerEvents,
                            c.workflowEvents)
  }

  // ---------- soundness is kept by everything that is delivered, with or without error ----------

  lemma SoundPut(core: Core, c: Command, h: seq<Event>)
    requires Sound(core, h) && 1 <= c.id <= |core.commands| && SoundCommand(c, h, core.instance, core.source)
    ensures Sound(core.Put(c), h)
  {
  }

  lemma SoundFind(core: Core, id: int, h: seq<Event>)
    requires Sound(core, h) && core.Find(id).Some?
    ensures SoundCommand(core.Find(id).value, h, core.instance, core.source)
  {
  }

  lemma SoundUntrack(core: Core, id: int, h: seq<Event>)
    requires Sound(core, h)
    ensures Sound(core.Untrack(id), h)
  {
  }

  lemma SoundCancel(core: Core, id: int, h: seq<Event>)
    requires Sound(core, h)
    ensures Sound(CancelOperation(core, id), h)
  {
    hide Sound, Ids, SubInstances, Started;
    if core.Find(id).Some? && core.Find(id).value.armed {
      var c := core.Find(id).value;
      SoundFind(core, id, h);
      var next := if c.Cancel().Some? then c.Cancel().value.(armed := false) else c.(armed := false);
      SoundPut(core, next, h);
      SoundUntrack(core.Put(next), id, h);
    }
  }

  lemma SoundAdd(core: Core, action: Action, armed: bool, resultType: string, h: seq<Event>)
    requires Sound(core, h)
    requires action.Activity? || action.Timer? ||
             (action.SubWorkflow? && exists chosen :: action.instance == SubInstance(core, chosen))
    requires armed ==> !action.Activity?
    ensures Sound(core.Add(action, armed).Track(core.nextScheduleEventID, resultType), h)
  {
    hide Ids, SubInstances;
  }

  lemma SoundOperate(core: Core, op: Operation, h: seq<Event>)
    requires Sound(core, h)
    ensures Sound(Operate(core, op), h)
  {
    hide Sound, CancelOperation;
    match op
    case ScheduleActivity(name, inputs, attempt, queue, resultType) =>
      SoundAdd(core, Activity(name, inputs, attempt, queue), false, resultType, h);
    case ScheduleTimer(delay, name) =>
      SoundAdd(core, Timer(core.time + delay, name), true, "", h);
    case ScheduleSubWorkflow(queue, chosen, name, inputs, resultType) =>
      SoundAdd(core, SubWorkflow(queue, SubInstance(core, chosen), name, inputs), true, resultType, h);
    case CloseDone(id) => SoundCancel(core, id, h);
  }

  lemma {:induction false} SoundOperateAll(core: Core, ops: seq<Operation>, h: seq<Event>)
    requires Sound(core, h)
    ensures Sound(OperateAll(core, ops), h)
    decreases |ops|
  {
    hide Sound, Operate;
    if ops != [] {
      SoundOperate(core, ops[0], h);
      SoundOperateAll(Operate(core, ops[0]), ops[1..], h);
    }
  }

  lemma SoundRun(p: Program, core: Core, coroutines: Coroutines, stimulus: Stimulus, h: seq<Event>)
    requires Sound(core, h)
    ensures var r := Run(p, core, coroutines, stimulus); !r.Panic? ==> Sound(r.core, h)
  {
    hide OperateAll;
    var turn := p.deliver(coroutines, stimulus, core.Look());
    SoundOperateAll(core.(workflow := Some(turn.coroutines)), turn.operations, h);
  }

  lemma SoundResume(p: Program, core: Core, stimulus: Stimulus, h: seq<Event>)
    requires Sound(core, h)
    ensures var r := Resume(p, core, stimulus); !r.Panic? ==> Sound(r.core, h)
  {
    hide Run, Sound;
    if core.workflow.Some? {
      SoundRun(p, core, core.workflow.value, stimulus, h);
    }
  }

  lemma SoundResult(p: Program, core: Core, id: int, outcome: Outcome, expected: Expectation, h: seq<Event>)
    requires Sound(core, h)
    ensures var r := HandleResult(p, core, id, outcome, expected); !r.Panic? ==> Sound(r.core, h)
  {
    hide Sound, Resume, Ids, SubInstances, Started;
    if id in core.pendingFutures && Settable(p, core, id, outcome) {
      var next := core.Untrack(id);
      SoundUntrack(core, id, h);
      if next.Find(id).Some? && next.Find(id).value.Settle().Some? {
        SoundFind(next, id, h);
        var settled := next.Find(id).value.Settle().value;
        SoundPut(next, settled, h);
        SoundResume(p, next.Put(settled), Resolved(id, outcome), h);
      }
    }
  }

  lemma SoundSame(core: Core, other: Core, h: seq<Event>)
    requires Sound(core, h) && other.commands == core.commands && other.nextScheduleEventID == core.nextScheduleEventID
    requires other.instance == core.instance && other.source == core.source
    ensures Sound(other, h)
  {
  }

  lemma SoundHandle(p: Program, core: Core, e: Event, h: seq<Event>)
    requires Sound(core, h) && (Deliverable(e.attributes) || e.attributes.TaskStarted?)
    ensures var r := Handle(p, core, e); !r.Panic? ==> Sound(r.core, h)
  {
    hide Sound, Run, Resume, HandleResult;
    var id := e.scheduleEventID;
    match e.attributes
    case ExecutionStarted(_, name, inputs) =>
      SoundSame(core, core.(workflowName := name), h);
      SoundRun(p, core.(workflowName := name), p.blank, Start(name, inputs), h);
    case ExecutionCanceled => SoundResume(p, core, Canceling, h);
    case TaskStarted => SoundSame(core, core.(time := e.timestamp), h);
    case SubWorkflowCompleted(result) => SoundResult(p, core, id, Value(Some(result)), ASubWorkflow, h);
    case SubWorkflowFailed(reason) => SoundResult(p, core, id, Failure(reason), ASubWorkflow, h);
    case ActivityCompleted(result) => SoundResult(p, core, id, Value(Some(result)), AnActivity, h);
    case ActivityFailed(reason) => SoundResult(p, core, id, Failure(reason), AnActivity, h);
    case TimerFired(_, _, _) => SoundResult(p, core, id, Value(None), ATimer, h);
    case SignalReceived(name, arg) => SoundResume(p, core, Signaled(name, arg), h);
  }

  lemma {:induction false} SoundExecuteFrom(p: Program, core: Core, last: int, events: seq<Event>, i: nat,
                                            h: seq<Event>)
    requires Sound(core, h) && i <= |events|
    requires forall j :: 0 <= j < |events| ==> Deliverable(events[j].attributes) || events[j].attributes.TaskStarted?
    ensures
      var live := ExecuteFrom(p, core, last, events, i);
      !live.Crashed? ==> Sound(live.core, h) && live.core.instance == core.instance && live.core.source == core.source
    decreases |events| - i
  {
    hide Handle, Sound, Deliverable;
    if i < |events| {
      var before := core.(historyLength := last + i + 1);
      SoundSame(core, before, h);
      SoundHandle(p, before, events[i], h);
      if Handle(p, before, events[i]).Ok? {
        SoundExecuteFrom(p, Handle(p, before, events[i]).core, last, events, i + 1, h);
      }
    }
  }

  /** At a task boundary nothing is pending, so the history justifies every command. */
  lemma AgreesIsSound(p: Program, instance: Instance, h: seq<Event>, x: Executor, source: nat)
    requires Agrees(p, instance, h, x)
    ensures Sound(x.core.(source := source), h) && x.core.instance == instance
  {
    hide Steps, Ids, SubInstances, Settled;
    var r := Rebuilt(p, instance, h);
    ReplayableIsLawful(p, instance, 0, h);
    StepsFrame(p, NewCore(instance, 0), h);
    forall i | 0 <= i < |x.core.commands|
      ensures SoundCommand(x.core.commands[i], h, x.core.instance, source)
    {
      assert SameCommand(r.commands[i], x.core.commands[i], false);
      assert LinkedCommand(r.commands[i], h, r.commands[i].id in r.pendingFutures);
      assert TidyCommand(r.commands[i], i + 1 in r.pendingFutures);
      assert !r.commands[i].Actionable();
    }
  }

  // ---------- the contract ----------

  lemma SoundIsDecided(core: Core, h: seq<Event>)
    requires Sound(core, h)
    ensures Decided(core.commands, h, core.instance, core.source)
  {
  }

  lemma CompletedIsDecided(core: Core, h: seq<Event>, result: Payload, error: Option<Error>)
    requires Sound(core, h)
    ensures
      var cs := CompleteWorkflow(core, result, error).commands;
      Decided(cs, h, core.instance, core.source) && EndsWith(cs) && cs[|cs| - 1].action.Complete?
  {
    hide Started, Ids, SubInstances;
  }

  /** An execution only continues as new once no sub-workflow is awaited, so none is started with it. */
  lemma RestartedIsDecided(core: Core, h: seq<Event>, result: Payload, inputs: seq<Payload>)
    requires Sound(core, h) && Tidy(core) && core.pendingFutures == map[]
    ensures
      var cs := RestartWorkflow(core, result, inputs).commands;
      Decided(cs, h, core.instance, core.source) && EndsWith(cs)
  {
    hide Started, Ids, SubInstances;
    var cs := RestartWorkflow(core, result, inputs).commands;
    forall i | 0 <= i < |cs|
      ensures !(cs[i].action.SubWorkflow? && cs[i].state == Pending)
    {
      assert i < |core.commands| ==> TidyCommand(core.commands[i], i + 1 in core.pendingFutures);
    }
  }

  /** What an executor does with the events of a task, before turning commands into events. */
  function Executing(p: Program, x: Executor, t: Task, now: Time, source: nat): Batch {
    ExecuteNewEvents(p, x.(core := x.core.(source := source)), ToExecute(t, now, source))
  }

  /**
    Every executor that agrees with a recorded history keeps the contract on any deliverable
    events, provided the history limit is not reached.
   */
  lemma ExecutorIsHonest(p: Program, h: seq<Event>, x: Executor, t: Task, now: Time, source: nat, maxHistorySize: int)
    returns (m: nat, cs: seq<Command>)
    requires Agrees(p, t.instance, h, x)
    requires forall j :: 0 <= j < |t.newEvents| ==> Deliverable(t.newEvents[j].attributes)
    requires x.lastSequenceID + 1 + |t.newEvents| < maxHistorySize
    requires Work(p, x, false, t, now, source, maxHistorySize).Executed?
    ensures Executing(p, x, t, now, source).Batch?
    ensures m == |Executing(p, x, t, now, source).executed| && cs == Executing(p, x, t, now, source).core.commands
    ensures Honest(h, t, Work(p, x, false, t, now, source, maxHistorySize).result, now, source, m, cs)
  {
    hide Handle, Agrees, Conclude, ExecuteFrom, Sound, Decided, Tidy, Settled, Deliverable;
    var start := x.core.(source := source);
    var received := ToExecute(t, now, source);
    AgreesIsSound(p, t.instance, h, x, source);
    SoundExecuteFrom(p, start, x.lastSequenceID, received, 0, h);
    AgreesTidy(p, t.instance, h, x, source);
    LiveTidy(p, start, x.lastSequenceID, received, 0);
    var live := ExecuteFrom(p, start, x.lastSequenceID, received, 0);
    var batch := ExecuteNewEvents(p, x.(core := start), received);
    m := |batch.executed|;
    cs := batch.core.commands;
    assert received[..|received|] == received;
    if live.Stopped? {
      CompletedIsDecided(live.core, h, "", Some(live.reason));
    } else {
      ConcludeIsDecided(p, live.core, h);
      if Conclude(p, live.core).Err? {
        CompletedIsDecided(live.core, h, "", Some(Conclude(p, live.core).reason));
      }
    }
  }

  lemma ConcludeIsDecided(p: Program, core: Core, h: seq<Event>)
    requires Sound(core, h) && Tidy(core)
    ensures
      match Conclude(p, core)
      case Ok(next) => Decided(next.commands, h, core.instance, core.source) && next.source == core.source
      case Err(next, _) => next == core
      case Panic => true
  {
    hide Sound, Tidy, Decided;
    SoundIsDecided(core, h);
    if Conclude(p, core).Ok? && p.completion(core.workflow.value).Some? {
      match p.completion(core.workflow.value).value
      case Returned(result, error) => CompletedIsDecided(core, h, result, error);
      case Restart(result, inputs) => RestartedIsDecided(core, h, result, inputs);
    }
  }

  lemma AgreesTidy(p: Program, instance: Instance, h: seq<Event>, x: Executor, source: nat)
    requires Agrees(p, instance, h, x)
    ensures Tidy(x.core.(source := source)) && Settled(p, x.core.(source := source))
    ensures x.lastSequenceID == |h|
  {
  }
}
