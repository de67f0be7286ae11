/** What a task ends with: whether the execution goes on, and otherwise with which result, error or continuation. */
module Endings {
  import opened Basics
  import opened History
  import opened Commands
  import opened Execution
  import opened Tidiness
  import opened Determinism

  datatype Ending =
    | GoesOn
    | Finishes(result: Payload, error: Option<Error>)
    | Continues(name: string, inputs: seq<Payload>, result: Payload)

  /** How executing the new events ends: with the first error, or as the workflow code says once it returned. */
  function EndingOf(p: Program, live: Live): Ending
    requires live.AllExecuted? ==> live.core.workflow.Some?
    requires !live.Crashed?
  {
    if live.Stopped? then Finishes("", Some(live.reason))
    else
      match p.completion(live.core.workflow.value)
      case None => GoesOn
      case Some(done) =>
        if live.core.pendingFutures != map[] then Finishes("", Some(FuturesStillPending))
        else if done.Returned? then Finishes(done.result, done.error)
        else Continues(live.core.workflowName, done.inputs, done.result)
  }

  /** The result of the task says so in its last event and, if somebody has to know, in its last message. */
  predicate Says(r: ExecutionResult, instance: Instance, ending: Ending) {
    match ending
    case GoesOn => r.state == Active
    case Finishes(result, error) =>
      && r.state == Finished && r.executed != []
      && r.executed[|r.executed| - 1].attributes == ExecutionFinished(result, error)
      && (instance.parent.Some? ==>
            r.workflowEvents != [] &&
            var w := r.workflowEvents[|r.workflowEvents| - 1];
            && w.instance == instance.parent.value && w.event.scheduleEventID == instance.parentEventID
            && w.event.attributes == if error.Some? then SubWorkflowFailed(error.value) else SubWorkflowCompleted(result))
    case Continues(name, inputs, result) =>
      && r.state == InstanceState.ContinuedAsNew && r.executed != [] && r.workflowEvents != []
      && var e, w := r.executed[|r.executed| - 1], r.workflowEvents[|r.workflowEvents| - 1];
      && e.attributes.ExecutionContinuedAsNew? && e.attributes.result == result
      && w.event.attributes == ExecutionStarted("", name, inputs)
      && w.instance.instanceID == instance.instanceID && w.instance.executionID == e.attributes.continuedExecutionID
      && w.instance.parent == instance.parent
      && (instance.parent.Some? ==> w.instance.parentEventID == instance.parentEventID)
  }

  /** The first events are those that were executed, numbered on. */
  predicate StartsWith(r: ExecutionResult, executed: seq<Event>, last: int) {
    |executed| <= |r.executed| &&
    forall i :: 0 <= i < |executed| ==> r.executed[i] == executed[i].(sequenceID := last + i + 1)
  }

  function ResultOf(core: Core, last: int, executed: seq<Event>, now: Time): ExecutionResult {
    Checkpoint(core, last, executed, now).1
  }

  lemma {:induction false} RankOfLast(cs: seq<Command>, c: Command, now: Time, source: nat)
    requires c.action.Complete? && c.state == Pending
    ensures Collect(cs + [c], now, source).state == Finished
  {
    assert (cs + [c])[..|cs|] == cs;
  }

  /** A checkpoint whose last command completes the execution. */
  lemma FinishedSays(core: Core, result: Payload, error: Option<Error>, last: int, executed: seq<Event>, now: Time)
    ensures
      var r := ResultOf(CompleteWorkflow(core, result, error), last, executed, now);
      Says(r, core.instance, Finishes(result, error)) && StartsWith(r, executed, last)
  {
    hide Command.Execute;
    var c := Command(core.nextScheduleEventID, Complete(core.instance, result, error), Pending, false);
    var cs := core.commands;
    assert (cs + [c])[..|cs|] == cs;
    ExecuteYields(c, now, core.source);
    RankOfLast(cs, c, now, core.source);
  }

  /** A checkpoint whose last command continues the execution as new. */
  lemma ContinuedSays(core: Core, result: Payload, inputs: seq<Payload>, last: int, executed: seq<Event>, now: Time)
    requires Collect(core.commands, now, core.source).state == Active
    ensures
      var r := ResultOf(RestartWorkflow(core, result, inputs), last, executed, now);
      Says(r, core.instance, Continues(core.workflowName, inputs, result)) && StartsWith(r, executed, last)
  {
    hide Command.Execute, Collect, ExecutedAll, Records, Tells;
    var next := RestartWorkflow(core, result, inputs);
    var c := next.commands[|core.commands|];
    assert next.commands == core.commands + [c];
    CollectLast(core.commands, c, now, core.source);
    ExecuteYields(c, now, core.source);
    var own := c.Execute(now, core.source);
    assert own.state == InstanceState.ContinuedAsNew && Records(c, own.events[0], now, core.source);
    LastRecorded(core.commands, c, now, core.source, last, executed);
    ContinuationMeans(c, own.events[0], own.workflowEvents[0], now, core.source);
  }

  lemma CollectLast(cs: seq<Command>, c: Command, now: Time, source: nat)
    ensures Collect(cs + [c], now, source) == Collect(cs, now, source).Then(c.Execute(now, source))
  {
    hide Command.Execute;
    assert (cs + [c])[..|cs|] == cs;
  }

  /** The event of the last command is recorded last. */
  lemma LastRecorded(cs: seq<Command>, c: Command, now: Time, source: nat, last: int, executed: seq<Event>)
    requires |c.Execute(now, source).events| == 1
    ensures
      var all := Number(executed + Collect(cs + [c], now, source).events, last);
      all != [] && all[|all| - 1].attributes == c.Execute(now, source).events[0].attributes
  {
    hide Command.Execute;
    CollectLast(cs, c, now, source);
  }

  lemma ContinuationMeans(c: Command, e: Event, w: WorkflowEvent, now: Time, source: nat)
    requires c.action.ContinueAsNew? && Records(c, e, now, source) && Tells(c, w, now, source)
    ensures e.attributes == ExecutionContinuedAsNew(c.action.result, c.action.continuedExecutionID)
    ensures w.event.attributes == ExecutionStarted("", c.action.name, c.action.inputs)
    ensures w.instance.instanceID == c.action.instance.instanceID &&
            w.instance.executionID == c.action.continuedExecutionID
    ensures w.instance.parent == c.action.instance.parent
    ensures c.action.instance.parent.Some? ==> w.instance.parentEventID == c.action.instance.parentEventID
  {
  }

  lemma OpenIsActive(core: Core, now: Time)
    requires Tidy(core)
    ensures Collect(core.commands, now, core.source).state == Active
  {
    hide Tidy, Collect;
    TidyIsOpen(core);
    ActiveUnlessFinal(core.commands, now, core.source);
  }

  /**
    What a task reports: first the events it executed, numbered on from the history; and at the end what executing them
    came to, or, if that reaches the history limit, that the limit was exceeded.
   */
  lemma WorkSays(p: Program, x: Executor, t: Task, now: Time, source: nat, maxHistorySize: int)
    requires Tidy(x.core) && Settled(p, x.core) && Work(p, x, false, t, now, source, maxHistorySize).Executed?
    ensures
      var live := LiveTask(p, x, t, now, source);
      !live.Crashed? && (live.AllExecuted? ==> live.core.workflow.Some?)
    ensures
      var live, r := LiveTask(p, x, t, now, source), Work(p, x, false, t, now, source, maxHistorySize).result;
      var received := ToExecute(t, now, source);
      var executed := if live.Stopped? then received[..live.count] else received;
      && StartsWith(r, executed, x.lastSequenceID)
      && Says(r, x.core.instance,
              if x.lastSequenceID + |executed| >= maxHistorySize then Finishes("", Some(HistorySizeExceeded))
              else EndingOf(p, live))
  {
    hide Tidy, Settled, ExecuteFrom, Says, StartsWith, Collect;
    var start := x.core.(source := source);
    var received, last := ToExecute(t, now, source), x.lastSequenceID;
    var live := LiveTask(p, x, t, now, source);
    TidyExceptSource(p, x.core, source);
    LiveTidy(p, start, last, received, 0);
    InstanceKept(p, start, last, received, 0);
    var executed := if live.Stopped? then received[..live.count] else received;
    var batch := ExecuteNewEvents(p, x.(core := start), received);
    assert batch == Batch(batch.core, executed);
    if last + |executed| >= maxHistorySize {
      ConcludeInstance(p, live);
      FinishedSays(batch.core, "", Some(HistorySizeExceeded), last, executed, now);
    } else if live.Stopped? {
      FinishedSays(live.core, "", Some(live.reason), last, executed, now);
    } else {
      OpenIsActive(live.core, now);
      match p.completion(live.core.workflow.value)
      case None => OpenSays(live.core, last, executed, now);
      case Some(done) =>
        if live.core.pendingFutures != map[] {
          FinishedSays(live.core, "", Some(FuturesStillPending), last, executed, now);
        } else if done.Returned? {
          FinishedSays(live.core, done.result, done.error, last, executed, now);
        } else {
          ContinuedSays(live.core, done.result, done.inputs, last, executed, now);
        }
    }
  }

  lemma {:induction false} InstanceKept(p: Program, core: Core, last: int, events: seq<Event>, i: nat)
    requires i <= |events|
    ensures var live := ExecuteFrom(p, core, last, events, i); !live.Crashed? ==> live.core.instance == core.instance
    decreases |events| - i
  {
    hide Handle;
    if i < |events| {
      var r := Handle(p, core.(historyLength := last + i + 1), events[i]);
      if r.Ok? {
        InstanceKept(p, r.core, last, events, i + 1);
      }
    }
  }

  lemma ConcludeInstance(p: Program, live: Live)
    ensures live.AllExecuted? ==>
              var r := Conclude(p, live.core); !r.Panic? ==> r.core.instance == live.core.instance
  {
  }

  lemma OpenSays(core: Core, last: int, executed: seq<Event>, now: Time)
    requires Collect(core.commands, now, core.source).state == Active
    ensures Says(ResultOf(core, last, executed, now), core.instance, GoesOn)
    ensures StartsWith(ResultOf(core, last, executed, now), executed, last)
  {
  }

  /** If the history could not be replayed, the task only records that it started, and fails with that error or the limit's. */
  lemma SkippedSays(p: Program, core: Core, reason: Error, t: Task, now: Time, source: nat, maxHistorySize: int)
    ensures
      var ready := Executor(CompleteWorkflow(core, "", Some(reason)), t.lastSequenceID);
      var w := Work(p, ready, true, t, now, source, maxHistorySize);
      && w.Executed? && StartsWith(w.result, ToExecute(t, now, source)[..1], t.lastSequenceID)
      && Says(w.result, core.instance,
              Finishes("", Some(if t.lastSequenceID + 1 >= maxHistorySize then HistorySizeExceeded else reason)))
  {
    hide Says, StartsWith, Collect;
    var executed := ToExecute(t, now, source)[..1];
    FinishedSays(core.(source := source), "", Some(reason), t.lastSequenceID, executed, now);
    var failed := CompleteWorkflow(core.(source := source), "", Some(reason));
    assert CompleteWorkflow(core, "", Some(reason)).(source := source) == failed;
    FinishedSays(failed, "", Some(HistorySizeExceeded), t.lastSequenceID, executed, now);
  }
}
