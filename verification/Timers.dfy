/** Timers that are canceled before their command is executed leave no trace. */
module Timers {
  import opened Basics
  import opened History
  import opened Commands
  import opened Execution
  import opened Stepping
  import opened Tidiness
  import opened Histories
  import opened Decisions

  /** A timer that was canceled before its command was executed. */
  predicate Gone(core: Core, id: int) {
    1 <= id <= |core.commands| && core.commands[id - 1].action.Timer? && core.commands[id - 1].state == Canceled
  }

  lemma GoneOperate(core: Core, op: Operation, id: int)
    requires Tidy(core) && Gone(core, id)
    ensures Gone(Operate(core, op), id)
  {
    assert TidyCommand(core.commands[id - 1], id in core.pendingFutures);
  }

  lemma {:induction false} GoneOperateAll(core: Core, ops: seq<Operation>, id: int)
    requires Tidy(core) && core.workflow.Some? && Gone(core, id)
    ensures Gone(OperateAll(core, ops), id)
    decreases |ops|
  {
    hide Tidy, Operate, Gone;
    if ops != [] {
      GoneOperate(core, ops[0], id);
      TidyOperate(core, ops[0]);
      GoneOperateAll(Operate(core, ops[0]), ops[1..], id);
    }
  }

  lemma GoneRun(p: Program, core: Core, coroutines: Coroutines, stimulus: Stimulus, id: int)
    requires Tidy(core) && Gone(core, id)
    ensures var r := Run(p, core, coroutines, stimulus); r.Ok? ==> Gone(r.core, id)
  {
    hide OperateAll;
    var turn := p.deliver(coroutines, stimulus, core.Look());
    GoneOperateAll(core.(workflow := Some(turn.coroutines)), turn.operations, id);
  }

  lemma GoneResume(p: Program, core: Core, stimulus: Stimulus, id: int)
    requires Tidy(core) && Gone(core, id)
    ensures var r := Resume(p, core, stimulus); r.Ok? ==> Gone(r.core, id)
  {
    hide Run, Tidy, Gone;
    if core.workflow.Some? {
      GoneRun(p, core, core.workflow.value, stimulus, id);
    }
  }

  lemma GoneResult(p: Program, core: Core, n: int, outcome: Outcome, expected: Expectation, id: int)
    requires Tidy(core) && Gone(core, id) && (expected.AnActivity? || expected.ATimer? || expected.ASubWorkflow?)
    ensures var r := HandleResult(p, core, n, outcome, expected); r.Ok? ==> Gone(r.core, id)
  {
    hide Resume;
    var r := HandleResult(p, core, n, outcome, expected);
    if r.Ok? {
      assert TidyCommand(core.commands[id - 1], id in core.pendingFutures);
      var settled := core.Untrack(n).Find(n).value.Settle().value;
      TidyResolve(core, settled);
      GoneResume(p, core.Untrack(n).Put(settled), Resolved(n, outcome), id);
    }
  }

  /** No event brings it back, and no event about it can follow. */
  lemma GoneHandle(p: Program, core: Core, e: Event, id: int)
    requires Tidy(core) && Gone(core, id)
    ensures
      var r := Handle(p, core, e);
      r.Ok? ==> Gone(r.core, id) &&
                !(e.scheduleEventID == id && (e.attributes.TimerScheduled? || e.attributes.TimerCanceled?))
  {
    hide Run, Resume, HandleResult, Tidy;
    var n := e.scheduleEventID;
    match e.attributes
    case ExecutionStarted(_, name, inputs) =>
      TidyExceptName(core, name);
      GoneRun(p, core.(workflowName := name), p.blank, Start(name, inputs), id);
    case ExecutionCanceled => GoneResume(p, core, Canceling, id);
    case SubWorkflowCancellationRequested(_) =>
      TidySubWorkflowCancellation(p, core, n);
      if HandleSubWorkflowCancellation(p, core, n).Ok? {
        var canceled := core.Find(n).value.HandleCancel().value;
        TidyFind(core, n);
        TidyIndexed(core);
        TidyPut(core, canceled);
        GoneResume(p, core.Put(canceled), Stimulus.Continue, id);
      }
    case SubWorkflowCompleted(result) => GoneResult(p, core, n, Value(Some(result)), ASubWorkflow, id);
    case SubWorkflowFailed(reason) => GoneResult(p, core, n, Failure(reason), ASubWorkflow, id);
    case ActivityCompleted(result) => GoneResult(p, core, n, Value(Some(result)), AnActivity, id);
    case ActivityFailed(reason) => GoneResult(p, core, n, Failure(reason), AnActivity, id);
    case TimerFired(_, _, _) => GoneResult(p, core, n, Value(None), ATimer, id);
    case TimerCanceled => TidyTimerCanceled(p, core, n);
    case SignalReceived(name, arg) => GoneResume(p, core, Signaled(name, arg), id);
    case _ =>
  }

  /** Executing commands at any later checkpoint yields no event for it. */
  lemma GoneYieldsNothing(core: Core, id: int, now: Time, source: nat)
    requires Indexed(core) && Gone(core, id)
    ensures
      var r := Collect(core.commands, now, source);
      && (forall e :: e in r.events ==> e.id != Drawn(source, ForEvent, id))
      && (forall e :: e in r.timerEvents ==> e.id != Drawn(source, ForMessage, id))
    ensures core.commands[id - 1].Executed() == core.commands[id - 1]
  {
    hide Command.Execute, Collect;
    EventsFromCommands(core.commands, now, source);
    CanceledIsSilent(core.commands[id - 1], now, source);
  }

  lemma CanceledIsSilent(c: Command, now: Time, source: nat)
    requires c.state == Canceled
    ensures c.Execute(now, source) == NoResult && c.Executed() == c
  {
  }

  /** A timer canceled before commit leaves no event at all, in whatever follows. */
  lemma {:induction false} CanceledTimerLeavesNothing(p: Program, core: Core, events: seq<Event>, id: int)
    requires Tidy(core) && Settled(p, core) && Gone(core, id) && Steps(p, core, events).Ok?
    ensures Gone(Steps(p, core, events).core, id)
    ensures id !in Ids(events, TimerStart) && id !in Ids(events, TimerStop)
    decreases |events|
  {
    hide Handle, Tidy, Settled, Gone;
    if events != [] {
      var before := core.(historyLength := events[0].sequenceID);
      TidyExceptLength(p, core, events[0].sequenceID);
      assert Gone(before, id) by { GoneSame(core, before, id); }
      GoneHandle(p, before, events[0], id);
      TidyHandle(p, before, events[0]);
      CanceledTimerLeavesNothing(p, Handle(p, before, events[0]).core, events[1..], id);
      assert events == [events[0]] + events[1..];
    }
  }

  lemma GoneSame(core: Core, other: Core, id: int)
    requires Gone(core, id) && other.commands == core.commands
    ensures Gone(other, id)
  {
  }
}
