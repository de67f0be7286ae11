/** Runs, from a new executor on, in which the guarantees fail where their hypotheses do not hold. */
module Counterexamples {
  import opened Basics
  import opened History
  import opened Commands
  import opened Execution
  import opened Stepping
  import opened Determinism
  import opened CacheTransparency
  import opened Completion

  // ---------- continuing a blocked workflow must do nothing ----------

  /** None of these workflows returns. */
  function StillRunning(c: Coroutines): Option<Execution.Completion> {
    None
  }

  /** A workflow that starts a sub-workflow, cancels it when canceled, and schedules an activity whenever continued. */
  const Meddling := Program(
    Coroutines([]),
    _ => true,
    (c, s: Stimulus, v) =>
      Turn(c,
           if s.Start? then [ScheduleSubWorkflow("", "", "", [], "")]
           else if s.Canceling? then [CloseDone(1)]
           else if s.Continue? then [ScheduleActivity("", [], 0, "", "")]
           else [],
           None),
    StillRunning,
    (_, _) => true)

  const Parent := Instance(Chosen("parent"), Chosen("1"), None, 0)

  function Received(name: string, a: Attributes): Event {
    NewPendingEvent(Chosen(name), 0, 0, a)
  }

  const Begun := Received("begin", ExecutionStarted("", "", []))
  const CancelAsked := Received("cancel", ExecutionCanceled)
  const ChildFailed := Received("failed", SubWorkflowFailed(ContextCanceled)).(scheduleEventID := 1)
  const Signal := Received("signal", SignalReceived("", ""))
  const NoLimit := 1000

  /** The workflow with its one sub-workflow, whose ids were drawn from `creator`. */
  function WithChild(source: nat, creator: nat, state: CommandState, time: Time, length: int): Core {
    var child := Instance(Drawn(creator, ForInstance, 1), Drawn(creator, ForExecution, 1), Some(Parent), 1);
    Core(Parent, source, 2,
         [Command(1, SubWorkflow("", child, "", []), state, state == Pending || state == Committed)],
         map[1 := ""], Some(Coroutines([])), "", time, length)
  }

  lemma StepsTwo(p: Program, core: Core, e: Event, f: Event, middle: Core)
    requires Handle(p, core.(historyLength := e.sequenceID), e) == Ok(middle)
    ensures Steps(p, core, [e, f]) == Handle(p, middle.(historyLength := f.sequenceID), f)
  {
    hide Handle;
    assert [e, f] == [e] + [f];
    StepsOne(p, core, e);
    StepsOne(p, middle, f);
    StepsAppend(p, core, [e], [f]);
  }

  /** Live execution of the events of a task, by the reference semantics. */
  lemma LiveBySteps(p: Program, x: Executor, t: Task, now: Time, source: nat)
    ensures
      match Steps(p, x.core.(source := source), Number(ToExecute(t, now, source), x.lastSequenceID))
      case Ok(core) => LiveTask(p, x, t, now, source) == AllExecuted(core)
      case Err(_, _) => LiveTask(p, x, t, now, source).Stopped?
      case Panic => LiveTask(p, x, t, now, source) == Crashed
  {
    hide Handle;
    var es := Number(ToExecute(t, now, source), x.lastSequenceID);
    assert es[0..] == es;
    LiveIsSteps(p, x.core.(source := source), x.lastSequenceID, ToExecute(t, now, source), 0);
  }

  /** The task started event with its number. */
  function StartOf(now: Time, source: nat, n: int): Event {
    NewPendingEvent(Drawn(source, ForTask, 0), now, 0, TaskStarted).(sequenceID := n)
  }

  /** Starting the workflow, live or in a replay. */
  lemma Begins(source: nat, drawer: nat, now: Time)
    ensures Steps(Meddling, NewCore(Parent, source), [StartOf(now, drawer, 1), Begun.(sequenceID := 2)]) ==
            Ok(WithChild(source, source, Pending, now, 2))
  {
    var middle := NewCore(Parent, source).(historyLength := 1, time := now);
    StepsTwo(Meddling, NewCore(Parent, source), StartOf(now, drawer, 1), Begun.(sequenceID := 2), middle);
    var started := middle.(historyLength := 2, workflow := Some(Coroutines([])));
    var op := ScheduleSubWorkflow("", "", "", [], "");
    assert OperateAll(started, [op]) == Operate(started, op);
    assert map[][1 := ""] == map[1 := ""];
  }

  /** Canceling the workflow cancels its sub-workflow. */
  lemma Cancels(source: nat, drawer: nat, before: Time, now: Time)
    ensures Steps(Meddling, WithChild(source, 1, Committed, before, 3),
                  [StartOf(now, drawer, 4), CancelAsked.(sequenceID := 5)]) ==
            Ok(WithChild(source, 1, CancelPending, now, 5))
  {
    var start := WithChild(source, 1, Committed, before, 3);
    var middle := start.(historyLength := 4, time := now);
    StepsTwo(Meddling, start, StartOf(now, drawer, 4), CancelAsked.(sequenceID := 5), middle);
    var canceled := middle.(historyLength := 5);
    assert OperateAll(canceled, [CloseDone(1)]) == Operate(canceled, CloseDone(1));
  }

  const FirstTask := Task(Parent, Active, "", [Begun], 0)
  const CancelTask := Task(Parent, Active, "", [CancelAsked], 3)

  lemma CollectOne(c: Command, now: Time, source: nat)
    ensures Collect([c], now, source) == NoResult.Then(c.Execute(now, source))
  {
    hide Command.Execute;
    assert [c][..0] == [];
    assert Collect([], now, source) == NoResult;
  }

  /** A task that executes one event without error and does not end the execution. */
  lemma OneEventTask(p: Program, x: Executor, t: Task, now: Time, source: nat, live: Core)
    requires t.newEvents != [] && t.newEvents[1..] == [] && x.lastSequenceID + 2 < NoLimit
    requires p.completion == StillRunning && live.workflow.Some? && live.source == source
    requires
      var n := x.lastSequenceID;
      Steps(p, x.core.(source := source), [StartOf(now, source, n + 1), t.newEvents[0].(sequenceID := n + 2)]) ==
      Ok(live)
    ensures
      var w, r := Work(p, x, false, t, now, source, NoLimit), Collect(live.commands, now, source);
      var n := x.lastSequenceID + 2 + |r.events|;
      && LiveTask(p, x, t, now, source) == AllExecuted(live)
      && w.Executed? && w.result.state == r.state && w.result.activityEvents == r.activityEvents
      && w.result.executed ==
         [StartOf(now, source, x.lastSequenceID + 1), t.newEvents[0].(sequenceID := x.lastSequenceID + 2)] +
         Number(r.events, x.lastSequenceID + 2)
      && w.executor == Executor(live.(commands := ExecutedAll(live.commands), historyLength := n), n)
  {
    hide Handle, Steps, ExecuteFrom, Collect;
    var n := x.lastSequenceID;
    var events := ToExecute(t, now, source);
    assert Number(events, n) == [StartOf(now, source, n + 1), t.newEvents[0].(sequenceID := n + 2)];
    LiveBySteps(p, x, t, now, source);
    assert Conclude(p, live) == Ok(live);
    TaskResult(p, x, t, now, source, NoLimit);
    NumberAppend(events, Collect(live.commands, now, source).events, n);
  }

  lemma ChildYields(c: Command, now: Time, source: nat)
    requires c.action.SubWorkflow? && (c.state == Pending || c.state == CancelPending)
    ensures |c.Execute(now, source).events| == 1 && c.Execute(now, source).activityEvents == []
    ensures ExecutedAll([c]) == [c.Executed()]
    ensures Collect([c], now, source).events == c.Execute(now, source).events
    ensures Collect([c], now, source).activityEvents == []
  {
    CollectOne(c, now, source);
  }

  /** What the child's command records, with its number. */
  function ChildEvent(state: CommandState, time: Time, source: nat, n: int): (e: Event)
    requires state == Pending || state == CancelPending
    ensures e.sequenceID == n
  {
    ChildYields(WithChild(source, 1, state, time, n - 1).commands[0], time, source);
    WithChild(source, 1, state, time, n - 1).commands[0].Execute(time, source).events[0].(sequenceID := n)
  }

  /** The first task starts the sub-workflow, the second requests its cancellation. */
  lemma TwoTasks()
    ensures
      var w := Work(Meddling, NewExecutor(Parent, 0), false, FirstTask, 1, 1, NoLimit);
      && w.Executed? && w.executor == Executor(WithChild(1, 1, Committed, 1, 3), 3)
      && w.result.executed == [StartOf(1, 1, 1), Begun.(sequenceID := 2), ChildEvent(Pending, 1, 1, 3)]
    ensures
      var w := Work(Meddling, Executor(WithChild(1, 1, Committed, 1, 3), 3), false, CancelTask, 2, 2, NoLimit);
      && w.Executed? && w.executor == Executor(WithChild(2, 1, Canceled, 2, 6), 6)
      && w.result.executed == [StartOf(2, 2, 4), CancelAsked.(sequenceID := 5), ChildEvent(CancelPending, 2, 2, 6)]
  {
    hide Command.Execute, Steps, Collect, ExecutedAll, Work;
    var first, second := WithChild(1, 1, Pending, 1, 2), WithChild(2, 1, CancelPending, 2, 5);
    Begins(1, 1, 1);
    OneEventTask(Meddling, NewExecutor(Parent, 0), FirstTask, 1, 1, first);
    ChildYields(first.commands[0], 1, 1);
    Cancels(2, 2, 1, 2);
    OneEventTask(Meddling, Executor(WithChild(1, 1, Committed, 1, 3), 3), CancelTask, 2, 2, second);
    ChildYields(second.commands[0], 2, 2);
  }

  /** What the two tasks recorded. */
  const Both := [StartOf(1, 1, 1), Begun.(sequenceID := 2), ChildEvent(Pending, 1, 1, 3),
                 StartOf(2, 2, 4), CancelAsked.(sequenceID := 5), ChildEvent(CancelPending, 2, 2, 6)]

  /** Replayed in another process, the history leaves the workflow with an activity nobody scheduled. */
  function Meddled(source: nat): Core {
    Operate(WithChild(source, 1, Canceled, 2, 6), ScheduleActivity("", [], 0, "", ""))
  }

  lemma ReplayedStart(source: nat)
    ensures Handle(Meddling, WithChild(source, source, Pending, 1, 3), ChildEvent(Pending, 1, 1, 3)) ==
            Ok(WithChild(source, 1, Committed, 1, 3))
  {
  }

  lemma ReplayedRequest(source: nat)
    ensures Handle(Meddling, WithChild(source, 1, CancelPending, 2, 6), ChildEvent(CancelPending, 2, 2, 6)) ==
            Ok(Meddled(source))
  {
    var canceled := WithChild(source, 1, Canceled, 2, 6);
    var op := ScheduleActivity("", [], 0, "", "");
    var asked := WithChild(source, 1, CancelPending, 2, 6);
    assert asked.commands[0 := canceled.commands[0]] == canceled.commands;
    assert asked.Put(canceled.commands[0]) == canceled;
    assert OperateAll(canceled, [op]) == Operate(canceled, op);
  }

  lemma BothReplayed(source: nat)
    ensures Steps(Meddling, NewCore(Parent, source), Both) == Ok(Meddled(source))
  {
    hide Handle, Steps, ChildEvent;
    Begins(source, 1, 1);
    Cancels(source, 2, 1, 2);
    ReplayedStart(source);
    ReplayedRequest(source);
    var c2, c3 := WithChild(source, source, Pending, 1, 2), WithChild(source, 1, Committed, 1, 3);
    var c5 := WithChild(source, 1, CancelPending, 2, 5);
    StepsOne(Meddling, c2, Both[2]);
    StepsOne(Meddling, c5, Both[5]);
    StepsAppend(Meddling, NewCore(Parent, source), Both[..2], Both[2..3]);
    StepsAppend(Meddling, NewCore(Parent, source), Both[..3], Both[3..5]);
    StepsAppend(Meddling, NewCore(Parent, source), Both[..5], Both[5..]);
    assert Both[..2] + Both[2..3] == Both[..3] && Both[..3] + Both[3..5] == Both[..5] && Both[..5] + Both[5..] == Both;
    assert Both[..2] == [StartOf(1, 1, 1), Begun.(sequenceID := 2)] && Both[2..3] == [Both[2]] &&
           Both[5..] == [Both[5]];
    assert Both[3..5] == [StartOf(2, 2, 4), CancelAsked.(sequenceID := 5)];
  }

  /**
    A run of a workflow that is not at rest where it requests a cancellation: what two tasks
    recorded does not lead a replay to the state of the executor that recorded it.
   */
  lemma ReplayDiverges(source: nat)
    ensures
      var first := Work(Meddling, NewExecutor(Parent, 0), false, FirstTask, 1, 1, NoLimit);
      first.Executed? &&
      var second := Work(Meddling, first.executor, false, CancelTask, 2, 2, NoLimit);
      second.Executed? &&
      match Steps(Meddling, NewCore(Parent, source), first.result.executed + second.result.executed)
      case Ok(replayed) => |replayed.commands| == 2 && |second.executor.core.commands| == 1
      case _ => false
  {
    hide Work, Steps, ChildEvent;
    TwoTasks();
    BothReplayed(source);
    assert [Both[0], Both[1], Both[2]] + [Both[3], Both[4], Both[5]] == Both;
  }

  const SignalTask := Task(Parent, Active, "", [Signal], 6)

  /**
    So the worker that kept its executor and a worker that rebuilds the workflow complete the
    next task differently: only the latter schedules an activity.
   */
  lemma WorkersDisagree(now: Time, source: nat, replaySource: nat)
    ensures
      var first := Work(Meddling, NewExecutor(Parent, 0), false, FirstTask, 1, 1, NoLimit);
      first.Executed? &&
      var second := Work(Meddling, first.executor, false, CancelTask, 2, 2, NoLimit);
      second.Executed? &&
      var h := first.result.executed + second.result.executed;
      match (ExecuteTask(Meddling, second.executor, SignalTask, h, now, source, replaySource, NoLimit),
             ExecuteTask(Meddling, NewExecutor(Parent, replaySource), SignalTask, h, now, source, replaySource, NoLimit))
      case (Executed(_, r), Executed(_, q)) => r.activityEvents == [] && |q.activityEvents| == 1
      case _ => false
  {
    hide ExecuteTask, Work, ChildEvent;
    TwoTasks();
    assert [Both[0], Both[1], Both[2]] + [Both[3], Both[4], Both[5]] == Both;
    NextTask(now, source, replaySource);
  }

  lemma NextTask(now: Time, source: nat, replaySource: nat)
    ensures
      var kept := Executor(WithChild(2, 1, Canceled, 2, 6), 6);
      match (ExecuteTask(Meddling, kept, SignalTask, Both, now, source, replaySource, NoLimit),
             ExecuteTask(Meddling, NewExecutor(Parent, replaySource), SignalTask, Both, now, source, replaySource, NoLimit))
      case (Executed(_, r), Executed(_, q)) => r.activityEvents == [] && |q.activityEvents| == 1
      case _ => false
  {
    hide Steps, Work, Collect, ChildEvent;
    var kept := WithChild(2, 1, Canceled, 2, 6);
    var rebuilt := Executor(Meddled(replaySource), 6);
    BothReplayed(replaySource);
    ReplayIsSteps(Meddling, NewExecutor(Parent, replaySource), Both);
    EventsAfterPrefix(Both, 0, 0);
    assert CatchUp(Meddling, NewExecutor(Parent, replaySource), SignalTask, Both, replaySource) ==
           Ready(rebuilt, false);
    SignalIgnored(kept, now, source);
    OneEventTask(Meddling, Executor(kept, 6), SignalTask, now, source, SignalHandled(kept, now, source));
    CollectOne(kept.commands[0], now, source);
    SignalIgnored(Meddled(replaySource), now, source);
    OneEventTask(Meddling, rebuilt, SignalTask, now, source, SignalHandled(Meddled(replaySource), now, source));
    CollectTwo(Meddled(replaySource).commands, now, source);
  }

  function SignalHandled(core: Core, now: Time, source: nat): Core {
    core.(source := source, time := now, historyLength := 8)
  }

  lemma SignalIgnored(core: Core, now: Time, source: nat)
    requires core.workflow == Some(Coroutines([]))
    ensures Steps(Meddling, core.(source := source), [StartOf(now, source, 7), Signal.(sequenceID := 8)]) ==
            Ok(SignalHandled(core, now, source))
  {
    var start := core.(source := source);
    var middle := start.(historyLength := 7, time := now);
    StepsTwo(Meddling, start, StartOf(now, source, 7), Signal.(sequenceID := 8), middle);
  }

  lemma CollectTwo(cs: seq<Command>, now: Time, source: nat)
    requires |cs| == 2 && cs[0].state == Canceled && cs[1].state == Pending && cs[1].action.Activity?
    ensures |Collect(cs, now, source).activityEvents| == 1
  {
    assert cs[..1] == [cs[0]];
    CollectOne(cs[0], now, source);
  }

  // ---------- with several requests, rest is not necessary ----------

  /** A workflow that starts two sub-workflows, cancels both when canceled, and flips its memory whenever continued. */
  const Flipping := Program(
    Coroutines([]),
    _ => true,
    (c: Coroutines, s: Stimulus, v) =>
      if s.Start? then
        var start := ScheduleSubWorkflow("", "", "", [], "");
        Turn(Coroutines([0]), [start, start], None)
      else if s.Canceling? then Turn(c, [CloseDone(1), CloseDone(2)], None)
      else if s.Continue? && c.memory != [] then Turn(Coroutines([1 - c.memory[0]]), [], None)
      else Turn(c, [], None),
    StillRunning,
    (_, _) => true)

  function ChildCommand(creator: nat, id: nat, state: CommandState): Command {
    var child := Instance(Drawn(creator, ForInstance, id), Drawn(creator, ForExecution, id), Some(Parent), id);
    Command(id, SubWorkflow("", child, "", []), state, state == Pending || state == Committed)
  }

  function WithTwo(source: nat, creator: nat, one: CommandState, two: CommandState, memory: int, time: Time,
                   length: int): Core {
    Core(Parent, source, 3, [ChildCommand(creator, 1, one), ChildCommand(creator, 2, two)],
         map[1 := "", 2 := ""], Some(Coroutines([memory])), "", time, length)
  }

  lemma FlippingBegins()
    ensures Steps(Flipping, NewCore(Parent, 1), [StartOf(1, 1, 1), Begun.(sequenceID := 2)]) ==
            Ok(WithTwo(1, 1, Pending, Pending, 0, 1, 2))
  {
    var middle := NewCore(Parent, 1).(historyLength := 1, time := 1);
    StepsTwo(Flipping, NewCore(Parent, 1), StartOf(1, 1, 1), Begun.(sequenceID := 2), middle);
    var started := middle.(historyLength := 2, workflow := Some(Coroutines([0])));
    var op := ScheduleSubWorkflow("", "", "", [], "");
    OperateTwo(started, op, op);
    assert map[][1 := ""][2 := ""] == map[1 := "", 2 := ""];
    assert Operate(Operate(started, op), op) == WithTwo(1, 1, Pending, Pending, 0, 1, 2);
  }

  lemma OperateTwo(core: Core, one: Operation, two: Operation)
    ensures OperateAll(core, [one, two]) == Operate(Operate(core, one), two)
  {
    hide Operate;
    assert [one, two][1..] == [two];
    assert OperateAll(Operate(core, one), [two]) == Operate(Operate(core, one), two);
  }

  lemma FlippingCancels()
    ensures Steps(Flipping, WithTwo(2, 1, Committed, Committed, 0, 1, 4), [StartOf(2, 2, 5), CancelAsked.(sequenceID := 6)]) ==
            Ok(WithTwo(2, 1, CancelPending, CancelPending, 0, 2, 6))
  {
    var start := WithTwo(2, 1, Committed, Committed, 0, 1, 4);
    var middle := start.(historyLength := 5, time := 2);
    StepsTwo(Flipping, start, StartOf(2, 2, 5), CancelAsked.(sequenceID := 6), middle);
    var asked := middle.(historyLength := 6);
    OperateTwo(asked, CloseDone(1), CloseDone(2));
    var half := WithTwo(2, 1, CancelPending, Committed, 0, 2, 6);
    assert asked.commands[0 := half.commands[0]] == half.commands;
    assert Operate(asked, CloseDone(1)) == half;
    var both := WithTwo(2, 1, CancelPending, CancelPending, 0, 2, 6);
    assert half.commands[1 := both.commands[1]] == both.commands;
    assert Operate(half, CloseDone(2)) == both;
  }

  lemma CollectBoth(one: Command, two: Command, now: Time, source: nat)
    requires one.action.SubWorkflow? && two.action.SubWorkflow?
    requires (one.state == Pending && two.state == Pending) || (one.state == CancelPending && two.state == CancelPending)
    ensures |one.Execute(now, source).events| == |two.Execute(now, source).events| == 1
    ensures Collect([one, two], now, source).events == one.Execute(now, source).events + two.Execute(now, source).events
    ensures ExecutedAll([one, two]) == [one.Executed(), two.Executed()]
  {
    assert [one, two][..1] == [one];
    CollectOne(one, now, source);
    assert Collect([one, two], now, source) == Collect([one], now, source).Then(two.Execute(now, source));
  }

  /** What the command of a child records, with its number. */
  function Asked(id: nat, n: int): Event {
    CollectBoth(ChildCommand(1, id, CancelPending), ChildCommand(1, id, CancelPending), 2, 2);
    ChildCommand(1, id, CancelPending).Execute(2, 2).events[0].(sequenceID := n)
  }

  lemma FlippingTasks()
    ensures
      var w := Work(Flipping, NewExecutor(Parent, 0), false, FirstTask, 1, 1, NoLimit);
      w.Executed? && w.executor == Executor(WithTwo(1, 1, Committed, Committed, 0, 1, 4), 4)
    ensures
      var x := Executor(WithTwo(1, 1, Committed, Committed, 0, 1, 4), 4);
      var w := Work(Flipping, x, false, CancelTask, 2, 2, NoLimit);
      && LiveTask(Flipping, x, CancelTask, 2, 2) == AllExecuted(WithTwo(2, 1, CancelPending, CancelPending, 0, 2, 6))
      && w.Executed? && w.executor == Executor(WithTwo(2, 1, Canceled, Canceled, 0, 2, 8), 8)
      && w.result.executed == [StartOf(2, 2, 5), CancelAsked.(sequenceID := 6), Asked(1, 7), Asked(2, 8)]
  {
    hide Command.Execute, Steps, Collect, ExecutedAll, Work, LiveTask;
    var first, second := WithTwo(1, 1, Pending, Pending, 0, 1, 2), WithTwo(2, 1, CancelPending, CancelPending, 0, 2, 6);
    FlippingBegins();
    OneEventTask(Flipping, NewExecutor(Parent, 0), FirstTask, 1, 1, first);
    CollectBoth(first.commands[0], first.commands[1], 1, 1);
    FlippingCancels();
    OneEventTask(Flipping, Executor(WithTwo(1, 1, Committed, Committed, 0, 1, 4), 4), CancelTask, 2, 2, second);
    CollectBoth(second.commands[0], second.commands[1], 2, 2);
  }

  lemma FlippedOnce()
    ensures Handle(Flipping, WithTwo(2, 1, CancelPending, CancelPending, 0, 2, 7), Asked(1, 7)) ==
            Ok(WithTwo(2, 1, Canceled, CancelPending, 1, 2, 7))
  {
    var asked, half := WithTwo(2, 1, CancelPending, CancelPending, 0, 2, 7), WithTwo(2, 1, Canceled, CancelPending, 0, 2, 7);
    assert asked.commands[0 := half.commands[0]] == half.commands;
    assert asked.Put(half.commands[0]) == half;
  }

  lemma FlippedBack()
    ensures Handle(Flipping, WithTwo(2, 1, Canceled, CancelPending, 1, 2, 8), Asked(2, 8)) ==
            Ok(WithTwo(2, 1, Canceled, Canceled, 0, 2, 8))
  {
    var half, both := WithTwo(2, 1, Canceled, CancelPending, 1, 2, 8), WithTwo(2, 1, Canceled, Canceled, 1, 2, 8);
    assert half.commands[1 := both.commands[1]] == both.commands;
    assert half.Put(both.commands[1]) == both;
  }

  lemma FlippedTwice()
    ensures Steps(Flipping, WithTwo(2, 1, CancelPending, CancelPending, 0, 2, 6), [Asked(1, 7), Asked(2, 8)]) ==
            Ok(WithTwo(2, 1, Canceled, Canceled, 0, 2, 8))
  {
    hide Handle, Steps;
    FlippedOnce();
    FlippedBack();
    StepsTwo(Flipping, WithTwo(2, 1, CancelPending, CancelPending, 0, 2, 6), Asked(1, 7), Asked(2, 8),
             WithTwo(2, 1, Canceled, CancelPending, 1, 2, 7));
  }

  lemma NotAtRest()
    ensures !Rests(Flipping, WithTwo(2, 1, CancelPending, CancelPending, 0, 2, 6), 2, 2, 2, 6)
  {
    var core := WithTwo(2, 1, CancelPending, CancelPending, 0, 2, 6);
    hide EventsUpTo;
    assert Requests(core.commands[0]);
    assert Reached(core, 1, 2, 2, 6).workflow == Some(Coroutines([0]));
    assert !AtRest(Flipping, Reached(core, 1, 2, 2, 6));
  }

  /** A run that is replayed exactly although it does not rest: the second continuation undoes the first. */
  lemma ContinuationsCancelOut()
    ensures
      var first := Work(Flipping, NewExecutor(Parent, 0), false, FirstTask, 1, 1, NoLimit);
      first.Executed? &&
      var second := Work(Flipping, first.executor, false, CancelTask, 2, 2, NoLimit);
      && second.Executed? && !Restful(Flipping, first.executor, CancelTask, 2, 2)
      && Steps(Flipping, first.executor.core.(source := 2), second.result.executed) == Ok(second.executor.core)
  {
    hide Steps, Work, LiveTask, Rests, Asked;
    FlippingTasks();
    NotAtRest();
    FlippingCancels();
    FlippedTwice();
    StepsAppend(Flipping, WithTwo(2, 1, Committed, Committed, 0, 1, 4), [StartOf(2, 2, 5), CancelAsked.(sequenceID := 6)],
                [Asked(1, 7), Asked(2, 8)]);
    assert [StartOf(2, 2, 5), CancelAsked.(sequenceID := 6)] + [Asked(1, 7), Asked(2, 8)] ==
           [StartOf(2, 2, 5), CancelAsked.(sequenceID := 6), Asked(1, 7), Asked(2, 8)];
  }

  // ---------- a sub-workflow result and a cancellation in one task ----------

  const CrashTask := Task(Parent, Active, "", [CancelAsked, ChildFailed], 3)

  lemma FailedCrashes()
    ensures Handle(Meddling, WithChild(2, 1, CancelPending, 2, 6), ChildFailed.(sequenceID := 6)) == Panic
  {
  }

  /** A run in which it does: the workflow is canceled, and its sub-workflow fails before the next task is fetched. */
  lemma CancelMeetsResult()
    ensures
      var first := Work(Meddling, NewExecutor(Parent, 0), false, FirstTask, 1, 1, NoLimit);
      first.Executed? && Work(Meddling, first.executor, false, CrashTask, 2, 2, NoLimit) == ProcessCrash
  {
    hide Handle, Steps, ExecuteFrom, ChildEvent;
    TwoTasks();
    FailedCrashes();
    var x := Executor(WithChild(1, 1, Committed, 1, 3), 3);
    var start, canceled := WithChild(2, 1, Committed, 1, 3), WithChild(2, 1, CancelPending, 2, 5);
    var es := [StartOf(2, 2, 4), CancelAsked.(sequenceID := 5)];
    var failed := ChildFailed.(sequenceID := 6);
    Cancels(2, 2, 1, 2);
    StepsOne(Meddling, canceled, failed);
    StepsAppend(Meddling, start, es, [failed]);
    assert Number(ToExecute(CrashTask, 2, 2), 3) == es + [failed];
    LiveBySteps(Meddling, x, CrashTask, 2, 2);
  }

  // ---------- an executor kept after its completion was rejected ----------

  /** A workflow that remembers when it was started, and tells an activity on every signal. */
  const Dated := Program(
    Coroutines([]),
    _ => true,
    (c: Coroutines, s: Stimulus, v: View) =>
      if s.Start? then Turn(Coroutines([v.time]), [], None)
      else Turn(c, if s.Signaled? && c.memory != [] then [ScheduleActivity("", [], c.memory[0], "", "")] else [], None),
    StillRunning,
    (_, _) => true)

  function Remembering(source: nat, began: Time, now: Time, length: int): Core {
    Core(Parent, source, 1, [], map[], Some(Coroutines([began])), "", now, length)
  }

  lemma DatedBegins(source: nat, drawer: nat, now: Time)
    ensures Steps(Dated, NewCore(Parent, source), [StartOf(now, drawer, 1), Begun.(sequenceID := 2)]) ==
            Ok(Remembering(source, now, now, 2))
  {
    var middle := NewCore(Parent, source).(historyLength := 1, time := now);
    StepsTwo(Dated, NewCore(Parent, source), StartOf(now, drawer, 1), Begun.(sequenceID := 2), middle);
  }

  lemma DatedSignaled(source: nat, began: Time, before: Time, now: Time)
    ensures Steps(Dated, Remembering(source, began, before, 2), [StartOf(now, source, 3), Signal.(sequenceID := 4)]) ==
            Ok(Operate(Remembering(source, began, now, 4), ScheduleActivity("", [], began, "", "")))
  {
    var start, op := Remembering(source, began, before, 2), ScheduleActivity("", [], began, "", "");
    var middle := Remembering(source, began, now, 3);
    StepsTwo(Dated, start, StartOf(now, source, 3), Signal.(sequenceID := 4), middle);
    assert OperateAll(Remembering(source, began, now, 4), [op]) == Operate(Remembering(source, began, now, 4), op);
  }

  /** The first task of this workflow, executed at some time. */
  lemma DatedFirst(now: Time, source: nat)
    ensures
      var w := Work(Dated, NewExecutor(Parent, 0), false, FirstTask, now, source, NoLimit);
      && w.Executed? && w.executor == Executor(Remembering(source, now, now, 2), 2)
      && w.result.executed == [StartOf(now, source, 1), Begun.(sequenceID := 2)]
  {
    hide Steps;
    DatedBegins(source, source, now);
    OneEventTask(Dated, NewExecutor(Parent, 0), FirstTask, now, source, Remembering(source, now, now, 2));
    assert Collect([], now, source) == NoResult;
  }

  const SecondTask := Task(Parent, Active, "", [Signal], 2)

  lemma DatedSecond(began: Time, before: Time, now: Time, source: nat, drawn: nat)
    ensures
      var w := Work(Dated, Executor(Remembering(drawn, began, before, 2), 2), false, SecondTask, now, source, NoLimit);
      && w.Executed? && |w.result.activityEvents| == 1
      && w.result.activityEvents[0].attributes == ActivityScheduled("", "", [], began)
  {
    hide Steps;
    var live := Operate(Remembering(source, began, now, 4), ScheduleActivity("", [], began, "", ""));
    DatedSignaled(source, began, before, now);
    OneEventTask(Dated, Executor(Remembering(drawn, began, before, 2), 2), SecondTask, now, source, live);
    CollectOne(live.commands[0], now, source);
  }

  /**
    A run in which it is not refused and goes wrong: a worker executes the first task at one time and
    loses its lease, another executes it at another time and completes it. The kept executor
    then completes the second task as the recorded history never would.
   */
  lemma KeptExecutorDiverges(one: Time, other: Time, now: Time, source: nat, replaySource: nat)
    ensures
      var rejected := Work(Dated, NewExecutor(Parent, 0), false, FirstTask, one, 1, NoLimit);
      var recorded := Work(Dated, NewExecutor(Parent, 0), false, FirstTask, other, 2, NoLimit);
      rejected.Executed? && recorded.Executed? &&
      var h := recorded.result.executed;
      match (ExecuteTask(Dated, rejected.executor, SecondTask, h, now, source, replaySource, NoLimit),
             ExecuteTask(Dated, NewExecutor(Parent, replaySource), SecondTask, h, now, source, replaySource, NoLimit))
      case (Executed(_, r), Executed(_, q)) =>
        |r.activityEvents| == |q.activityEvents| == 1 &&
        r.activityEvents[0].attributes == ActivityScheduled("", "", [], one) &&
        q.activityEvents[0].attributes == ActivityScheduled("", "", [], other)
      case _ => false
  {
    hide Work, Steps;
    DatedFirst(one, 1);
    DatedFirst(other, 2);
    var h := [StartOf(other, 2, 1), Begun.(sequenceID := 2)];
    DatedBegins(replaySource, 2, other);
    ReplayIsSteps(Dated, NewExecutor(Parent, replaySource), h);
    EventsAfterPrefix(h, 0, 0);
    DatedSecond(one, one, now, source, 1);
    DatedSecond(other, other, now, source, replaySource);
  }

  // ---------- the history limit ----------

  /** A workflow that returns at once. */
  const Instant := Program(
    Coroutines([]), _ => true, (c, s, v) => Turn(c, [], None), _ => Some(Returned("", None)), (_, _) => true)

  /** With a limit of two events, its first task records the end of the execution twice. */
  lemma LimitEndsTwice(now: Time)
    ensures
      var self := Instance(Chosen("a"), Chosen("1"), None, 0);
      var t := Task(self, Active, "", [NewPendingEvent(Chosen("e"), now, 0, ExecutionStarted("", "", []))], 0);
      var w := Work(Instant, NewExecutor(self, 0), false, t, now, 1, 2);
      w.Executed? && Terminals(w.result.executed) == 2
  {
    var self := Instance(Chosen("a"), Chosen("1"), None, 0);
    var started := NewPendingEvent(Chosen("e"), now, 0, ExecutionStarted("", "", []));
    var t := Task(self, Active, "", [started], 0);
    var x := NewExecutor(self, 0);
    var events := ToExecute(t, now, 1);
    var core := x.core.(source := 1);
    var first := Handle(Instant, core.(historyLength := 1), events[0]).core;
    var second := Handle(Instant, first.(historyLength := 2), events[1]);
    assert second.Ok?;
    assert ExecuteFrom(Instant, second.core, 0, events, 2) == AllExecuted(second.core);
    assert ExecuteFrom(Instant, first, 0, events, 1) == AllExecuted(second.core);
    NewExecutorAgrees(Instant, self, 0);
    EndRecorded(Instant, self, [], x, t, now, 1, 2);
  }
}
