/**
  The workflow state and the executor as objects (internal/workflowstate, workflow/executor): every method does to
  the fields what the functions of module Execution do to the value of the object.
 */
module Executors {
  import opened Basics
  import opened History
  import opened Commands
  import opened CommandObjects
  import opened Execution
  import opened Tidiness

  /** What canceling does, command by command. */
  lemma CancelMeans(core: Execution.Core, id: int)
    requires Indexed(core)
    ensures
      var next := CancelOperation(core, id);
      if !(1 <= id <= |core.commands|) || !core.commands[id - 1].armed then next == core
      else
        var c := core.commands[id - 1];
        var canceled := (if c.Cancel().Some? then c.Cancel().value else c).(armed := false);
        var released := c.Cancel().Some? && (c.action.Timer? || canceled.state == Canceled);
        next == core.(commands := core.commands[id - 1 := canceled],
                      pendingFutures := if released then core.pendingFutures - {id} else core.pendingFutures)
  {
  }

  lemma CollectNext(cs: seq<Command>, i: nat, now: Time, source: nat)
    requires i < |cs|
    ensures Collect(cs[..i + 1], now, source) == Collect(cs[..i], now, source).Then(cs[i].Execute(now, source))
  {
    hide Commands.Command.Execute;
    assert cs[..i + 1][..i] == cs[..i];
  }

  lemma CollectNothing(cs: seq<Command>, now: Time, source: nat)
    ensures cs[..0] == [] && Collect([], now, source) == NoResult
  {
  }

  lemma DoneIsSilent(c: Command, now: Time, source: nat)
    requires c.state == CommandState.Done
    ensures c.Execute(now, source) == NoResult && c.Executed() == c
  {
  }

  lemma FindMeans(core: Execution.Core, id: int)
    requires Indexed(core)
    ensures core.Find(id) == if 1 <= id <= |core.commands| then Some(core.commands[id - 1]) else None
  {
  }

  /** What remains of handling a result once its future is settled. */
  function Settling(p: Program, core: Execution.Core, id: int, outcome: Outcome, expected: Expectation): Handled {
    match core.Find(id)
    case None => Err(core, CommandNotFound)
    case Some(c) =>
      if !expected.Meets(c) then Err(core, UnexpectedCommand) else
      match c.Settle()
      case None => Panic
      case Some(settled) => Execution.Resume(p, core.Put(settled), Resolved(id, outcome))
  }

  /** A generated id for the command with this schedule id. */
  predicate DrawnFor(name: Name, id: nat) {
    name.Drawn? && name.number == id
  }

  class WorkflowState {
    const instance: Instance
    var source: nat
    var scheduleEventID: nat
    var commands: seq<CommandObject>
    var commandIndex: map<int, CommandObject>
    var pendingFutures: map<int, string>
    var time: Time
    var historyLength: int
    ghost var values: seq<Command>
    ghost var Repr: set<object>

    /** Commands are listed and indexed by schedule id; `values` are their values. */
    ghost predicate Valid()
      reads this, Repr
    {
      ValidExcept(-1)
    }

    /** The value at position `k` may be out of date. */
    ghost predicate ValidExcept(k: int)
      reads this, Repr
    {
      && this !in Repr
      && scheduleEventID == |commands| + 1 && |values| == |commands|
      && (forall i :: 0 <= i < |commands| ==>
            commands[i] in Repr && commands[i].id == i + 1 && values[i].id == i + 1 &&
            (i != k ==> commands[i].Value() == values[i]))
      && (forall id :: id in commandIndex <==> 1 <= id <= |commands|)
      && (forall id :: id in commandIndex ==> commandIndex[id] == commands[id - 1])
    }

    /** The state together with the workflow's coroutines. */
    ghost function Core(workflow: Option<Coroutines>, name: string): Execution.Core
      reads this
    {
      Execution.Core(instance, source, scheduleEventID, values, pendingFutures, workflow, name, time, historyLength)
    }

    constructor (instance: Instance, source: nat)
      ensures Valid() && Repr == {} && Core(None, "") == NewCore(instance, source)
    {
      this.instance, this.source := instance, source;
      scheduleEventID, commands, commandIndex, pendingFutures, time, historyLength := 1, [], map[], map[], 0, 0;
      values, Repr := [], {};
    }

    lemma AreIndexed(workflow: Option<Coroutines>, name: string)
      requires Valid()
      ensures Indexed(Core(workflow, name)) && |values| == |commands|
    {
    }

    /** Notes that a command was changed. */
    ghost method Note(k: nat, workflow: Option<Coroutines>, name: string)
      requires ValidExcept(k) && k < |commands|
      modifies this`values
      ensures Valid() && Core(workflow, name) == old(Core(workflow, name)).Put(commands[k].Value())
      ensures values == old(values)[k := commands[k].Value()]
    {
      values := values[k := commands[k].Value()];
    }

    /** `ok` is false if the transition is invalid, which panics. */
    ghost predicate Moved(ok: bool, next: Option<Command>, before: Execution.Core, after: Execution.Core)
      requires next.Some? ==> 1 <= next.value.id <= |before.commands|
    {
      (ok <==> next.Some?) && after == if ok then before.Put(next.value) else before
    }

    method Done(c: CommandObject, ghost workflow: Option<Coroutines>, ghost name: string) returns (ok: bool)
      requires Valid() && 1 <= c.id <= |commands| && c == commands[c.id - 1]
      modifies this`values, c
      ensures Valid() && Moved(ok, old(c.Value()).Settle(), old(Core(workflow, name)), Core(workflow, name))
    {
      hide Commands.Command.Settle;
      ok := c.Done();
      Note(c.id - 1, workflow, name);
    }

    method HandleCancel(c: CommandObject, ghost workflow: Option<Coroutines>, ghost name: string) returns (ok: bool)
      requires Valid() && 1 <= c.id <= |commands| && c == commands[c.id - 1]
      modifies this`values, c
      ensures old(c.Value()).HandleCancel().Some? ==> old(c.Value()).HandleCancel().value.id == c.id
      ensures Valid() && Moved(ok, old(c.Value()).HandleCancel(), old(Core(workflow, name)), Core(workflow, name))
    {
      ok := c.HandleCancel();
      Note(c.id - 1, workflow, name);
    }

    method Commit(c: CommandObject, recorded: Option<Instance>, ghost workflow: Option<Coroutines>, ghost name: string)
      returns (ok: bool)
      requires Valid() && 1 <= c.id <= |commands| && c == commands[c.id - 1] && (recorded.Some? ==> c.action.SubWorkflow?)
      modifies this`values, c
      ensures Valid()
      ensures
        var next := Recorded(old(c.Value()), recorded).Commit();
        ok == next.Some? && (ok ==> Core(workflow, name) == old(Core(workflow, name)).Put(next.value))
    {
      hide Commands.Command.Commit;
      if recorded.Some? {
        c.action := SubWorkflow(c.action.queue, recorded.value, c.action.name, c.action.inputs);
      }
      ok := c.Commit();
      Note(c.id - 1, workflow, name);
    }

    /** Cancels a command from its cancel callback, which is then gone. */
    method Cancel(c: CommandObject, ghost workflow: Option<Coroutines>, ghost name: string) returns (ok: bool)
      requires Valid() && 1 <= c.id <= |commands| && c == commands[c.id - 1]
      modifies this`values, c
      ensures Valid() && c.action == old(c.action)
      ensures
        var canceled := old(c.Value()).Cancel();
        && (ok <==> canceled.Some?)
        && c.Value() == (if ok then canceled.value else old(c.Value())).(armed := false)
        && values == old(values)[c.id - 1 := c.Value()]
    {
      hide Commands.Command.Cancel;
      ok := c.Cancel();
      c.armed := false;
      Note(c.id - 1, workflow, name);
    }

    method RemoveFuture(id: int, ghost workflow: Option<Coroutines>, ghost name: string)
      requires Valid()
      modifies this`pendingFutures
      ensures Valid() && Core(workflow, name) == old(Core(workflow, name)).Untrack(id)
    {
      pendingFutures := pendingFutures - {id};
    }

    /** From now on, new ids come from `source`. */
    method DrawFrom(source: nat, ghost workflow: Option<Coroutines>, ghost name: string)
      requires Valid()
      modifies this`source
      ensures Valid() && Core(workflow, name) == old(Core(workflow, name)).(source := source)
    {
      this.source := source;
    }

    method GetNextScheduleEventID() returns (id: nat)
      modifies this`scheduleEventID
      ensures id == old(scheduleEventID) && scheduleEventID == id + 1
    {
      id := scheduleEventID;
      scheduleEventID := scheduleEventID + 1;
    }

    method AddCommand(c: CommandObject)
      modifies this`commands, this`commandIndex, this`values, this`Repr
      ensures commands == old(commands) + [c] && commandIndex == old(commandIndex)[c.id := c]
      ensures values == old(values) + [c.Value()] && Repr == old(Repr) + {c}
    {
      commands := commands + [c];
      commandIndex := commandIndex[c.id := c];
      values, Repr := values + [c.Value()], Repr + {c};
    }

    method CommandByScheduleEventID(id: int) returns (c: CommandObject?)
      requires Valid()
      ensures if 1 <= id <= |commands|
              then c == commands[id - 1] && c.Value() == values[id - 1] && c in Repr && c.id == id else c == null
      ensures |values| == |commands| && this !in Repr
    {
      c := if id in commandIndex then commandIndex[id] else null;
    }

    /** Adds a command for the next schedule id. */
    method Schedule(action: Action, armed: bool, ghost workflow: Option<Coroutines>, ghost name: string)
      returns (id: nat)
      requires Valid()
      modifies this
      ensures Valid() && fresh(Repr - old(Repr)) && id == old(scheduleEventID)
      ensures Core(workflow, name) == old(Core(workflow, name)).Add(action, armed)
    {
      id := GetNextScheduleEventID();
      var c := new CommandObject(id, action, armed);
      AddCommand(c);
    }

    /** The cancel callback of an operation, if it is still registered. */
    method CancelOperation(id: int, ghost workflow: Option<Coroutines>, ghost name: string)
      requires Valid()
      modifies this`pendingFutures, this`values, Repr
      ensures Valid() && Core(workflow, name) == Execution.CancelOperation(old(Core(workflow, name)), id)
    {
      hide Execution.CancelOperation, Commands.Command.Cancel, Valid;
      AreIndexed(workflow, name);
      CancelMeans(Core(workflow, name), id);
      var c := CommandByScheduleEventID(id);
      if c != null && c.armed {
        var ok := Cancel(c, workflow, name);
        if ok && (c.action.Timer? || c.state == Canceled) {
          RemoveFuture(id, workflow, name);
        }
      }
    }

    /** What an operation of workflow code does. */
    method Operate(op: Operation, ghost workflow: Option<Coroutines>, ghost name: string)
      requires Valid()
      modifies this, Repr
      ensures Valid() && fresh(Repr - old(Repr))
      ensures Core(workflow, name) == Execution.Operate(old(Core(workflow, name)), op)
    {
      hide Execution.CancelOperation;
      match op {
        case ScheduleActivity(activity, inputs, attempt, queue, resultType) =>
          var id := Schedule(Activity(activity, inputs, attempt, queue), false, workflow, name);
          pendingFutures := pendingFutures[id := resultType];
        case ScheduleTimer(delay, timer) =>
          var id := Schedule(Timer(time + delay, timer), true, workflow, name);
          pendingFutures := pendingFutures[id := ""];
        case ScheduleSubWorkflow(queue, chosen, sub, inputs, resultType) =>
          var child := NewSubInstance(chosen, workflow, name);
          var id := Schedule(SubWorkflow(queue, child, sub, inputs), true, workflow, name);
          pendingFutures := pendingFutures[id := resultType];
        case CloseDone(id) =>
          CancelOperation(id, workflow, name);
      }
    }

    /**
      The instance of a sub-workflow that is about to be scheduled: it points back to this workflow and
      to the command to come, has the chosen id or a generated one, and an execution id of its own.
     */
    method NewSubInstance(chosen: string, ghost workflow: Option<Coroutines>, ghost name: string)
      returns (child: Instance)
      requires Valid()
      ensures child == SubInstance(Core(workflow, name), chosen)
      ensures child.parent == Some(instance) && child.parentEventID == scheduleEventID
      ensures if chosen == "" then child.instanceID.Drawn? else child.instanceID == Chosen(chosen)
      ensures forall c :: c in values && c.action.SubWorkflow? && DrawnFor(c.action.instance.executionID, c.id) ==>
                c.action.instance.executionID != child.executionID
      ensures forall c :: c in values && c.action.SubWorkflow? && DrawnFor(c.action.instance.instanceID, c.id) ==>
                c.action.instance.instanceID != child.instanceID
    {
      var id := scheduleEventID;
      child := Instance(if chosen == "" then Drawn(source, ForInstance, id) else Chosen(chosen),
                        Drawn(source, ForExecution, id), Some(instance), id);
    }

    /** Turns the commands into events, each moving on; done commands are skipped. */
    method ExecuteCommands(now: Time, ghost workflow: Option<Coroutines>, ghost name: string) returns (r: CommandResult)
      requires Valid()
      modifies this`values, Repr
      ensures Valid() && r == Collect(old(values), now, source)
      ensures Core(workflow, name) == old(Core(workflow, name)).(commands := ExecutedAll(old(values)))
    {
      hide Commands.Command.Execute, Commands.Command.Executed, Valid, Collect;
      ghost var start := values;
      AreIndexed(workflow, name);
      r := NoResult;
      assert start[..0] == [] && Collect([], now, source) == NoResult by { CollectNothing(start, now, source); }
      for i := 0 to |commands|
        invariant Valid() && Repr == old(Repr) && source == old(source) && commands == old(commands)
        invariant Core(workflow, name) == old(Core(workflow, name)).(commands := values)
        invariant Halfway(start, i) && r == Collect(start[..i], now, source)
      {
        CollectNext(start, i, now, source);
        var x := ExecuteCommand(i, now);
        r := r.Then(x);
      }
      assert start[..|start|] == start && values == ExecutedAll(start);
    }

    /** The first `i` commands have been executed. */
    ghost predicate Halfway(start: seq<Command>, i: nat)
      reads this
    {
      && |values| == |start| == |commands|
      && forall j :: 0 <= j < |start| ==> values[j] == if j < i then start[j].Executed() else start[j]
    }

    method ExecuteCommand(i: nat, now: Time) returns (r: CommandResult)
      requires Valid() && i < |commands|
      modifies this`values, Repr
      ensures Valid() && Repr == old(Repr) && source == old(source) && commands == old(commands)
      ensures r == old(values)[i].Execute(now, source) && values == old(values)[i := old(values)[i].Executed()]
      ensures forall w, n :: Core(w, n) == old(Core(w, n)).(commands := values)
    {
      hide Commands.Command.Execute, Commands.Command.Executed;
      r := NoResult;
      if commands[i].state != CommandState.Done {
        r := commands[i].Execute(now, source);
        Note(i, None, "");
      } else {
        DoneIsSilent(values[i], now, source);
      }
    }

    /** What workflow code can see. */
    method Look(ghost workflow: Option<Coroutines>, ghost name: string) returns (view: View)
      requires Valid()
      ensures view == Core(workflow, name).Look()
    {
      var states: seq<CommandState> := [];
      for i := 0 to |commands|
        invariant |states| == i && forall j :: 0 <= j < i ==> states[j] == values[j].state
      {
        states := states + [commands[i].state];
      }
      view := View(instance, time, historyLength, pendingFutures, states);
      assert view.commandStates == Core(workflow, name).Look().commandStates;
    }
  }

  datatype Status = Fine | Erred(reason: Error) | Panicked

  /** The object did what the function says. */
  predicate Did(h: Handled, s: Status, core: Core) {
    match h
    case Ok(c) => s == Fine && core == c
    case Err(c, reason) => s == Erred(reason) && core == c
    case Panic => s == Panicked
  }

  class Executor {
    const state: WorkflowState
    var workflow: Option<Coroutines>
    var workflowName: string
    var lastSequenceID: int

    ghost predicate Valid()
      reads this, state, state.Repr
    {
      state.Valid() && this !in state.Repr
    }

    ghost function Core(): Execution.Core
      reads this, state
    {
      state.Core(workflow, workflowName)
    }

    ghost function Value(): Execution.Executor
      reads this, state
    {
      Execution.Executor(Core(), lastSequenceID)
    }

    constructor (instance: Instance, source: nat)
      ensures Valid() && fresh(state) && state.Repr == {} && Value() == NewExecutor(instance, source)
    {
      state := new WorkflowState(instance, source);
      workflow, workflowName, lastSequenceID := None, "", 0;
    }

    /** Runs the coroutines until they block. */
    method Run(p: Program, coroutines: Coroutines, stimulus: Stimulus) returns (s: Status)
      requires Valid()
      modifies this, state, state.Repr
      ensures Valid() && fresh(state.Repr - old(state.Repr)) && lastSequenceID == old(lastSequenceID)
      ensures Did(Execution.Run(p, old(Core()), coroutines, stimulus), s, Core())
    {
      hide Execution.Operate;
      var view := state.Look(workflow, workflowName);
      var turn := p.deliver(coroutines, stimulus, view);
      workflow := Some(turn.coroutines);
      ghost var start := Core();
      for i := 0 to |turn.operations|
        invariant Valid() && fresh(state.Repr - old(state.Repr))
        invariant lastSequenceID == old(lastSequenceID) && workflow == Some(turn.coroutines)
        invariant OperateAll(Core(), turn.operations[i..]) == OperateAll(start, turn.operations)
      {
        assert turn.operations[i..][0] == turn.operations[i] && turn.operations[i..][1..] == turn.operations[i + 1..];
        state.Operate(turn.operations[i], workflow, workflowName);
      }
      return if turn.error.Some? then Erred(turn.error.value) else Fine;
    }

    method Resume(p: Program, stimulus: Stimulus) returns (s: Status)
      requires Valid()
      modifies this, state, state.Repr
      ensures Valid() && fresh(state.Repr - old(state.Repr)) && lastSequenceID == old(lastSequenceID)
      ensures Did(Execution.Resume(p, old(Core()), stimulus), s, Core())
    {
      hide Execution.Run;
      if workflow.None? {
        return Panicked;
      }
      s := Run(p, workflow.value, stimulus);
    }

    // ---------- event handlers ----------

    /** A result arrives: resolve and remove the future, settle the command, go on. */
    method HandleResult(p: Program, id: int, outcome: Outcome, expected: Expectation) returns (s: Status)
      requires Valid()
      modifies this, state, state.Repr
      ensures Valid() && fresh(state.Repr - old(state.Repr)) && lastSequenceID == old(lastSequenceID)
      ensures Did(Execution.HandleResult(p, old(Core()), id, outcome, expected), s, Core())
    {
      hide Execution.Resume, Commands.Command.Settle, WorkflowState.Valid, Execution.Core.Find, Execution.Core.Put,
           Expectation.Meets;
      if id !in state.pendingFutures {
        return Erred(NoPendingFuture);
      }
      if outcome.Value? && outcome.payload.Some? && !p.decodes(state.pendingFutures[id], outcome.payload.value) {
        return Erred(DecodingFailed);
      }
      state.RemoveFuture(id, workflow, workflowName);
      s := SettleCommand(p, id, outcome, expected);
    }

    /** The command of a result is done. */
    method SettleCommand(p: Program, id: int, outcome: Outcome, expected: Expectation) returns (s: Status)
      requires Valid()
      modifies this, state, state.Repr
      ensures Valid() && fresh(state.Repr - old(state.Repr)) && lastSequenceID == old(lastSequenceID)
      ensures Did(Settling(p, old(Core()), id, outcome, expected), s, Core())
    {
      hide Execution.Resume, Commands.Command.Settle, WorkflowState.Valid, Execution.Core.Find, Execution.Core.Put,
           Expectation.Meets;
      state.AreIndexed(workflow, workflowName);
      FindMeans(Core(), id);
      var c := state.CommandByScheduleEventID(id);
      if c == null {
        return Erred(CommandNotFound);
      }
      var meets := Meets(expected, c);
      if !meets {
        return Erred(UnexpectedCommand);
      }
      var ok := state.Done(c, workflow, workflowName);
      if !ok {
        return Panicked;
      }
      s := Resume(p, Resolved(id, outcome));
    }

    /** Checks the type of a command, and its name if one was recorded. */
    method Meets(expected: Expectation, c: CommandObject) returns (meets: bool)
      ensures meets == expected.Meets(c.Value())
    {
      match expected {
        case AnActivity => return c.action.Activity?;
        case ATimer => return c.action.Timer?;
        case ASubWorkflow => return c.action.SubWorkflow?;
        case ActivityNamed(name) => return c.action.Activity? && c.action.name == name;
        case SubWorkflowNamed(name) => return c.action.SubWorkflow? && c.action.name == name;
      }
    }

    /** A recorded decision is replayed: the same command must exist, and is committed. */
    method HandleScheduled(id: int, expected: Expectation, recorded: Option<Instance>) returns (s: Status)
      requires Valid() && (recorded.Some? ==> expected.SubWorkflowNamed?)
      modifies this, state, state.Repr
      ensures Valid() && state.Repr == old(state.Repr) && lastSequenceID == old(lastSequenceID)
      ensures Did(Execution.HandleScheduled(old(Core()), id, expected, recorded), s, Core())
    {
      hide Commands.Command.Commit, WorkflowState.Valid, Execution.Core.Find, Execution.Core.Put;
      state.AreIndexed(workflow, workflowName);
      FindMeans(Core(), id);
      var c := state.CommandByScheduleEventID(id);
      if c == null {
        return Erred(CommandNotFound);
      }
      var meets := Meets(expected, c);
      if !meets {
        return Erred(UnexpectedCommand);
      }
      var ok := state.Commit(c, recorded, workflow, workflowName);
      if !ok {
        return Panicked;
      }
      return Fine;
    }

    method HandleTimerFired(p: Program, id: int) returns (s: Status)
      requires Valid()
      modifies this, state, state.Repr
      ensures Valid() && fresh(state.Repr - old(state.Repr)) && lastSequenceID == old(lastSequenceID)
      ensures Did(Execution.HandleTimerFired(p, old(Core()), id), s, Core())
    {
      hide Execution.HandleResult;
      if id !in state.pendingFutures {
        return Fine;  // already canceled
      }
      s := HandleResult(p, id, Outcome.Value(None), ATimer);
    }

    method HandleTimerCanceled(p: Program, id: int) returns (s: Status)
      requires Valid()
      modifies this, state, state.Repr
      ensures Valid() && fresh(state.Repr - old(state.Repr)) && lastSequenceID == old(lastSequenceID)
      ensures Did(Execution.HandleTimerCanceled(p, old(Core()), id), s, Core())
    {
      hide Execution.Resume, Commands.Command.HandleCancel, WorkflowState.Valid, Execution.Core.Find,
           Execution.Core.Put;
      state.AreIndexed(workflow, workflowName);
      FindMeans(Core(), id);
      var c := state.CommandByScheduleEventID(id);
      if c == null {
        return Erred(CommandNotFound);
      }
      if !c.action.Timer? {
        return Erred(UnexpectedCommand);
      }
      var ok := state.HandleCancel(c, workflow, workflowName);
      if !ok {
        return Panicked;
      }
      if id !in state.pendingFutures {
        return Fine;
      }
      state.RemoveFuture(id, workflow, workflowName);
      s := Resume(p, Resolved(id, Failure(ContextCanceled)));
    }

    method HandleSubWorkflowCancellation(p: Program, id: int) returns (s: Status)
      requires Valid()
      modifies this, state, state.Repr
      ensures Valid() && fresh(state.Repr - old(state.Repr)) && lastSequenceID == old(lastSequenceID)
      ensures Did(Execution.HandleSubWorkflowCancellation(p, old(Core()), id), s, Core())
    {
      hide Execution.Resume, Commands.Command.HandleCancel, WorkflowState.Valid, Execution.Core.Find,
           Execution.Core.Put;
      state.AreIndexed(workflow, workflowName);
      FindMeans(Core(), id);
      var c := state.CommandByScheduleEventID(id);
      if c == null {
        return Erred(CommandNotFound);
      }
      if !c.action.SubWorkflow? {
        return Erred(UnexpectedCommand);
      }
      var ok := state.HandleCancel(c, workflow, workflowName);
      if !ok {
        return Panicked;
      }
      s := Resume(p, Stimulus.Continue);
    }

    method HandleExecutionStarted(p: Program, name: string, inputs: seq<Payload>) returns (s: Status)
      requires Valid()
      modifies this, state, state.Repr
      ensures Valid() && fresh(state.Repr - old(state.Repr)) && lastSequenceID == old(lastSequenceID)
      ensures Did(Execution.HandleExecutionStarted(p, old(Core()), name, inputs), s, Core())
    {
      hide Execution.Run;
      workflowName := name;
      if !p.registered(name) {
        return Erred(WorkflowNotFound);
      }
      s := Run(p, p.blank, Start(name, inputs));
    }

    /** Executes one event. */
    method ExecuteEvent(p: Program, e: Event) returns (s: Status)
      requires Valid()
      modifies this, state, state.Repr
      ensures Valid() && fresh(state.Repr - old(state.Repr)) && lastSequenceID == old(lastSequenceID)
      ensures Did(Handle(p, old(Core()), e), s, Core())
    {
      hide Execution.Run, Execution.Resume, Execution.HandleResult, Execution.HandleScheduled,
           Execution.HandleTimerFired,
           Execution.HandleTimerCanceled, Execution.HandleSubWorkflowCancellation, Execution.HandleExecutionStarted;
      var id := e.scheduleEventID;
      match e.attributes {
        case ExecutionStarted(_, name, inputs) => s := HandleExecutionStarted(p, name, inputs);
        case ExecutionFinished(_, _) => s := Fine;
        case ExecutionContinuedAsNew(_, _) => s := Fine;
        case ExecutionTerminated => s := Erred(UnknownEventType);
        case ExecutionCanceled => s := Resume(p, Canceling);
        case TaskStarted =>
          state.time := e.timestamp;
          s := Fine;
        case SubWorkflowScheduled(instance, name, _) => s := HandleScheduled(id, SubWorkflowNamed(name), Some(instance));
        case SubWorkflowCancellationRequested(_) => s := HandleSubWorkflowCancellation(p, id);
        case SubWorkflowCompleted(result) => s := HandleResult(p, id, Outcome.Value(Some(result)), ASubWorkflow);
        case SubWorkflowFailed(reason) => s := HandleResult(p, id, Failure(reason), ASubWorkflow);
        case ActivityScheduled(_, name, _, _) => s := HandleScheduled(id, ActivityNamed(name), None);
        case ActivityCompleted(result) => s := HandleResult(p, id, Outcome.Value(Some(result)), AnActivity);
        case ActivityFailed(reason) => s := HandleResult(p, id, Failure(reason), AnActivity);
        case TimerScheduled(_, _) => s := HandleScheduled(id, ATimer, None);
        case TimerFired(_, _, _) => s := HandleTimerFired(p, id);
        case TimerCanceled => s := HandleTimerCanceled(p, id);
        case SignalReceived(name, arg) => s := Resume(p, Signaled(name, arg));
      }
    }

    // ---------- tasks ----------

    /** Replays recorded events, one by one. */
    method ReplayHistory(p: Program, events: seq<Event>) returns (s: Status)
      requires Valid()
      modifies this, state, state.Repr
      ensures Valid() && fresh(state.Repr - old(state.Repr))
      ensures match Replay(p, old(Value()), events)
              case Caught(x) => s == Fine && Value() == x
              case Failed(x, reason) => s == Erred(reason) && Value() == x
              case Crash => s == Panicked
    {
      hide Handle;
      ghost var start := Value();
      for i := 0 to |events|
        invariant Valid() && fresh(state.Repr - old(state.Repr))
        invariant Replay(p, Value(), events[i..]) == Replay(p, start, events)
      {
        assert events[i..][0] == events[i] && events[i..][1..] == events[i + 1..];
        if events[i].sequenceID < lastSequenceID {
          return Erred(OlderHistory);
        }
        state.historyLength := lastSequenceID + 1;
        s := ExecuteEvent(p, events[i]);
        if s != Fine {
          return;
        }
        lastSequenceID := events[i].sequenceID;
      }
      return Fine;
    }

    method WorkflowCompleted(result: Payload, error: Option<Error>)
      requires Valid()
      modifies this, state, state.Repr
      ensures Valid() && fresh(state.Repr - old(state.Repr)) && lastSequenceID == old(lastSequenceID)
      ensures Core() == CompleteWorkflow(old(Core()), result, error)
    {
      var id := state.Schedule(Complete(state.instance, result, error), false, workflow, workflowName);
    }

    method WorkflowRestarted(result: Payload, inputs: seq<Payload>)
      requires Valid()
      modifies this, state, state.Repr
      ensures Valid() && fresh(state.Repr - old(state.Repr)) && lastSequenceID == old(lastSequenceID)
      ensures Core() == RestartWorkflow(old(Core()), result, inputs)
    {
      var continued := Drawn(state.source, ForExecution, state.scheduleEventID);
      var id := state.Schedule(Action.ContinueAsNew(state.instance, workflowName, inputs, result, continued), false,
                               workflow, workflowName);
    }

    /** Executes the new events; an error leaves the rest unexecuted. */
    method ExecuteNewEvents(p: Program, newEvents: seq<Event>) returns (executed: seq<Event>, s: Status)
      requires Valid()
      modifies this, state, state.Repr
      ensures Valid() && fresh(state.Repr - old(state.Repr)) && lastSequenceID == old(lastSequenceID)
      ensures match ExecuteFrom(p, old(Core()), lastSequenceID, newEvents, 0)
              case Crashed => s == Panicked
              case Stopped(c, n, reason) => s == Erred(reason) && Core() == c && executed == newEvents[..n]
              case AllExecuted(c) => executed == newEvents && Did(Conclude(p, c), s, Core())
    {
      hide Handle;
      ghost var start := Core();
      for i := 0 to |newEvents|
        invariant Valid() && fresh(state.Repr - old(state.Repr)) && lastSequenceID == old(lastSequenceID)
        invariant ExecuteFrom(p, Core(), lastSequenceID, newEvents, i) == ExecuteFrom(p, start, lastSequenceID, newEvents, 0)
      {
        state.historyLength := lastSequenceID + i + 1;
        s := ExecuteEvent(p, newEvents[i]);
        if s != Fine {
          return newEvents[..i], s;
        }
      }
      executed := newEvents;
      s := Concluded(p);
    }

    /** Adds the final command if no coroutine is left. */
    method Concluded(p: Program) returns (s: Status)
      requires Valid()
      modifies this, state, state.Repr
      ensures Valid() && fresh(state.Repr - old(state.Repr)) && lastSequenceID == old(lastSequenceID)
      ensures Did(Conclude(p, old(Core())), s, Core())
    {
      if workflow.None? {
        return Panicked;
      }
      match p.completion(workflow.value) {
        case None =>
        case Some(completion) =>
          if state.pendingFutures != map[] {
            return Erred(FuturesStillPending);
          }
          match completion {
            case Returned(result, error) => WorkflowCompleted(result, error);
            case Restart(result, inputs) => WorkflowRestarted(result, inputs);
          }
      }
      return Fine;
    }

    /** Brings the executor to the task's sequence id. `skip` says that replay failed and the workflow with it. */
    method CatchupOnHistory(p: Program, t: Task, history: seq<Event>, source: nat) returns (skip: bool, s: Status)
      requires Valid()
      modifies this, state, state.Repr
      ensures Valid() && fresh(state.Repr - old(state.Repr))
      ensures match CatchUp(p, old(Value()), t, history, source)
              case Ready(x, skipped) => s == Fine && skip == skipped && Value() == x
              case Behind(x, reason) => s == Erred(reason) && Value() == x
              case CatchUpCrash => s == Panicked
    {
      hide Replay;
      skip := false;
      if t.lastSequenceID < lastSequenceID {
        return false, Erred(OlderHistory);
      }
      if t.lastSequenceID > lastSequenceID {
        state.source := source;
        s := ReplayHistory(p, EventsAfter(history, lastSequenceID));
        if s.Panicked? {
          return;
        }
        if s.Erred? {
          WorkflowCompleted("", Some(s.reason));
          lastSequenceID := t.lastSequenceID;
          return true, Fine;
        }
        if t.lastSequenceID != lastSequenceID {
          return false, Erred(HistoryMismatch);
        }
      }
      return false, Fine;
    }

    /** Gives consecutive sequence ids to everything executed. */
    method AssignSequenceIDs(events: seq<Event>) returns (numbered: seq<Event>)
      modifies this`lastSequenceID
      ensures numbered == Number(events, old(lastSequenceID)) && lastSequenceID == old(lastSequenceID) + |events|
    {
      numbered := [];
      for i := 0 to |events|
        invariant |numbered| == i && lastSequenceID == old(lastSequenceID) + i
        invariant forall j :: 0 <= j < i ==> numbered[j] == events[j].(sequenceID := old(lastSequenceID) + j + 1)
      {
        lastSequenceID := lastSequenceID + 1;
        numbered := numbered + [events[i].(sequenceID := lastSequenceID)];
      }
    }

    /** The events of a task; false is a crash of the process. */
    method ExecuteBatch(p: Program, t: Task, skip: bool, now: Time) returns (ok: bool, executed: seq<Event>)
      requires Valid()
      modifies this, state, state.Repr
      ensures Valid() && fresh(state.Repr - old(state.Repr)) && lastSequenceID == old(lastSequenceID)
      ensures
        var toExecute := ToExecute(t, now, old(state.source));
        match (if skip then Batch(old(Core()), toExecute[..1]) else Execution.ExecuteNewEvents(p, old(Value()), toExecute))
        case Batch(core, es) => ok && Core() == core && executed == es
        case BatchCrash => !ok
    {
      hide ExecuteFrom, Conclude;
      var toExecute := ToExecute(t, now, state.source);
      executed := toExecute[..1];
      if !skip {
        var s;
        executed, s := ExecuteNewEvents(p, toExecute);
        if s.Panicked? {
          return false, executed;
        }
        if s.Erred? {
          WorkflowCompleted("", Some(s.reason));
        }
      }
      return true, executed;
    }

    /** Turns the commands into events and numbers everything executed. */
    method Checkpoint(executed: seq<Event>, now: Time) returns (result: ExecutionResult)
      requires Valid()
      modifies this, state, state.Repr
      ensures Valid() && fresh(state.Repr - old(state.Repr))
      ensures (Value(), result) == Execution.Checkpoint(old(Core()), old(lastSequenceID), executed, now)
    {
      hide Collect;
      var r := state.ExecuteCommands(now, workflow, workflowName);
      var numbered := AssignSequenceIDs(executed + r.events);
      state.historyLength := lastSequenceID;
      return ExecutionResult(r.state, numbered, r.activityEvents, r.timerEvents, r.workflowEvents);
    }

    /** ExecuteTask after catching up; false is a crash of the process. */
    method WorkOn(p: Program, t: Task, skip: bool, now: Time, source: nat, maxHistorySize: int)
      returns (ok: bool, result: ExecutionResult)
      requires Valid()
      modifies this, state, state.Repr
      ensures Valid() && fresh(state.Repr - old(state.Repr))
      ensures match Work(p, old(Value()), skip, t, now, source, maxHistorySize)
              case Executed(x, r) => ok && result == r && Value() == x
              case ProcessCrash => !ok
              case Refused(_, _) => false
    {
      hide Execution.ExecuteNewEvents, Execution.Checkpoint, ToExecute, WorkflowState.Valid;
      state.DrawFrom(source, workflow, workflowName);
      var executed;
      ok, executed := ExecuteBatch(p, t, skip, now);
      result := ExecutionResult(Active, [], [], [], []);
      if ok {
        if lastSequenceID + |executed| >= maxHistorySize {
          WorkflowCompleted("", Some(HistorySizeExceeded));
        }
        result := Checkpoint(executed, now);
      }
    }

    /** Catches up on history and executes the new events of a task. */
    method ExecuteTask(p: Program, t: Task, history: seq<Event>, now: Time, source: nat, replaySource: nat,
                       maxHistorySize: int)
      returns (outcome: TaskStatus)
      requires Valid()
      modifies this, state, state.Repr
      ensures Valid() && fresh(state.Repr - old(state.Repr))
      ensures Matches(Execution.ExecuteTask(p, old(Value()), t, history, now, source, replaySource, maxHistorySize),
                      outcome, Value())
    {
      hide CatchUp, Work, WorkflowState.Valid;
      if t.state == Finished {
        return Produced(ExecutionResult(Finished, [], [], [], []));
      }
      var skip, s := CatchupOnHistory(p, t, history, replaySource);
      match s {
        case Panicked => return Crashing;
        case Erred(reason) => return Unfit(reason);
        case Fine =>
          var ok, result := WorkOn(p, t, skip, now, source, maxHistorySize);
          return if ok then Produced(result) else Crashing;
      }
    }
  }

  datatype TaskStatus = Produced(result: ExecutionResult) | Unfit(reason: Error) | Crashing

  /** The object did with the task what the function says. */
  predicate Matches(o: TaskOutcome, status: TaskStatus, x: Execution.Executor) {
    match o
    case Executed(y, result) => status == Produced(result) && x == y
    case Refused(y, reason) => status == Unfit(reason) && x == y
    case ProcessCrash => status == Crashing
  }
}
