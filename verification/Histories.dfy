/**
  What a recorded history looks like. Any history that can be replayed without error is lawful:
  no schedule id is used twice, results and cancellations follow what they refer to, once.
 */
module Histories {
  import opened Basics
  import opened History
  import opened Commands
  import opened Execution
  import opened Stepping
  import opened Tidiness

  /** The events that start, end or stop an activity, timer or sub-workflow. */
  datatype Kind =
    | ActivityStart | TimerStart | SubWorkflowStart
    | ActivityEnd | SubWorkflowEnd
    | TimerFire | TimerStop | SubWorkflowStop

  function KindOf(a: Attributes): Option<Kind> {
    match a
    case ActivityScheduled(_, _, _, _) => Some(ActivityStart)
    case TimerScheduled(_, _) => Some(TimerStart)
    case SubWorkflowScheduled(_, _, _) => Some(SubWorkflowStart)
    case ActivityCompleted(_) => Some(ActivityEnd)
    case ActivityFailed(_) => Some(ActivityEnd)
    case SubWorkflowCompleted(_) => Some(SubWorkflowEnd)
    case SubWorkflowFailed(_) => Some(SubWorkflowEnd)
    case TimerFired(_, _, _) => Some(TimerFire)
    case TimerCanceled => Some(TimerStop)
    case SubWorkflowCancellationRequested(_) => Some(SubWorkflowStop)
    case _ => None
  }

  /** The schedule ids of the events of one kind. */
  function Ids(h: seq<Event>, k: Kind): set<int> {
    set e | e in h && KindOf(e.attributes) == Some(k) :: e.scheduleEventID
  }

  /** The firing of a timer, due when the recorded event that started the timer says. */
  predicate DueAsStarted(s: Event, e: Event) {
    && s.attributes.TimerScheduled? && e.attributes.TimerFired? && e.scheduleEventID == s.scheduleEventID
    && e.visibleAt == Some(s.attributes.at) && e.attributes.at == s.attributes.at && e.attributes.name == s.attributes.name
  }

  /** The schedule ids of everything that was started. */
  function Started(h: seq<Event>): set<int> {
    Ids(h, ActivityStart) + Ids(h, TimerStart) + Ids(h, SubWorkflowStart)
  }

  /** The instances of the sub-workflows that were started, with their schedule ids. */
  function SubInstances(h: seq<Event>): set<(int, Instance)> {
    set e | e in h && e.attributes.SubWorkflowScheduled? :: (e.scheduleEventID, e.attributes.instance)
  }

  lemma SubInstancesAppend(h: seq<Event>, e: Event)
    ensures SubInstances(h + [e]) ==
            SubInstances(h) +
            if e.attributes.SubWorkflowScheduled? then {(e.scheduleEventID, e.attributes.instance)} else {}
  {
    forall s | s in SubInstances(h + [e])
      ensures s in SubInstances(h) ||
              (e.attributes.SubWorkflowScheduled? && s == (e.scheduleEventID, e.attributes.instance))
    {
      var f :| f in h + [e] && f.attributes.SubWorkflowScheduled? && (f.scheduleEventID, f.attributes.instance) == s;
    }
    forall s | s in SubInstances(h)
      ensures s in SubInstances(h + [e])
    {
      var f :| f in h && f.attributes.SubWorkflowScheduled? && (f.scheduleEventID, f.attributes.instance) == s;
      assert f in h + [e];
    }
    assert e in h + [e];
  }

  lemma IdsAppend(h: seq<Event>, e: Event, k: Kind)
    ensures Ids(h + [e], k) == Ids(h, k) + if KindOf(e.attributes) == Some(k) then {e.scheduleEventID} else {}
  {
    forall id | id in Ids(h + [e], k)
      ensures id in Ids(h, k) || (KindOf(e.attributes) == Some(k) && id == e.scheduleEventID)
    {
      var f :| f in h + [e] && KindOf(f.attributes) == Some(k) && f.scheduleEventID == id;
    }
    forall id | id in Ids(h, k)
      ensures id in Ids(h + [e], k)
    {
      var f :| f in h && KindOf(f.attributes) == Some(k) && f.scheduleEventID == id;
      assert f in h + [e];
    }
    assert e in h + [e];
  }

  /** Whether `e` may follow the events `h`. */
  predicate LawfulNext(h: seq<Event>, e: Event) {
    var id := e.scheduleEventID;
    match KindOf(e.attributes)
    case Some(ActivityStart) => id !in Started(h)
    case Some(TimerStart) => id !in Started(h)
    case Some(SubWorkflowStart) => id !in Started(h)
    case Some(ActivityEnd) => id in Ids(h, ActivityStart) && id !in Ids(h, ActivityEnd)
    case Some(SubWorkflowEnd) => id in Ids(h, SubWorkflowStart) && id !in Ids(h, SubWorkflowEnd)
    case Some(TimerStop) => id in Ids(h, TimerStart) && id !in Ids(h, TimerStop)
    case Some(SubWorkflowStop) =>
      id in Ids(h, SubWorkflowStart) && id !in Ids(h, SubWorkflowStop) && id !in Ids(h, SubWorkflowEnd)
    case _ => true
  }

  predicate Lawful(h: seq<Event>) {
    forall i :: 0 <= i < |h| ==> LawfulNext(h[..i], h[i])
  }

  // ---------- commands and history ----------

  predicate LinkedCommand(c: Command, h: seq<Event>, pending: bool) {
    var id := c.id;
    && (id in Ids(h, ActivityStart) ==> c.action.Activity?)
    && (id in Ids(h, TimerStart) ==> c.action.Timer?)
    && (id in Ids(h, SubWorkflowStart) ==> c.action.SubWorkflow?)
    && (c.state == Pending ==> id !in Started(h))
    && (c.state == Committed || c.state == CancelPending || c.state == CommandState.Done ==> id in Started(h))
    && (id in Ids(h, ActivityEnd) <==> c.action.Activity? && c.state == CommandState.Done)
    && (id in Ids(h, SubWorkflowEnd) <==> c.action.SubWorkflow? && c.state == CommandState.Done)
    && (id in Ids(h, TimerStop) <==> c.action.Timer? && c.state == Canceled && id in Started(h))
    && (c.action.Timer? && c.state == CommandState.Done ==> id in Ids(h, TimerFire))
    && (id in Ids(h, SubWorkflowStop) ==>
          c.action.SubWorkflow? && id in Started(h) && (c.state == Canceled || c.state == CommandState.Done))
    && (c.action.SubWorkflow? ==>
          (pending <==> c.state == Pending || (id in Started(h) && c.state != CommandState.Done)))
    && (c.action.SubWorkflow? && (c.state == Committed || c.state == CancelPending) ==>
          (id, c.action.instance) in SubInstances(h))
  }

  /** The state of every command is what the history says about its id. */
  predicate Linked(core: Core, h: seq<Event>) {
    && (forall i :: 0 <= i < |core.commands| ==>
          LinkedCommand(core.commands[i], h, core.commands[i].id in core.pendingFutures))
    && (forall k, id :: id in Ids(h, k) && k != TimerFire ==> 1 <= id <= |core.commands|)
  }

  /** Replacing or adding commands that are themselves linked. */
  lemma LinkedPut(core: Core, c: Command, h: seq<Event>)
    requires Tidy(core) && Linked(core, h) && 1 <= c.id <= |core.commands|
    ensures LinkedCommand(c, h, c.id in core.pendingFutures) ==> Linked(core.Put(c), h)
    ensures LinkedCommand(c, h, false) ==> Linked(core.Put(c).Untrack(c.id), h)
  {
  }

  lemma LinkedCancel(core: Core, id: int, h: seq<Event>)
    requires Tidy(core) && Linked(core, h)
    ensures Linked(CancelOperation(core, id), h)
  {
    hide Linked, Ids, Tidy, Started;
    if core.Find(id).Some? && core.Find(id).value.armed {
      var c := core.Find(id).value;
      TidyFind(core, id);
      LinkedFind(core, id, h);
      LinkedPut(core, c.Cancel().value.(armed := false), h);
    }
  }

  lemma LinkedFind(core: Core, id: int, h: seq<Event>)
    requires Linked(core, h) && core.Find(id).Some?
    ensures LinkedCommand(core.Find(id).value, h, id in core.pendingFutures)
  {
  }

  lemma LinkedAdd(core: Core, action: Action, armed: bool, resultType: string, h: seq<Event>)
    requires Tidy(core) && Linked(core, h)
    requires action.Activity? || action.Timer? || action.SubWorkflow?
    ensures Linked(core.Add(action, armed).Track(core.nextScheduleEventID, resultType), h)
  {
    hide Ids, SubInstances;
    var id := core.nextScheduleEventID;
    assert forall k :: k != TimerFire ==> id !in Ids(h, k);
  }

  lemma LinkedOperate(core: Core, op: Operation, h: seq<Event>)
    requires Tidy(core) && Linked(core, h)
    ensures Linked(Operate(core, op), h)
  {
    hide Linked, Tidy, CancelOperation;
    match op
    case ScheduleActivity(name, inputs, attempt, queue, resultType) =>
      LinkedAdd(core, Activity(name, inputs, attempt, queue), false, resultType, h);
    case ScheduleTimer(delay, name) =>
      LinkedAdd(core, Timer(core.time + delay, name), true, "", h);
    case ScheduleSubWorkflow(queue, chosen, name, inputs, resultType) =>
      LinkedAdd(core, SubWorkflow(queue, SubInstance(core, chosen), name, inputs), true, resultType, h);
    case CloseDone(id) => LinkedCancel(core, id, h);
  }

  lemma {:induction false} LinkedOperateAll(core: Core, ops: seq<Operation>, h: seq<Event>)
    requires Tidy(core) && core.workflow.Some? && Linked(core, h)
    ensures Linked(OperateAll(core, ops), h)
    decreases |ops|
  {
    hide Linked, Tidy, Operate;
    if ops != [] {
      TidyOperate(core, ops[0]);
      LinkedOperate(core, ops[0], h);
      LinkedOperateAll(Operate(core, ops[0]), ops[1..], h);
    }
  }

  lemma LinkedRun(p: Program, core: Core, coroutines: Coroutines, stimulus: Stimulus, h: seq<Event>)
    requires Tidy(core) && Linked(core, h)
    ensures var r := Run(p, core, coroutines, stimulus); r.Ok? ==> Linked(r.core, h)
  {
    hide OperateAll;
    var turn := p.deliver(coroutines, stimulus, core.Look());
    LinkedOperateAll(core.(workflow := Some(turn.coroutines)), turn.operations, h);
  }

  lemma LinkedResume(p: Program, core: Core, stimulus: Stimulus, h: seq<Event>)
    requires Tidy(core) && Linked(core, h)
    ensures var r := Resume(p, core, stimulus); r.Ok? ==> Linked(r.core, h)
  {
    hide Run, Linked, Tidy;
    if core.workflow.Some? {
      LinkedRun(p, core, core.workflow.value, stimulus, h);
    }
  }

  /** An event without a kind changes nothing. */
  lemma LinkedAppend(core: Core, h: seq<Event>, e: Event)
    requires Linked(core, h)
    requires KindOf(e.attributes).None? || KindOf(e.attributes) == Some(TimerFire)
    ensures Linked(core, h + [e])
  {
    forall k ensures k != TimerFire ==> Ids(h + [e], k) == Ids(h, k) {
      IdsAppend(h, e, k);
    }
    IdsAppend(h, e, TimerFire);
    SubInstancesAppend(h, e);
    forall i | 0 <= i < |core.commands|
      ensures LinkedCommand(core.commands[i], h + [e], core.commands[i].id in core.pendingFutures)
    {
      assert LinkedCommand(core.commands[i], h, core.commands[i].id in core.pendingFutures);
    }
  }

  lemma IdsStep(h: seq<Event>, e: Event)
    ensures forall k :: Ids(h + [e], k) == Ids(h, k) + if KindOf(e.attributes) == Some(k) then {e.scheduleEventID} else {}
    ensures SubInstances(h + [e]) ==
            SubInstances(h) +
            if e.attributes.SubWorkflowScheduled? then {(e.scheduleEventID, e.attributes.instance)} else {}
  {
    SubInstancesAppend(h, e);
    forall k {
      IdsAppend(h, e, k);
    }
  }

  /** An event about another id. */
  lemma LinkedOther(c: Command, h: seq<Event>, e: Event, pending: bool)
    requires LinkedCommand(c, h, pending) && e.scheduleEventID != c.id
    ensures LinkedCommand(c, h + [e], pending)
  {
    hide Ids, SubInstances;
    IdsStep(h, e);
  }

  /** An event about one command, together with the command's new state. */
  lemma LinkedStep(core: Core, c: Command, h: seq<Event>, e: Event)
    requires Tidy(core) && Linked(core, h) && 1 <= c.id <= |core.commands| && e.scheduleEventID == c.id
    ensures LinkedCommand(c, h + [e], c.id in core.pendingFutures) ==> Linked(core.Put(c), h + [e])
    ensures LinkedCommand(c, h + [e], false) ==> Linked(core.Untrack(c.id).Put(c), h + [e])
  {
    hide Ids, SubInstances, LinkedCommand;
    IdsStep(h, e);
    forall i | 0 <= i < |core.commands| && i != c.id - 1
      ensures LinkedCommand(core.commands[i], h + [e], core.commands[i].id in core.pendingFutures)
    {
      LinkedOther(core.commands[i], h, e, core.commands[i].id in core.pendingFutures);
    }
  }

  lemma LinkedResult(p: Program, core: Core, outcome: Outcome, expected: Expectation, h: seq<Event>, e: Event)
    requires Tidy(core) && Linked(core, h)
    requires match KindOf(e.attributes)
             case Some(ActivityEnd) => expected.AnActivity?
             case Some(SubWorkflowEnd) => expected.ASubWorkflow?
             case Some(TimerFire) => expected.ATimer?
             case _ => false
    ensures
      var r := HandleResult(p, core, e.scheduleEventID, outcome, expected);
      r.Ok? ==> Linked(r.core, h + [e]) && LawfulNext(h, e)
  {
    hide Linked, Tidy, Resume, Ids, SubInstances;
    var id := e.scheduleEventID;
    var r := HandleResult(p, core, id, outcome, expected);
    if r.Ok? {
      var c := core.Untrack(id).Find(id).value;
      var settled := c.Settle().value;
      assert core.Find(id) == Some(c);
      TidyFind(core, id);
      LinkedFind(core, id, h);
      IdsStep(h, e);
      assert LinkedCommand(settled, h + [e], false);
      LinkedStep(core, settled, h, e);
      TidyResolve(core, settled);
      LinkedResume(p, core.Untrack(id).Put(settled), Resolved(id, outcome), h + [e]);
    }
  }

  lemma LinkedScheduled(core: Core, expected: Expectation, recorded: Option<Instance>, h: seq<Event>, e: Event)
    requires Tidy(core) && Linked(core, h)
    requires match KindOf(e.attributes)
             case Some(ActivityStart) => expected.ActivityNamed?
             case Some(SubWorkflowStart) => expected.SubWorkflowNamed?
             case Some(TimerStart) => expected.ATimer?
             case _ => false
    requires e.attributes.SubWorkflowScheduled? ==> recorded == Some(e.attributes.instance)
    ensures
      var r := HandleScheduled(core, e.scheduleEventID, expected, recorded);
      r.Ok? ==> Linked(r.core, h + [e]) && LawfulNext(h, e)
  {
    hide Linked, Tidy, Ids, SubInstances;
    var id := e.scheduleEventID;
    var r := HandleScheduled(core, id, expected, recorded);
    if r.Ok? {
      var c := core.Find(id).value;
      var committed := Recorded(c, recorded).Commit().value;
      TidyFind(core, id);
      LinkedFind(core, id, h);
      IdsStep(h, e);
      assert LinkedCommand(committed, h + [e], id in core.pendingFutures);
      LinkedStep(core, committed, h, e);
    }
  }

  lemma LinkedTimerCanceled(p: Program, core: Core, h: seq<Event>, e: Event)
    requires Tidy(core) && Linked(core, h) && KindOf(e.attributes) == Some(TimerStop)
    ensures
      var r := HandleTimerCanceled(p, core, e.scheduleEventID);
      r.Ok? ==> Linked(r.core, h + [e]) && LawfulNext(h, e)
  {
    hide Linked, Tidy, Ids, SubInstances;
    var id := e.scheduleEventID;
    TidyTimerCanceled(p, core, id);
    if HandleTimerCanceled(p, core, id).Ok? {
      var canceled := core.Find(id).value.HandleCancel().value;
      TidyFind(core, id);
      LinkedFind(core, id, h);
      IdsStep(h, e);
      assert LinkedCommand(canceled, h + [e], id in core.pendingFutures);
      LinkedStep(core, canceled, h, e);
    }
  }

  lemma LinkedSubWorkflowCancellation(p: Program, core: Core, h: seq<Event>, e: Event)
    requires Tidy(core) && Linked(core, h) && KindOf(e.attributes) == Some(SubWorkflowStop)
    ensures
      var r := HandleSubWorkflowCancellation(p, core, e.scheduleEventID);
      r.Ok? ==> Linked(r.core, h + [e]) && LawfulNext(h, e)
  {
    hide Linked, Tidy, Ids, SubInstances, Resume;
    var id := e.scheduleEventID;
    if HandleSubWorkflowCancellation(p, core, id).Ok? {
      var canceled := core.Find(id).value.HandleCancel().value;
      TidyFind(core, id);
      LinkedFind(core, id, h);
      IdsStep(h, e);
      assert LinkedCommand(canceled, h + [e], id in core.pendingFutures);
      LinkedStep(core, canceled, h, e);
      TidyIndexed(core);
      TidyPut(core, canceled);
      LinkedResume(p, core.Put(canceled), Stimulus.Continue, h + [e]);
    }
  }

  /** Handling any event without error extends a lawful history lawfully. */
  lemma LinkedHandle(p: Program, core: Core, h: seq<Event>, e: Event)
    requires Tidy(core) && Settled(p, core) && Linked(core, h)
    ensures var r := Handle(p, core, e); r.Ok? ==> Linked(r.core, h + [e]) && LawfulNext(h, e)
  {
    hide Run, Resume, HandleResult, HandleScheduled, HandleTimerCanceled, HandleSubWorkflowCancellation, Tidy, Settled,
         Linked, Ids;
    var id := e.scheduleEventID;
    if KindOf(e.attributes).None? || KindOf(e.attributes) == Some(TimerFire) {
      LinkedAppend(core, h, e);
    }
    match e.attributes
    case ExecutionStarted(_, name, inputs) =>
      TidyExceptName(core, name);
      LinkedSame(core, core.(workflowName := name), h + [e]);
      LinkedRun(p, core.(workflowName := name), p.blank, Start(name, inputs), h + [e]);
    case ExecutionFinished(_, _) =>
    case ExecutionContinuedAsNew(_, _) =>
    case ExecutionTerminated =>
    case ExecutionCanceled => LinkedResume(p, core, Canceling, h + [e]);
    case TaskStarted => LinkedSame(core, core.(time := e.timestamp), h + [e]);
    case SubWorkflowScheduled(instance, name, _) =>
      LinkedScheduled(core, SubWorkflowNamed(name), Some(instance), h, e);
    case SubWorkflowCancellationRequested(_) => LinkedSubWorkflowCancellation(p, core, h, e);
    case SubWorkflowCompleted(result) => LinkedResult(p, core, Value(Some(result)), ASubWorkflow, h, e);
    case SubWorkflowFailed(reason) => LinkedResult(p, core, Failure(reason), ASubWorkflow, h, e);
    case ActivityScheduled(_, name, _, _) => LinkedScheduled(core, ActivityNamed(name), None, h, e);
    case ActivityCompleted(result) => LinkedResult(p, core, Value(Some(result)), AnActivity, h, e);
    case ActivityFailed(reason) => LinkedResult(p, core, Failure(reason), AnActivity, h, e);
    case TimerScheduled(_, _) => LinkedScheduled(core, ATimer, None, h, e);
    case TimerFired(_, _, _) => LinkedResult(p, core, Value(None), ATimer, h, e);
    case TimerCanceled => LinkedTimerCanceled(p, core, h, e);
    case SignalReceived(name, arg) => LinkedResume(p, core, Signaled(name, arg), h + [e]);
  }

  lemma LinkedSame(core: Core, other: Core, h: seq<Event>)
    requires Linked(core, h) && other.commands == core.commands && other.pendingFutures == core.pendingFutures
    ensures Linked(other, h)
  {
  }

  lemma LawfulAppend(h: seq<Event>, e: Event)
    requires Lawful(h) && LawfulNext(h, e)
    ensures Lawful(h + [e])
  {
    hide LawfulNext;
    forall i | 0 <= i < |h + [e]|
      ensures LawfulNext((h + [e])[..i], (h + [e])[i])
    {
      assert (h + [e])[..i] == h[..i];
      assert i == |h| ==> h[..i] == h;
    }
  }

  lemma {:induction false} LinkedSteps(p: Program, core: Core, h: seq<Event>, events: seq<Event>)
    requires Tidy(core) && Settled(p, core) && Linked(core, h) && Lawful(h)
    ensures var r := Steps(p, core, events); r.Ok? ==> Linked(r.core, h + events) && Lawful(h + events)
    decreases |events|
  {
    hide Handle, Tidy, Settled, Linked, Lawful, LawfulNext;
    if events == [] {
      assert h + events == h;
    } else {
      var e := events[0];
      var before := core.(historyLength := e.sequenceID);
      TidyExceptLength(p, core, e.sequenceID);
      LinkedSame(core, before, h);
      LinkedHandle(p, before, h, e);
      TidyHandle(p, before, e);
      if Handle(p, before, e).Ok? {
        LawfulAppend(h, e);
        LinkedSteps(p, Handle(p, before, e).core, h + [e], events[1..]);
        assert h + [e] + events[1..] == h + events;
      }
    }
  }

  /**
    Whatever the program and the history: if the history can be replayed, it is lawful, and the
    state of every command is what the history says about it.
   */
  lemma ReplayableIsLawful(p: Program, instance: Instance, source: nat, h: seq<Event>)
    ensures
      var r := Steps(p, NewCore(instance, source), h);
      r.Ok? ==> Lawful(h) && Linked(r.core, h) && Tidy(r.core) && Settled(p, r.core)
  {
    var core := NewCore(instance, source);
    assert Linked(core, []);
    LinkedSteps(p, core, [], h);
    TidySteps(p, core, h);
    assert [] + h == h;
  }

  /** In a lawful history no schedule id is used twice, and nothing has two results or is stopped twice. */
  lemma LawfulUnique(h: seq<Event>, i: nat, j: nat)
    requires Lawful(h) && i < j < |h| && h[i].scheduleEventID == h[j].scheduleEventID
    ensures !(IsScheduled(h[i].attributes) && IsScheduled(h[j].attributes))
    ensures KindOf(h[i].attributes) == KindOf(h[j].attributes) ==>
              KindOf(h[i].attributes).None? || KindOf(h[i].attributes) == Some(TimerFire)
  {
    hide Ids;
    assert LawfulNext(h[..j], h[j]);
    assert h[..j][i] == h[i];
    if KindOf(h[i].attributes).Some? {
      IdsHas(h[..j], h[i], KindOf(h[i].attributes).value);
    }
  }

  lemma IdsHas(h: seq<Event>, e: Event, k: Kind)
    requires e in h && KindOf(e.attributes) == Some(k)
    ensures e.scheduleEventID in Ids(h, k)
  {
  }

  lemma IdsSum(h: seq<Event>, x: seq<Event>, k: Kind)
    ensures Ids(h + x, k) == Ids(h, k) + Ids(x, k)
  {
    forall id | id in Ids(h + x, k)
      ensures id in Ids(h, k) + Ids(x, k)
    {
      var e :| e in h + x && KindOf(e.attributes) == Some(k) && e.scheduleEventID == id;
    }
    forall id | id in Ids(h, k) + Ids(x, k)
      ensures id in Ids(h + x, k)
    {
      if id in Ids(h, k) {
        var e :| e in h && KindOf(e.attributes) == Some(k) && e.scheduleEventID == id;
        assert e in h + x;
      } else {
        var e :| e in x && KindOf(e.attributes) == Some(k) && e.scheduleEventID == id;
        assert e in h + x;
      }
    }
  }
}
