/** What the events of an honest task result say: each comes from exactly one command. */
module Decisions {
  import opened Basics
  import opened History
  import opened Commands
  import opened Execution
  import opened Histories
  import opened Contract
  import opened Determinism

  predicate Numbered(cs: seq<Command>) {
    forall i :: 0 <= i < |cs| ==> cs[i].id == i + 1
  }

  /** The position of the command a generated name belongs to. */
  function At(cs: seq<Command>, name: Name): int {
    if name.Drawn? then name.number - 1 else -1
  }

  predicate FromCommand(cs: seq<Command>, name: Name, source: nat, role: Role) {
    name.Drawn? && name.source == source && name.role == role && 1 <= name.number <= |cs|
  }

  lemma OneEach(c: Command, now: Time, source: nat)
    ensures
      var r := c.Execute(now, source);
      && |r.events| <= 1 && |r.activityEvents| <= 1 && |r.timerEvents| <= 1 && |r.workflowEvents| <= 1
      && (r.events == [] ==> r == NoResult)
      && (forall e :: e in r.events ==> e.id == Drawn(source, ForEvent, c.id))
      && (forall e :: e in r.timerEvents ==> e.id == Drawn(source, ForMessage, c.id))
      && (forall w :: w in r.workflowEvents ==> w.event.id == Drawn(source, ForMessage, c.id))
      && (forall e :: e in r.activityEvents <==> e in r.events && e.attributes.ActivityScheduled?)
  {
  }

  lemma {:induction false} EventsFromCommands(cs: seq<Command>, now: Time, source: nat)
    requires Numbered(cs)
    ensures
      var r := Collect(cs, now, source);
      && (forall e :: e in r.events ==>
            FromCommand(cs, e.id, source, ForEvent) && cs[At(cs, e.id)].Execute(now, source).events == [e])
      && (forall e :: e in r.timerEvents ==>
            FromCommand(cs, e.id, source, ForMessage) && cs[At(cs, e.id)].Execute(now, source).timerEvents == [e])
      && (forall w :: w in r.workflowEvents ==>
            FromCommand(cs, w.event.id, source, ForMessage) &&
            cs[At(cs, w.event.id)].Execute(now, source).workflowEvents == [w])
    decreases |cs|
  {
    hide Command.Execute;
    if cs != [] {
      var last := |cs| - 1;
      EventsFromCommands(cs[..last], now, source);
      OneEach(cs[last], now, source);
    }
  }

  lemma {:induction false} ActivitiesAmongEvents(cs: seq<Command>, now: Time, source: nat)
    ensures
      var r := Collect(cs, now, source);
      forall e :: e in r.activityEvents <==> e in r.events && e.attributes.ActivityScheduled?
    decreases |cs|
  {
    hide Command.Execute;
    if cs != [] {
      var last := |cs| - 1;
      ActivitiesAmongEvents(cs[..last], now, source);
      OneEach(cs[last], now, source);
      var before, own := Collect(cs[..last], now, source), cs[last].Execute(now, source);
      forall e
        ensures e in before.activityEvents + own.activityEvents <==>
                e in before.events + own.events && e.attributes.ActivityScheduled?
      {
        assert e in before.activityEvents <==> e in before.events && e.attributes.ActivityScheduled?;
        assert e in own.activityEvents <==> e in own.events && e.attributes.ActivityScheduled?;
      }
    }
  }

  lemma {:induction false} CommandsInCollect(cs: seq<Command>, now: Time, source: nat, i: nat)
    requires i < |cs|
    ensures
      var own, r := cs[i].Execute(now, source), Collect(cs, now, source);
      && (forall e :: e in own.events ==> e in r.events)
      && (forall e :: e in own.timerEvents ==> e in r.timerEvents)
      && (forall w :: w in own.workflowEvents ==> w in r.workflowEvents)
    decreases |cs|
  {
    hide Command.Execute;
    var last := |cs| - 1;
    if i < last {
      CommandsInCollect(cs[..last], now, source, i);
    }
  }

  lemma {:induction false} CollectDistinct(cs: seq<Command>, now: Time, source: nat)
    requires Numbered(cs)
    ensures
      var r := Collect(cs, now, source);
      DistinctIds(r.events) && DistinctIds(r.activityEvents) && DistinctIds(r.timerEvents) &&
      DistinctIds(EventsOf(r.workflowEvents))
    decreases |cs|
  {
    hide Command.Execute;
    if cs != [] {
      var last := |cs| - 1;
      CollectDistinct(cs[..last], now, source);
      EventsFromCommands(cs[..last], now, source);
      ActivitiesAmongEvents(cs[..last], now, source);
      OneEach(cs[last], now, source);
    }
  }

  /** The final event, if there is one, is the last. */
  lemma FinalIsLast(cs: seq<Command>, h: seq<Event>, instance: Instance, source: nat, now: Time)
    requires Decided(cs, h, instance, source)
    ensures
      var r := Collect(cs, now, source);
      && (r.state == Active <==> !EndsWith(cs))
      && (EndsWith(cs) ==>
            r.events != [] && IsTerminal(r.events[|r.events| - 1].attributes) &&
            r.state == if cs[|cs| - 1].action.Complete? then Finished else InstanceState.ContinuedAsNew)
      && (forall i :: 0 <= i < |r.events| && IsTerminal(r.events[i].attributes) ==> EndsWith(cs) && i == |r.events| - 1)
  {
    hide SoundCommand, Command.Execute;
    assert Numbered(cs);
    EventsFromCommands(cs, now, source);
    CollectDistinct(cs, now, source);
    ActiveUnlessFinal(cs, now, source);
    SoundIsNotFinal(cs, h, instance, source);
    var r := Collect(cs, now, source);
    if EndsWith(cs) {
      var last := |cs| - 1;
      ActiveUnlessFinal(cs[..last], now, source);
      FinalExecutes(cs[last], now, source);
    }
    forall i | 0 <= i < |r.events| && IsTerminal(r.events[i].attributes)
      ensures EndsWith(cs) && i == |r.events| - 1
    {
      var e := r.events[i];
      TerminalFromFinal(cs[At(cs, e.id)], now, source);
      assert cs[At(cs, e.id)] == cs[|cs| - 1];
      assert r.events[|r.events| - 1].id == Drawn(source, ForEvent, |cs|);
    }
  }

  lemma SoundIsNotFinal(cs: seq<Command>, h: seq<Event>, instance: Instance, source: nat)
    requires Decided(cs, h, instance, source)
    ensures forall i :: 0 <= i < |cs| && Final(cs[i]) ==> i == |cs| - 1 && cs[i].state == Pending
  {
  }

  lemma FinalExecutes(c: Command, now: Time, source: nat)
    requires Final(c) && c.state == Pending
    ensures
      var r := c.Execute(now, source);
      && |r.events| == 1 && IsTerminal(r.events[0].attributes) && r.events[0].id == Drawn(source, ForEvent, c.id)
      && r.state == if c.action.Complete? then Finished else InstanceState.ContinuedAsNew
  {
  }

  lemma TerminalFromFinal(c: Command, now: Time, source: nat)
    requires exists e :: c.Execute(now, source).events == [e] && IsTerminal(e.attributes)
    ensures Final(c) && c.state == Pending
  {
  }

  // ---------- what the events mean ----------

  /** A recorded decision: which command made it, and what the history before it says. */
  lemma DecisionMeans(cs: seq<Command>, h: seq<Event>, instance: Instance, source: nat, now: Time, e: Event)
    requires Decided(cs, h, instance, source) && e in Collect(cs, now, source).events
    ensures FromCommand(cs, e.id, source, ForEvent) && cs[At(cs, e.id)].Execute(now, source).events == [e]
    ensures !Deliverable(e.attributes) && !e.attributes.TaskStarted?
    ensures !IsTerminal(e.attributes) ==> e.scheduleEventID == e.id.number
    ensures
      match KindOf(e.attributes)
      case Some(ActivityStart) => e.scheduleEventID !in Started(h)
      case Some(TimerStart) => e.scheduleEventID !in Started(h)
      case Some(SubWorkflowStart) =>
        var i := e.attributes.instance;
        e.scheduleEventID !in Started(h) && i.executionID == Drawn(source, ForExecution, e.id.number) &&
        i.parent == Some(instance) && i.parentEventID == e.scheduleEventID
      case Some(TimerStop) => e.scheduleEventID in Ids(h, TimerStart) && e.scheduleEventID !in Ids(h, TimerStop)
      case Some(SubWorkflowStop) => (e.scheduleEventID, e.attributes.instance) in SubInstances(h)
      case Some(_) => false
      case None => IsTerminal(e.attributes)
  {
    hide Ids, Started, SubInstances, Collect;
    assert Numbered(cs);
    EventsFromCommands(cs, now, source);
  }

  /** A timer event belongs to the timer started by the same command. */
  lemma TimerMeans(cs: seq<Command>, h: seq<Event>, instance: Instance, source: nat, now: Time, e: Event)
    requires Decided(cs, h, instance, source) && e in Collect(cs, now, source).timerEvents
    ensures FromCommand(cs, e.id, source, ForMessage) && e.id.number == e.scheduleEventID
    ensures e.attributes.TimerFired? && e.visibleAt.Some?
    ensures exists s :: s in Collect(cs, now, source).events && KindOf(s.attributes) == Some(TimerStart) &&
                        s.scheduleEventID == e.scheduleEventID && s.id == Drawn(source, ForEvent, e.id.number) &&
                        DueAsStarted(s, e)
  {
    hide Ids, Started, SubInstances, Collect, SoundCommand;
    assert Numbered(cs);
    EventsFromCommands(cs, now, source);
    CommandsInCollect(cs, now, source, At(cs, e.id));
    var c := cs[At(cs, e.id)];
    var s := c.Execute(now, source).events[0];
    assert s in Collect(cs, now, source).events;
  }

  /** Every timer that is started has its timer event. */
  lemma TimerHasEvent(cs: seq<Command>, h: seq<Event>, instance: Instance, source: nat, now: Time, s: Event)
    returns (e: Event)
    requires Decided(cs, h, instance, source) && s in Collect(cs, now, source).events
    requires KindOf(s.attributes) == Some(TimerStart)
    ensures e in Collect(cs, now, source).timerEvents && e.scheduleEventID == s.scheduleEventID &&
            e.attributes.TimerFired?
  {
    hide Ids, Started, SubInstances, Collect, SoundCommand;
    assert Numbered(cs);
    EventsFromCommands(cs, now, source);
    var c := cs[At(cs, s.id)];
    CommandsInCollect(cs, now, source, At(cs, s.id));
    e := c.Execute(now, source).timerEvents[0];
  }

  // ---------- what the messages mean ----------

  /** A message to another execution: which command sent it, and to whom. */
  lemma MessageMeans(cs: seq<Command>, h: seq<Event>, instance: Instance, source: nat, now: Time, w: WorkflowEvent)
    requires Decided(cs, h, instance, source) && w in Collect(cs, now, source).workflowEvents
    ensures FromCommand(cs, w.event.id, source, ForMessage)
    ensures cs[At(cs, w.event.id)].Execute(now, source).workflowEvents == [w]
    ensures w.event.visibleAt.None?
    ensures
      var n := w.event.id.number;
      var final := EndsWith(cs) && n == |cs|;
      match w.event.attributes
      case ExecutionStarted(_, _, _) =>
        && w.instance.executionID == Drawn(source, ForExecution, n)
        && if final then w.instance == Continued(instance, Drawn(source, ForExecution, n)) && cs[n - 1].action.ContinueAsNew?
           else w.instance.parent == Some(instance) && w.instance.parentEventID == n && cs[n - 1].action.SubWorkflow?
      case ExecutionCanceled => (n, w.instance) in SubInstances(h)
      case SubWorkflowCompleted(_) => final && ToParent(instance, w)
      case SubWorkflowFailed(_) => final && ToParent(instance, w)
      case _ => false
  {
    hide Ids, Started, SubInstances, Collect;
    assert Numbered(cs);
    EventsFromCommands(cs, now, source);
  }

  predicate ToParent(instance: Instance, w: WorkflowEvent) {
    instance.parent == Some(w.instance) && w.event.scheduleEventID == instance.parentEventID
  }

  /** While an execution continues as new, it starts nothing else. */
  lemma ContinuationIsOnlyStart(cs: seq<Command>, h: seq<Event>, instance: Instance, source: nat, now: Time,
                                w: WorkflowEvent)
    requires Decided(cs, h, instance, source) && w in Collect(cs, now, source).workflowEvents
    requires EndsWith(cs) && cs[|cs| - 1].action.ContinueAsNew? && w.event.attributes.ExecutionStarted?
    ensures w.event.id.Drawn? && w.event.id.number == |cs|
  {
    hide SoundCommand, Collect;
    MessageMeans(cs, h, instance, source, now, w);
    SoundIsNotFinal(cs, h, instance, source);
  }

  /** Every recorded sub-workflow has its start message. */
  lemma StartHasMessage(cs: seq<Command>, h: seq<Event>, instance: Instance, source: nat, now: Time, s: Event)
    returns (w: WorkflowEvent)
    requires Decided(cs, h, instance, source) && s in Collect(cs, now, source).events
    requires KindOf(s.attributes) == Some(SubWorkflowStart)
    ensures w in Collect(cs, now, source).workflowEvents && w.event.attributes.ExecutionStarted?
    ensures w.instance == s.attributes.instance && w.instance.parentEventID == s.scheduleEventID
    ensures w.instance.parent == Some(instance)
  {
    hide Ids, Started, SubInstances, Collect;
    assert Numbered(cs);
    EventsFromCommands(cs, now, source);
    var c := cs[At(cs, s.id)];
    CommandsInCollect(cs, now, source, At(cs, s.id));
    w := c.Execute(now, source).workflowEvents[0];
  }

  /** Every start message of a sub-workflow has its recorded event. */
  lemma MessageHasStart(cs: seq<Command>, h: seq<Event>, instance: Instance, source: nat, now: Time, w: WorkflowEvent)
    returns (s: Event)
    requires Decided(cs, h, instance, source) && w in Collect(cs, now, source).workflowEvents
    requires w.event.attributes.ExecutionStarted? && !(EndsWith(cs) && w.event.id.Drawn? && w.event.id.number == |cs|)
    ensures s in Collect(cs, now, source).events && s.attributes.SubWorkflowScheduled?
    ensures w.instance == s.attributes.instance && w.instance.parentEventID == s.scheduleEventID
  {
    hide Ids, Started, SubInstances, Collect;
    MessageMeans(cs, h, instance, source, now, w);
    CommandsInCollect(cs, now, source, At(cs, w.event.id));
    s := cs[At(cs, w.event.id)].Execute(now, source).events[0];
  }

  /** An ending sub-workflow tells its parent, or hands the parent link on. */
  lemma EndHasMessage(cs: seq<Command>, h: seq<Event>, instance: Instance, source: nat, now: Time)
    returns (w: WorkflowEvent)
    requires Decided(cs, h, instance, source) && EndsWith(cs) && instance.SubWorkflow()
    ensures w in Collect(cs, now, source).workflowEvents
    ensures
      if w.event.attributes.ExecutionStarted?
      then w.instance.parent == instance.parent && w.instance.parentEventID == instance.parentEventID
      else IsResult(w.event.attributes) && ToParent(instance, w)
  {
    hide Ids, Started, SubInstances, Collect, SoundCommand;
    SoundIsNotFinal(cs, h, instance, source);
    CommandsInCollect(cs, now, source, |cs| - 1);
    EndMessage(cs, h, instance, source, now);
    w := cs[|cs| - 1].Execute(now, source).workflowEvents[0];
  }

  lemma EndMessage(cs: seq<Command>, h: seq<Event>, instance: Instance, source: nat, now: Time)
    requires Decided(cs, h, instance, source) && EndsWith(cs) && instance.SubWorkflow()
    ensures
      var ws := cs[|cs| - 1].Execute(now, source).workflowEvents;
      && |ws| == 1
      && if ws[0].event.attributes.ExecutionStarted?
         then ws[0].instance.parent == instance.parent && ws[0].instance.parentEventID == instance.parentEventID
         else IsResult(ws[0].event.attributes) && ToParent(instance, ws[0])
  {
    hide Ids, Started, SubInstances;
    assert cs[|cs| - 1].action.instance == instance;
  }

  // ---------- what is recorded, by the commands' own fields ----------

  /** The command a generated event or message belongs to had something to do. */
  predicate Working(cs: seq<Command>, name: Name, source: nat, role: Role) {
    FromCommand(cs, name, source, role) && HasWork(cs[At(cs, name)])
  }

  /** A checkpoint: every event, firing and message is what the action of its command says. */
  lemma CollectYields(cs: seq<Command>, now: Time, source: nat)
    requires Numbered(cs)
    ensures
      var r := Collect(cs, now, source);
      && (forall e :: e in r.events ==> Working(cs, e.id, source, ForEvent) && Records(cs[At(cs, e.id)], e, now, source))
      && (forall e :: e in r.timerEvents ==> Working(cs, e.id, source, ForMessage) && Fires(cs[At(cs, e.id)], e, now, source))
      && (forall w :: w in r.workflowEvents ==>
            Working(cs, w.event.id, source, ForMessage) && Tells(cs[At(cs, w.event.id)], w, now, source))
      && (forall e :: e in r.activityEvents <==> e in r.events && e.attributes.ActivityScheduled?)
  {
    hide Command.Execute, Collect, Records, Fires, Tells, HasWork, HasMessage, Yields;
    EventsFromCommands(cs, now, source);
    ActivitiesAmongEvents(cs, now, source);
    forall i | 0 <= i < |cs|
      ensures ResultOf(cs[i], now, source)
    {
      ExecuteYields(cs[i], now, source);
      YieldsOwn(cs[i], now, source, cs[i].Execute(now, source));
    }
    var r := Collect(cs, now, source);
    forall e | e in r.events
      ensures HasWork(cs[At(cs, e.id)]) && Records(cs[At(cs, e.id)], e, now, source)
    {
      assert ResultOf(cs[At(cs, e.id)], now, source);
      assert e in cs[At(cs, e.id)].Execute(now, source).events;
    }
    forall e | e in r.timerEvents
      ensures HasWork(cs[At(cs, e.id)]) && Fires(cs[At(cs, e.id)], e, now, source)
    {
      assert ResultOf(cs[At(cs, e.id)], now, source);
      assert e in cs[At(cs, e.id)].Execute(now, source).timerEvents;
    }
    forall w | w in r.workflowEvents
      ensures HasWork(cs[At(cs, w.event.id)]) && Tells(cs[At(cs, w.event.id)], w, now, source)
    {
      assert ResultOf(cs[At(cs, w.event.id)], now, source);
      assert w in cs[At(cs, w.event.id)].Execute(now, source).workflowEvents;
    }
  }

  /** What one command yields, event by event. */
  predicate ResultOf(c: Command, now: Time, source: nat) {
    var r := c.Execute(now, source);
    && (forall e :: e in r.events ==> HasWork(c) && Records(c, e, now, source))
    && (forall e :: e in r.timerEvents ==> HasWork(c) && Fires(c, e, now, source))
    && (forall w :: w in r.workflowEvents ==> HasWork(c) && Tells(c, w, now, source))
    && (HasWork(c) ==> r.events != [] && r.events[0] in r.events)
    && (HasWork(c) && HasMessage(c) ==> r.workflowEvents != [] && r.workflowEvents[0] in r.workflowEvents)
    && (c.state == Pending && c.action.Timer? ==> r.timerEvents != [] && r.timerEvents[0] in r.timerEvents)
  }

  lemma YieldsOwn(c: Command, now: Time, source: nat, r: CommandResult)
    requires Yields(c, now, source, r) && r == c.Execute(now, source)
    ensures ResultOf(c, now, source)
  {
    hide Command.Execute;
  }

  /** No command with something to do is forgotten. */
  lemma CollectComplete(cs: seq<Command>, now: Time, source: nat, i: nat)
    requires i < |cs| && HasWork(cs[i])
    ensures
      var r := Collect(cs, now, source);
      && (exists e :: e in r.events && Records(cs[i], e, now, source))
      && (HasMessage(cs[i]) ==> exists w :: w in r.workflowEvents && Tells(cs[i], w, now, source))
      && (cs[i].state == Pending && cs[i].action.Timer? ==> exists e :: e in r.timerEvents && Fires(cs[i], e, now, source))
  {
    hide Command.Execute, Collect, Records, Fires, Tells, HasWork, HasMessage, Yields;
    CommandsInCollect(cs, now, source, i);
    ExecuteYields(cs[i], now, source);
    YieldsOwn(cs[i], now, source, cs[i].Execute(now, source));
    var own := cs[i].Execute(now, source);
    assert own.events[0] in Collect(cs, now, source).events;
    if HasMessage(cs[i]) {
      assert own.workflowEvents[0] in Collect(cs, now, source).workflowEvents;
    }
    if cs[i].state == Pending && cs[i].action.Timer? {
      assert own.timerEvents[0] in Collect(cs, now, source).timerEvents;
    }
  }

  /** Decisions are recorded in the order of their schedule ids. */
  lemma {:induction false} CollectOrdered(cs: seq<Command>, now: Time, source: nat)
    requires Numbered(cs)
    ensures
      var es := Collect(cs, now, source).events;
      forall i, j :: 0 <= i < j < |es| ==> At(cs, es[i].id) < At(cs, es[j].id)
    decreases |cs|
  {
    hide Command.Execute;
    if cs != [] {
      var last := |cs| - 1;
      CollectOrdered(cs[..last], now, source);
      EventsFromCommands(cs[..last], now, source);
      OneEach(cs[last], now, source);
      var before := Collect(cs[..last], now, source).events;
      forall i | 0 <= i < |before|
        ensures At(cs, before[i].id) < last
      {
        assert before[i] in before;
      }
    }
  }
}
