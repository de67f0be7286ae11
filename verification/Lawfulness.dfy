/** Every recorded history is lawful, also if its execution fails, ends or reaches the history limit. */
module Lawfulness {
  import opened Basics
  import opened History
  import opened Commands
  import opened Execution
  import opened Similarity
  import opened Stepping
  import opened Tidiness
  import opened Determinism
  import opened Histories
  import opened CacheTransparency
  import opened Contract
  import opened Decisions

  // ---------- decisions extend a history lawfully ----------

  /** Every command is justified by the history or ends the execution. */
  predicate Justified(cs: seq<Command>, h: seq<Event>, instance: Instance, source: nat) {
    forall i :: 0 <= i < |cs| ==> cs[i].id == i + 1 && (Final(cs[i]) || SoundCommand(cs[i], h, instance, source))
  }

  lemma LawfulNumber(h: seq<Event>, e: Event, n: int)
    ensures LawfulNext(h, e.(sequenceID := n)) == LawfulNext(h, e)
  {
  }

  /** Later events about other ids do not matter. */
  lemma LawfulBeside(h: seq<Event>, beside: seq<Event>, e: Event)
    requires LawfulNext(h, e)
    requires forall f :: f in beside ==> f.scheduleEventID != e.scheduleEventID || KindOf(f.attributes).None?
    ensures LawfulNext(h + beside, e)
  {
    hide Ids;
    forall k
      ensures e.scheduleEventID in Ids(h + beside, k) <==> e.scheduleEventID in Ids(h, k)
    {
      IdsSum(h, beside, k);
      assert e.scheduleEventID !in Ids(beside, k) by { NotAmong(beside, e.scheduleEventID, k); }
    }
  }

  lemma NotAmong(events: seq<Event>, id: int, k: Kind)
    requires forall f :: f in events ==> f.scheduleEventID != id || KindOf(f.attributes).None?
    ensures id !in Ids(events, k)
  {
  }

  lemma DecisionLawful(c: Command, h: seq<Event>, instance: Instance, now: Time, source: nat)
    requires Final(c) || SoundCommand(c, h, instance, source)
    ensures forall e :: e in c.Execute(now, source).events ==>
              LawfulNext(h, e) && (e.scheduleEventID == c.id || KindOf(e.attributes).None?)
  {
    hide Ids, SubInstances;
    if c.action.SubWorkflow? && c.state == CancelPending && SoundCommand(c, h, instance, source) {
      StartedInstance(h, c.id, c.action.instance);
    }
  }

  lemma StartedInstance(h: seq<Event>, id: int, instance: Instance)
    requires (id, instance) in SubInstances(h)
    ensures id in Ids(h, SubWorkflowStart)
  {
    var e :|
      e in h && e.attributes.SubWorkflowScheduled? && (e.scheduleEventID, e.attributes.instance) == (id, instance);
    IdsHas(h, e, SubWorkflowStart);
  }

  /** The decisions of justified commands, in order, extend the history lawfully. */
  lemma {:induction false} DecisionsLawful(cs: seq<Command>, h: seq<Event>, instance: Instance, now: Time, source: nat,
                                           last: int)
    requires Lawful(h) && Justified(cs, h, instance, source)
    ensures
      var es := Number(Collect(cs, now, source).events, last);
      && Lawful(h + es)
      && (forall e :: e in es ==> e.scheduleEventID <= |cs| || KindOf(e.attributes).None?)
    decreases |cs|
  {
    hide Command.Execute, Lawful, LawfulNext, SoundCommand, Final;
    if cs == [] {
      assert h + Number([], last) == h;
    } else {
      var n := |cs| - 1;
      var before, own := Collect(cs[..n], now, source).events, cs[n].Execute(now, source).events;
      var es := Number(before, last);
      DecisionsLawful(cs[..n], h, instance, now, source, last);
      DecisionLawful(cs[n], h, instance, now, source);
      OneEach(cs[n], now, source);
      NumberAppend(before, own, last);
      if own == [] {
        assert es + Number(own, last + |before|) == es;
      } else {
        var e := own[0].(sequenceID := last + |before| + 1);
        assert Number(own, last + |before|) == [e];
        LawfulNumber(h, own[0], last + |before| + 1);
        LawfulNextBeside(h, es, e, |cs|);
        LawfulAppend(h + es, e);
        assert h + es + [e] == h + (es + [e]);
      }
    }
  }

  lemma LawfulNextBeside(h: seq<Event>, es: seq<Event>, e: Event, id: int)
    requires LawfulNext(h, e) && (e.scheduleEventID == id || KindOf(e.attributes).None?)
    requires forall f :: f in es ==> f.scheduleEventID < id || KindOf(f.attributes).None?
    ensures LawfulNext(h + es, e)
  {
    if KindOf(e.attributes).Some? {
      hide LawfulNext;
      LawfulBeside(h, es, e);
    }
  }

  // ---------- what was received extends it lawfully ----------

  /** Commands justified by a history stay so when events are executed, whose effect the commands show. */
  lemma SoundOnward(core: Core, h: seq<Event>, g: seq<Event>)
    requires Sound(core, h) && Tidy(core) && Linked(core, g)
    ensures Sound(core, g)
  {
    hide Ids, SubInstances;
    forall i | 0 <= i < |core.commands|
      ensures SoundCommand(core.commands[i], g, core.instance, core.source)
    {
      assert SoundCommand(core.commands[i], h, core.instance, core.source);
      assert LinkedCommand(core.commands[i], g, core.commands[i].id in core.pendingFutures);
      assert TidyCommand(core.commands[i], i + 1 in core.pendingFutures);
    }
  }

  predicate Received(events: seq<Event>) {
    forall j :: 0 <= j < |events| ==> Deliverable(events[j].attributes) || events[j].attributes.TaskStarted?
  }

  /** The events executed without error extend the history lawfully, and justify the commands left behind. */
  lemma {:induction false} ExecuteLawful(p: Program, core: Core, last: int, events: seq<Event>, i: nat, h: seq<Event>)
    requires Tidy(core) && Settled(p, core) && Linked(core, h) && Lawful(h) && Sound(core, h)
    requires i <= |events| && Received(events)
    ensures
      match ExecuteFrom(p, core, last, events, i)
      case AllExecuted(c) => Sound(c, h + Number(events, last)[i..]) && Lawful(h + Number(events, last)[i..])
      case Stopped(c, n, _) =>
        i <= n < |events| && Sound(c, h + Number(events, last)[i..n]) && Lawful(h + Number(events, last)[i..n])
      case Crashed => true
    decreases |events| - i
  {
    hide Handle, Tidy, Settled, Linked, Lawful, Sound, Deliverable, LawfulNext;
    var es := Number(events, last);
    if i == |events| {
      assert h + es[i..] == h;
    } else {
      var before := core.(historyLength := last + i + 1);
      assert Tidy(before) && Settled(p, before) by { TidyExceptLength(p, core, last + i + 1); }
      LinkedSame(core, before, h);
      SoundSame(core, before, h);
      SoundHandle(p, before, events[i], h);
      var r := Handle(p, before, events[i]);
      if r.Ok? {
        HandleIgnoresSequenceID(p, before, events[i], last + i + 1);
        LinkedHandle(p, before, h, es[i]);
        TidyHandle(p, before, events[i]);
        LawfulAppend(h, es[i]);
        SoundOnward(r.core, h, h + [es[i]]);
        ExecuteLawful(p, r.core, last, events, i + 1, h + [es[i]]);
        assert h + [es[i]] + es[i + 1..] == h + es[i..];
        var live := ExecuteFrom(p, r.core, last, events, i + 1);
        if live.Stopped? {
          assert h + [es[i]] + es[i + 1..live.count] == h + es[i..live.count];
        }
      } else if r.Err? {
        assert h + es[i..i] == h;
      }
    }
  }

  // ---------- whole tasks ----------

  predicate JustifiedCore(core: Core, h: seq<Event>) {
    Indexed(core) && Justified(core.commands, h, core.instance, core.source)
  }

  lemma SoundIsJustified(core: Core, h: seq<Event>)
    requires Sound(core, h)
    ensures JustifiedCore(core, h)
  {
    hide SoundCommand;
  }

  lemma EndedIsJustified(core: Core, h: seq<Event>, action: Action)
    requires JustifiedCore(core, h) && (action.Complete? || action.ContinueAsNew?)
    ensures JustifiedCore(core.Add(action, false), h)
  {
    hide SoundCommand;
  }

  lemma ConcludedIsJustified(p: Program, core: Core, h: seq<Event>)
    requires JustifiedCore(core, h)
    ensures
      match Conclude(p, core)
      case Ok(next) => JustifiedCore(next, h)
      case Err(next, reason) => JustifiedCore(CompleteWorkflow(next, "", Some(reason)), h)
      case Panic => true
  {
    hide JustifiedCore;
    forall action: Action | action.Complete? || action.ContinueAsNew?
      ensures JustifiedCore(core.Add(action, false), h)
    {
      EndedIsJustified(core, h, action);
    }
  }

  lemma LinkedSimilar(a: Core, b: Core, h: seq<Event>)
    requires Similar(a, b, false) && Linked(a, h)
    ensures Linked(b, h)
  {
    hide Ids, SubInstances, Started;
    forall i | 0 <= i < |b.commands|
      ensures LinkedCommand(b.commands[i], h, b.commands[i].id in b.pendingFutures)
    {
      assert SameCommand(a.commands[i], b.commands[i], false);
      assert LinkedCommand(a.commands[i], h, a.commands[i].id in a.pendingFutures);
    }
  }

  lemma AgreesIsLinked(p: Program, instance: Instance, h: seq<Event>, x: Executor, source: nat)
    requires Agrees(p, instance, h, x)
    ensures Lawful(h) && Linked(x.core.(source := source), h)
  {
    hide Steps, Linked, Lawful, Tidy, Settled, Boundary, Similar;
    ReplayableIsLawful(p, instance, 0, h);
    LinkedSimilar(Rebuilt(p, instance, h), x.core, h);
    LinkedSame(x.core, x.core.(source := source), h);
  }

  /** The events executed, and the commands left, in whatever way executing them ended. */
  lemma BatchLawful(p: Program, h: seq<Event>, x: Executor, t: Task, now: Time, source: nat)
    requires Agrees(p, t.instance, h, x)
    requires forall j :: 0 <= j < |t.newEvents| ==> Deliverable(t.newEvents[j].attributes)
    requires Executing(p, x, t, now, source).Batch?
    ensures
      var batch := Executing(p, x, t, now, source);
      var g := h + Number(batch.executed, x.lastSequenceID);
      Lawful(g) && JustifiedCore(batch.core, g)
  {
    hide Agrees, Tidy, Settled, Linked, Lawful, Sound, Deliverable, ExecuteFrom, Conclude, JustifiedCore;
    var start := x.core.(source := source);
    var events, last := ToExecute(t, now, source), x.lastSequenceID;
    AgreesIsSound(p, t.instance, h, x, source);
    AgreesIsLinked(p, t.instance, h, x, source);
    AgreesTidy(p, t.instance, h, x, source);
    ExecuteLawful(p, start, last, events, 0, h);
    var live := ExecuteFrom(p, start, last, events, 0);
    if live.Stopped? {
      var g := h + Number(events, last)[0..live.count];
      assert Number(events[..live.count], last) == Number(events, last)[0..live.count];
      SoundIsJustified(live.core, g);
      EndedIsJustified(live.core, g, Complete(live.core.instance, "", Some(live.reason)));
    } else if live.AllExecuted? {
      var g := h + Number(events, last)[0..];
      assert Number(events, last) == Number(events, last)[0..];
      SoundIsJustified(live.core, g);
      ConcludedIsJustified(p, live.core, g);
    }
  }

  /**
    Whatever a task does, succeed, fail, end the execution or reach the history limit: what it
    records extends a recorded history lawfully.
   */
  lemma TaskIsLawful(p: Program, h: seq<Event>, x: Executor, t: Task, now: Time, source: nat, maxHistorySize: int)
    requires Agrees(p, t.instance, h, x)
    requires forall j :: 0 <= j < |t.newEvents| ==> Deliverable(t.newEvents[j].attributes)
    requires Work(p, x, false, t, now, source, maxHistorySize).Executed?
    ensures Lawful(h + Work(p, x, false, t, now, source, maxHistorySize).result.executed)
  {
    hide Agrees, Lawful, Deliverable, ExecuteNewEvents, JustifiedCore, Collect;
    var batch := Executing(p, x, t, now, source);
    var g := h + Number(batch.executed, x.lastSequenceID);
    BatchLawful(p, h, x, t, now, source);
    var core := if x.lastSequenceID + |batch.executed| >= maxHistorySize
                then CompleteWorkflow(batch.core, "", Some(HistorySizeExceeded)) else batch.core;
    EndedIsJustified(batch.core, g, Complete(batch.core.instance, "", Some(HistorySizeExceeded)));
    var es := Collect(core.commands, now, core.source).events;
    JustifiedLawful(core, g, now, x.lastSequenceID + |batch.executed|);
    NumberAppend(batch.executed, es, x.lastSequenceID);
    assert g + Number(es, x.lastSequenceID + |batch.executed|) == h + Number(batch.executed + es, x.lastSequenceID);
  }

  lemma JustifiedLawful(core: Core, h: seq<Event>, now: Time, last: int)
    requires Lawful(h) && JustifiedCore(core, h)
    ensures Lawful(h + Number(Collect(core.commands, now, core.source).events, last))
  {
    hide Lawful, Justified;
    DecisionsLawful(core.commands, h, core.instance, now, core.source, last);
  }

  // ---------- whole runs ----------

  /** All events of the tasks are events a backend delivers. */
  predicate AllDeliverable(steps: seq<Step>) {
    forall i, j :: 0 <= i < |steps| && 0 <= j < |steps[i].newEvents| ==> Deliverable(steps[i].newEvents[j].attributes)
  }

  lemma StepLawful(p: Program, instance: Instance, maxHistorySize: int, r: Life, s: Step)
    requires CacheTransparency.Coherent(p, instance, r) && Lawful(r.history)
    requires forall j :: 0 <= j < |s.newEvents| ==> Deliverable(s.newEvents[j].attributes)
    ensures var next := RunStep(p, instance, maxHistorySize, r, s); next.Some? ==> Lawful(next.value.history)
  {
    hide Agrees, Work, CatchUp, CacheTransparency.Recorded, Lawful, Deliverable;
    if RunStep(p, instance, maxHistorySize, r, s).Some? && !s.lost {
      var x := ChosenAgrees(p, instance, r, s);
      var t := TaskOf(instance, r, s);
      CatchUpAgrees(p, instance, r.history, x.lastSequenceID, x, t, s.replaySource);
      var ready := CatchUp(p, x, t, r.history, s.replaySource).executor;
      TaskIsLawful(p, r.history, ready, t, s.now, s.source, maxHistorySize);
    }
  }

  lemma {:induction false} RunLawful(p: Program, instance: Instance, maxHistorySize: int, r: Life, steps: seq<Step>)
    requires RunRests(p, instance, maxHistorySize, r, steps) && AllDeliverable(steps)
    requires Lawful(r.history) && (Ended(r) || CacheTransparency.Coherent(p, instance, r))
    ensures var end := RunAll(p, instance, maxHistorySize, r, steps); end.Some? ==> Lawful(end.value.history)
    decreases |steps|
  {
    hide CacheTransparency.Coherent, RunStep, RestfulAfter, Lawful, Deliverable;
    if steps != [] && !Ended(r) {
      StepLawful(p, instance, maxHistorySize, r, steps[0]);
      StepCoherent(p, instance, maxHistorySize, r, steps[0]);
      var next := RunStep(p, instance, maxHistorySize, r, steps[0]);
      if next.Some? {
        RunLawful(p, instance, maxHistorySize, next.value, steps[1..]);
      }
    }
  }

  /**
    Whatever the program and however its tasks are distributed, what an execution records from its
    start to its end is lawful: no schedule id is recorded twice, nothing ends or is stopped twice.
   */
  lemma RunsAreLawful(p: Program, instance: Instance, maxHistorySize: int, steps: seq<Step>)
    requires RunRests(p, instance, maxHistorySize, Unstarted, steps) && AllDeliverable(steps)
    ensures
      var end := RunAll(p, instance, maxHistorySize, Unstarted, steps);
      end.Some? ==> Lawful(end.value.history)
  {
    hide RunRests, AllDeliverable, Lawful;
    UnstartedCoherent(p, instance);
    assert Lawful([]) by { NothingIsLawful(); }
    RunLawful(p, instance, maxHistorySize, Unstarted, steps);
  }

  lemma NothingIsLawful()
    ensures Lawful([])
  {
  }
}
