/** How executions end: nothing is left open, and what exactly the history limit adds. */
module Completion {
  import opened Basics
  import opened History
  import opened Commands
  import opened Execution
  import opened Similarity
  import opened Stepping
  import opened Tidiness
  import opened Determinism
  import opened Histories
  import opened CacheTransparency
  import opened Contract
  import opened Decisions

  // ---------- clean finish ----------

  /** A history nothing of which is still open. */
  predicate Closed(h: seq<Event>) {
    && Ids(h, ActivityStart) == Ids(h, ActivityEnd)
    && Ids(h, SubWorkflowStart) == Ids(h, SubWorkflowEnd)
    && Ids(h, TimerStart) <= Ids(h, TimerFire) + Ids(h, TimerStop)
  }

  /** The command of an id says whether what it started is over. */
  lemma CommandClosed(core: Core, h: seq<Event>, id: int)
    requires Tidy(core) && Linked(core, h) && core.pendingFutures == map[] && Boundary(core)
    ensures id in Ids(h, ActivityStart) <==> id in Ids(h, ActivityEnd)
    ensures id in Ids(h, SubWorkflowStart) <==> id in Ids(h, SubWorkflowEnd)
    ensures id in Ids(h, TimerStart) ==> id in Ids(h, TimerFire) + Ids(h, TimerStop)
  {
    hide Ids, SubInstances;
    if 1 <= id <= |core.commands| {
      var c := core.commands[id - 1];
      assert LinkedCommand(c, h, id in core.pendingFutures) && TidyCommand(c, id in core.pendingFutures);
      assert !c.Actionable();
    }
  }

  lemma NothingOpen(core: Core, h: seq<Event>)
    requires Tidy(core) && Linked(core, h) && core.pendingFutures == map[] && Boundary(core)
    ensures Closed(h)
  {
    hide Ids, Tidy, Linked, Boundary;
    forall id
      ensures id in Ids(h, ActivityStart) <==> id in Ids(h, ActivityEnd)
      ensures id in Ids(h, SubWorkflowStart) <==> id in Ids(h, SubWorkflowEnd)
      ensures id in Ids(h, TimerStart) ==> id in Ids(h, TimerFire) + Ids(h, TimerStop)
    {
      CommandClosed(core, h, id);
    }
  }

  /**
    A run that ends without error has a result for every activity and sub-workflow, and a firing
    or cancellation for every timer it recorded; and its history is lawful to the end.
   */
  lemma CleanFinish(p: Program, instance: Instance, h: seq<Event>, x: Executor, t: Task, now: Time, source: nat,
                    maxHistorySize: int)
    requires Agrees(p, instance, h, x) && Restful(p, x, t, now, source)
    requires ErrorFree(p, x, t, now, source, maxHistorySize)
    ensures
      var w := Work(p, x, false, t, now, source, maxHistorySize);
      w.Executed? && Lawful(h + w.result.executed) && (w.result.state != Active ==> Closed(h + w.result.executed))
  {
    hide Steps, Tidy, Settled, Boundary, Lawful, Closed, Agrees, ErrorFree, Restful, Work, Linked;
    WorkAgrees(p, instance, h, x, t, now, source, maxHistorySize);
    var w := Work(p, x, false, t, now, source, maxHistorySize);
    ReplayableIsLawful(p, instance, 0, h + w.result.executed);
    if w.result.state != Active {
      NothingOpen(Steps(p, NewCore(instance, 0), h + w.result.executed).core, h + w.result.executed);
    }
  }

  // ---------- the final event ----------

  /** How many final events there are. */
  function Terminals(events: seq<Event>): nat {
    if events == [] then 0
    else Terminals(events[..|events| - 1]) + if IsTerminal(events[|events| - 1].attributes) then 1 else 0
  }

  lemma {:induction false} TerminalsSum(a: seq<Event>, b: seq<Event>)
    ensures Terminals(a + b) == Terminals(a) + Terminals(b)
    decreases |b|
  {
    if b == [] {
      assert a + b == a;
    } else {
      var last := |b| - 1;
      assert (a + b)[..|a + b| - 1] == a + b[..last];
      TerminalsSum(a, b[..last]);
    }
  }

  lemma {:induction false} NoTerminals(events: seq<Event>)
    requires forall e :: e in events ==> !IsTerminal(e.attributes)
    ensures Terminals(events) == 0
    decreases |events|
  {
    if events != [] {
      NoTerminals(events[..|events| - 1]);
    }
  }

  lemma {:induction false} TerminalsNumbered(events: seq<Event>, last: int)
    ensures Terminals(Number(events, last)) == Terminals(events)
    decreases |events|
  {
    if events != [] {
      var n := |events| - 1;
      assert Number(events, last)[..n] == Number(events[..n], last);
      TerminalsNumbered(events[..n], last);
    }
  }

  /** Decisions record the end once per final command. */
  lemma {:induction false} NoFinalNoTerminal(cs: seq<Command>, now: Time, source: nat)
    requires forall i :: 0 <= i < |cs| ==> !(Final(cs[i]) && cs[i].state == Pending)
    ensures Terminals(Collect(cs, now, source).events) == 0
    decreases |cs|
  {
    hide Command.Execute;
    if cs != [] {
      var last := |cs| - 1;
      NoFinalNoTerminal(cs[..last], now, source);
      TerminalsSum(Collect(cs[..last], now, source).events, cs[last].Execute(now, source).events);
      OpenExecutes(cs[last], now, source);
      NoTerminals(cs[last].Execute(now, source).events);
    }
  }

  lemma OpenExecutes(c: Command, now: Time, source: nat)
    requires !(Final(c) && c.state == Pending)
    ensures forall e :: e in c.Execute(now, source).events ==> !IsTerminal(e.attributes)
  {
  }

  lemma OneMoreFinal(cs: seq<Command>, c: Command, now: Time, source: nat)
    requires Final(c) && c.state == Pending
    ensures
      Terminals(Collect(cs + [c], now, source).events) == Terminals(Collect(cs, now, source).events) + 1
  {
    hide Command.Execute;
    assert (cs + [c])[..|cs|] == cs;
    FinalExecutes(c, now, source);
    var es := c.Execute(now, source).events;
    assert es[..0] == [];
    assert Terminals(es) == 1;
    TerminalsSum(Collect(cs, now, source).events, es);
  }

  /** Whether executing the new events already ended the execution. */
  predicate Ending(p: Program, x: Executor, t: Task, now: Time, source: nat) {
    var batch := Executing(p, x, t, now, source);
    batch.Batch? && EndsWith(batch.core.commands)
  }

  /** Whether the events executed reach the history limit. */
  predicate LimitReached(p: Program, x: Executor, t: Task, now: Time, source: nat, maxHistorySize: int) {
    var batch := Executing(p, x, t, now, source);
    batch.Batch? && x.lastSequenceID + |batch.executed| >= maxHistorySize
  }

  /**
    How often a task records the end of its execution: once if it ends and once more if the history limit is reached.
   */
  lemma EndRecorded(p: Program, instance: Instance, h: seq<Event>, x: Executor, t: Task, now: Time, source: nat,
                    maxHistorySize: int)
    requires Agrees(p, instance, h, x) && instance == t.instance
    requires forall j :: 0 <= j < |t.newEvents| ==> Deliverable(t.newEvents[j].attributes)
    requires Work(p, x, false, t, now, source, maxHistorySize).Executed?
    ensures
      Terminals(Work(p, x, false, t, now, source, maxHistorySize).result.executed) ==
      (if Ending(p, x, t, now, source) then 1 else 0) +
      (if LimitReached(p, x, t, now, source, maxHistorySize) then 1 else 0)
  {
    hide Agrees, Decided, ExecuteNewEvents, Deliverable, Collect;
    var unlimited := x.lastSequenceID + |t.newEvents| + 2;
    var batch := Executing(p, x, t, now, source);
    var m, cs := ExecutorIsHonest(p, h, x, t, now, source, unlimited);
    BatchSource(p, x, t, now, source);
    var last := x.lastSequenceID;
    var limited := LimitReached(p, x, t, now, source, maxHistorySize);
    var core := if limited then CompleteWorkflow(batch.core, "", Some(HistorySizeExceeded)) else batch.core;
    var es := Collect(core.commands, now, source).events;
    TerminalsNumbered(batch.executed + es, last);
    TerminalsSum(batch.executed, es);
    NoTerminals(batch.executed);
    DecidedTerminals(cs, h, t.instance, source, now);
    if limited {
      OneMoreFinal(cs, core.commands[|cs|], now, source);
      assert core.commands == cs + [core.commands[|cs|]];
    }
  }

  lemma DecidedTerminals(cs: seq<Command>, h: seq<Event>, instance: Instance, source: nat, now: Time)
    requires Decided(cs, h, instance, source)
    ensures Terminals(Collect(cs, now, source).events) == if EndsWith(cs) then 1 else 0
  {
    hide Decided, EndsWith, Collect, Final;
    SoundIsNotFinal(cs, h, instance, source);
    FinalTerminals(cs, now, source);
  }

  lemma FinalTerminals(cs: seq<Command>, now: Time, source: nat)
    requires forall i :: 0 <= i < |cs| && Final(cs[i]) ==> i == |cs| - 1 && cs[i].state == Pending
    ensures Terminals(Collect(cs, now, source).events) == if EndsWith(cs) then 1 else 0
  {
    hide Collect, Terminals, Final;
    if EndsWith(cs) {
      var n := |cs| - 1;
      NoFinalNoTerminal(cs[..n], now, source);
      OneMoreFinal(cs[..n], cs[n], now, source);
      assert cs[..n] + [cs[n]] == cs;
    } else {
      NoFinalNoTerminal(cs, now, source);
    }
  }

  /** The events a task executes before its decisions are not final, and the executor keeps its source. */
  lemma BatchSource(p: Program, x: Executor, t: Task, now: Time, source: nat)
    requires Executing(p, x, t, now, source).Batch?
    requires forall j :: 0 <= j < |t.newEvents| ==> Deliverable(t.newEvents[j].attributes)
    ensures Executing(p, x, t, now, source).core.source == source
    ensures forall e :: e in Executing(p, x, t, now, source).executed ==> !IsTerminal(e.attributes)
    ensures |Executing(p, x, t, now, source).executed| <= 1 + |t.newEvents|
  {
    hide ExecuteFrom, Conclude;
    var start := x.core.(source := source);
    ExecuteKeepsSource(p, start, x.lastSequenceID, ToExecute(t, now, source), 0);
    ConcludeKeepsSource(p, ExecuteFrom(p, start, x.lastSequenceID, ToExecute(t, now, source), 0));
  }

  lemma {:induction false} ExecuteKeepsSource(p: Program, core: Core, last: int, events: seq<Event>, i: nat)
    requires i <= |events|
    ensures var live := ExecuteFrom(p, core, last, events, i); !live.Crashed? ==> live.core.source == core.source
    decreases |events| - i
  {
    hide Handle;
    if i < |events| {
      var r := Handle(p, core.(historyLength := last + i + 1), events[i]);
      if r.Ok? {
        ExecuteKeepsSource(p, r.core, last, events, i + 1);
      }
    }
  }

  lemma ConcludeKeepsSource(p: Program, live: Live)
    ensures live.AllExecuted? ==> var r := Conclude(p, live.core); !r.Panic? ==> r.core.source == live.core.source
  {
  }

  /** So a history ends with exactly one final event iff the end and the limit do not come together. */
  lemma EndIsUnique(p: Program, instance: Instance, h: seq<Event>, x: Executor, t: Task, now: Time, source: nat,
                    maxHistorySize: int)
    requires Agrees(p, instance, h, x) && instance == t.instance
    requires forall j :: 0 <= j < |t.newEvents| ==> Deliverable(t.newEvents[j].attributes)
    requires Work(p, x, false, t, now, source, maxHistorySize).Executed?
    ensures
      var r := Work(p, x, false, t, now, source, maxHistorySize).result;
      Terminals(r.executed) == (if r.state == Active then 0 else 1) <==>
      !(Ending(p, x, t, now, source) && LimitReached(p, x, t, now, source, maxHistorySize))
  {
    hide Agrees, Ending, LimitReached, Work, Deliverable;
    EndRecorded(p, instance, h, x, t, now, source, maxHistorySize);
    StateMeans(p, instance, h, x, t, now, source, maxHistorySize);
  }

  lemma StateMeans(p: Program, instance: Instance, h: seq<Event>, x: Executor, t: Task, now: Time, source: nat,
                   maxHistorySize: int)
    requires Agrees(p, instance, h, x) && instance == t.instance
    requires forall j :: 0 <= j < |t.newEvents| ==> Deliverable(t.newEvents[j].attributes)
    requires Work(p, x, false, t, now, source, maxHistorySize).Executed?
    ensures
      Work(p, x, false, t, now, source, maxHistorySize).result.state == Active <==>
      !Ending(p, x, t, now, source) && !LimitReached(p, x, t, now, source, maxHistorySize)
  {
    hide Agrees, ExecuteNewEvents, Deliverable, SoundCommand;
    var batch := Executing(p, x, t, now, source);
    var m, cs := ExecutorIsHonest(p, h, x, t, now, source, x.lastSequenceID + |t.newEvents| + 2);
    BatchSource(p, x, t, now, source);
    SoundIsNotFinal(cs, h, t.instance, source);
    var core := if LimitReached(p, x, t, now, source, maxHistorySize)
                then CompleteWorkflow(batch.core, "", Some(HistorySizeExceeded)) else batch.core;
    ActiveUnlessFinal(core.commands, now, source);
    if LimitReached(p, x, t, now, source, maxHistorySize) {
      assert Final(core.commands[|cs|]);
    } else if EndsWith(cs) {
      assert Final(cs[|cs| - 1]);
    }
  }
}
