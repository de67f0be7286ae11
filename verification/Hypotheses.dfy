/** Where the guarantees of executors stop: exactly when each of them holds. */
module Hypotheses {
  import opened Basics
  import opened History
  import opened Commands
  import opened Execution
  import opened Similarity
  import opened Stepping
  import opened Tidiness
  import opened Determinism
  import opened Histories
  import opened CacheTransparency

  // ---------- a sub-workflow result and a cancellation in one task ----------

  /** A result that decodes crashes the process exactly if the sub-workflow was canceled in the same task. */
  lemma ResultCrashes(p: Program, core: Core, h: seq<Event>, e: Event)
    requires Tidy(core) && Linked(core, h) && KindOf(e.attributes) == Some(SubWorkflowEnd)
    requires e.scheduleEventID in Ids(h, SubWorkflowStart) && e.scheduleEventID !in Ids(h, SubWorkflowEnd)
    requires e.attributes.SubWorkflowCompleted? && e.scheduleEventID in core.pendingFutures ==>
               p.decodes(core.pendingFutures[e.scheduleEventID], e.attributes.result)
    ensures 1 <= e.scheduleEventID <= |core.commands|
    ensures Handle(p, core, e).Panic? <==> core.commands[e.scheduleEventID - 1].state == CancelPending
  {
    hide Ids, SubInstances, Run;
    var id := e.scheduleEventID;
    var c := core.commands[id - 1];
    assert LinkedCommand(c, h, id in core.pendingFutures) && TidyCommand(c, id in core.pendingFutures);
    RunReturns(p);
  }

  lemma RunReturns(p: Program)
    ensures forall core, coroutines, stimulus :: !Run(p, core, coroutines, stimulus).Panic?
  {
  }

  // ---------- an executor kept after its completion was rejected ----------

  /**
    Exactly when a task is refused: when the executor is ahead of the history the task was given
    with. Otherwise it goes on, whether its state comes from this history or not.
   */
  lemma RefusedIff(p: Program, kept: Executor, t: Task, h: seq<Event>, now: Time, source: nat, replaySource: nat,
                   maxHistorySize: int)
    requires t.state == Active && NumberedFrom(h, 0) && t.lastSequenceID == |h| && 0 <= kept.lastSequenceID
    ensures
      var r := ExecuteTask(p, kept, t, h, now, source, replaySource, maxHistorySize);
      (r.Refused? <==> |h| < kept.lastSequenceID) && (r.Refused? ==> r == Refused(kept, OlderHistory))
  {
    hide Work, Steps, EventsAfter;
    WorkIsNotRefused(p);
    if kept.lastSequenceID < |h| {
      var n := kept.lastSequenceID;
      EventsAfterPrefix(h, 0, n);
      assert n == 0 ==> h[0..] == h;
      ReplayIsSteps(p, kept.(core := kept.core.(source := replaySource)), h[n..]);
    }
  }

  lemma WorkIsNotRefused(p: Program)
    ensures forall ready, skip, t, now, source, maxHistorySize ::
              !Work(p, ready, skip, t, now, source, maxHistorySize).Refused?
  {
    hide ExecuteNewEvents, Checkpoint;
  }

  lemma TaskStartedRuns(p: Program, core: Core, last: int, events: seq<Event>)
    requires events != [] && events[0].attributes.TaskStarted?
    ensures var live := ExecuteFrom(p, core, last, events, 0); live.Stopped? ==> live.count > 0
  {
    hide Handle;
    assert Handle(p, core.(historyLength := last + 1), events[0]).Ok? by { StartsWithoutError(p, core, last, events[0]); }
    var next := Handle(p, core.(historyLength := last + 1), events[0]).core;
    CountFrom(p, next, last, events, 1);
  }

  lemma StartsWithoutError(p: Program, core: Core, last: int, e: Event)
    requires e.attributes.TaskStarted?
    ensures Handle(p, core.(historyLength := last + 1), e).Ok?
  {
  }

  lemma {:induction false} CountFrom(p: Program, core: Core, last: int, events: seq<Event>, i: nat)
    requires i <= |events|
    ensures var live := ExecuteFrom(p, core, last, events, i); live.Stopped? ==> live.count >= i
    decreases |events| - i
  {
    hide Handle;
    if i < |events| {
      var r := Handle(p, core.(historyLength := last + i + 1), events[i]);
      if r.Ok? {
        CountFrom(p, r.core, last, events, i + 1);
      }
    }
  }

  /**
    An executor kept after its completion was rejected refuses a later task of the same execution
    exactly if fewer events were recorded than it executed; in particular the same task again.
   */
  lemma KeptExecutorRefuses(p: Program, x: Executor, t: Task, now: Time, source: nat, maxHistorySize: int,
                            again: Task, h: seq<Event>, later: Time, source': nat, replaySource: nat)
    requires 0 <= x.lastSequenceID && Work(p, x, false, t, now, source, maxHistorySize).Executed?
    requires again.state == Active && NumberedFrom(h, 0) && again.lastSequenceID == |h|
    ensures
      var w := Work(p, x, false, t, now, source, maxHistorySize);
      var r := ExecuteTask(p, w.executor, again, h, later, source', replaySource, maxHistorySize);
      && (r.Refused? <==> |h| < x.lastSequenceID + |w.result.executed|)
      && (|h| <= x.lastSequenceID ==> r == Refused(w.executor, OlderHistory))
  {
    hide ExecuteTask;
    KeptIsAhead(p, x, t, now, source, maxHistorySize);
    RefusedIff(p, Work(p, x, false, t, now, source, maxHistorySize).executor, again, h, later, source', replaySource,
               maxHistorySize);
  }

  lemma KeptIsAhead(p: Program, x: Executor, t: Task, now: Time, source: nat, maxHistorySize: int)
    requires Work(p, x, false, t, now, source, maxHistorySize).Executed?
    ensures
      var w := Work(p, x, false, t, now, source, maxHistorySize);
      w.executor.lastSequenceID == x.lastSequenceID + |w.result.executed| && w.result.executed != []
  {
    hide ExecuteFrom, Conclude, Collect;
    TaskStartedRuns(p, x.core.(source := source), x.lastSequenceID, ToExecute(t, now, source));
  }

  /** Replay cannot tell the events apart. */
  predicate SameToReplay(e: Event, f: Event) {
    e.sequenceID == f.sequenceID && e.scheduleEventID == f.scheduleEventID && e.attributes == f.attributes &&
    (e.attributes.TaskStarted? ==> e.timestamp == f.timestamp)
  }

  predicate AllSameToReplay(h: seq<Event>, g: seq<Event>) {
    |h| == |g| && forall i :: 0 <= i < |h| ==> SameToReplay(h[i], g[i])
  }

  lemma {:induction false} SameSteps(p: Program, core: Core, h: seq<Event>, g: seq<Event>)
    requires AllSameToReplay(h, g)
    ensures Steps(p, core, h) == Steps(p, core, g)
    decreases |h|
  {
    if h != [] {
      hide Handle;
      var before := core.(historyLength := h[0].sequenceID);
      SameHandle(p, before, h[0], g[0]);
      if Handle(p, before, h[0]).Ok? {
        SameSteps(p, Handle(p, before, h[0]).core, h[1..], g[1..]);
      }
    }
  }

  lemma SameHandle(p: Program, core: Core, e: Event, f: Event)
    requires SameToReplay(e, f)
    ensures Handle(p, core, e) == Handle(p, core, f)
  {
  }

  /** An executor that agrees with `h` agrees with what was recorded instead exactly if both rebuild the same state. */
  lemma KeptAgreesIff(p: Program, instance: Instance, h: seq<Event>, g: seq<Event>, kept: Executor)
    requires Agrees(p, instance, h, kept) && CacheTransparency.Recorded(p, instance, g) && |g| == |h|
    ensures Agrees(p, instance, g, kept) <==> Similar(Rebuilt(p, instance, g), Rebuilt(p, instance, h), false)
  {
    hide Steps, Tidy, Settled, Similar, Boundary;
    var a, b := Rebuilt(p, instance, g), Rebuilt(p, instance, h);
    SimilarSymmetric(b, kept.core, false);
    if Similar(a, b, false) {
      SimilarTransitive(a, b, kept.core, false);
    }
    if Similar(a, kept.core, false) {
      SimilarTransitive(a, kept.core, b, false);
    }
  }

  /**
    Where the history that was recorded instead cannot be told apart by replay, the kept executor
    serves as well as any other; whatever was recorded since.
   */
  lemma KeptServes(p: Program, instance: Instance, h: seq<Event>, kept: Executor, g: seq<Event>, t: Task, now: Time,
                   source: nat, maxHistorySize: int, replaySource: nat, k: nat, y: Executor, sy: nat)
    requires Agrees(p, instance, h, kept) && CacheTransparency.Recorded(p, instance, g)
    requires |h| <= |g| && AllSameToReplay(h, g[..|h|])
    requires t.lastSequenceID == |g| && t.state == Active && k <= |g| && Agrees(p, instance, g[..k], y)
    ensures
      match (ExecuteTask(p, kept, t, g, now, source, replaySource, maxHistorySize),
             ExecuteTask(p, y, t, g, now, source, sy, maxHistorySize))
      case (Executed(_, r), Executed(_, q)) => r == q
      case (ProcessCrash, ProcessCrash) => true
      case _ => false
  {
    hide Steps, Tidy, Settled, Similar, Boundary, ExecuteTask, SameToReplay;
    assert Agrees(p, instance, g[..|h|], kept) by {
      SameSteps(p, NewCore(instance, 0), h, g[..|h|]);
      assert NumberedFrom(g[..|h|], 0);
    }
    hide Agrees, CacheTransparency.Recorded;
    AnyCacheSameResult(p, instance, g, t, now, source, maxHistorySize, |h|, kept, replaySource, k, y, sy);
  }

  // ---------- a history read in another order ----------

  predicate InOrder(events: seq<Event>) {
    forall i, j :: 0 <= i < j < |events| ==> events[i].sequenceID <= events[j].sequenceID
  }

  /** Replay only gets through events that are in order. */
  lemma {:induction false} ReplayedInOrder(p: Program, x: Executor, events: seq<Event>)
    requires Replay(p, x, events).Caught?
    ensures InOrder(events) && (events != [] ==> x.lastSequenceID <= events[0].sequenceID)
    decreases |events|
  {
    hide Handle;
    if events != [] {
      var h := Handle(p, x.core.(historyLength := x.lastSequenceID + 1), events[0]);
      ReplayedInOrder(p, Executor(h.core, events[0].sequenceID), events[1..]);
    }
  }

  lemma SameSize(h: seq<Event>, rows: seq<Event>)
    requires multiset(rows) == multiset(h)
    ensures |rows| == |h|
  {
    assert |multiset(rows)| == |rows| && |multiset(h)| == |h|;
  }

  lemma FirstRow(h: seq<Event>, rows: seq<Event>, first: int)
    requires h != [] && NumberedFrom(h, first) && multiset(rows) == multiset(h) && InOrder(rows)
    ensures rows != [] && rows[0] == h[0]
  {
    SameSize(h, rows);
    assert rows[0] in multiset(rows) && h[0] in multiset(h);
    var i :| 0 <= i < |h| && h[i] == rows[0];
    var j :| 0 <= j < |rows| && rows[j] == h[0];
    assert rows[0].sequenceID <= rows[j].sequenceID;
  }

  lemma WithoutFirst(h: seq<Event>)
    requires h != []
    ensures multiset(h[1..]) == multiset(h) - multiset{h[0]}
  {
    assert h == [h[0]] + h[1..];
  }

  /** The rows of a numbered history are the history if they are in order. */
  lemma {:induction false} OrderedRows(h: seq<Event>, rows: seq<Event>, first: int)
    requires NumberedFrom(h, first) && multiset(rows) == multiset(h) && InOrder(rows)
    ensures rows == h
    decreases |h|
  {
    SameSize(h, rows);
    if h != [] {
      FirstRow(h, rows, first);
      WithoutFirst(h);
      WithoutFirst(rows);
      OrderedRows(h[1..], rows[1..], first + 1);
      assert rows == [rows[0]] + rows[1..] && h == [h[0]] + h[1..];
    }
  }

  lemma {:induction false} AllAfter(rows: seq<Event>, n: int)
    requires forall i :: 0 <= i < |rows| ==> rows[i].sequenceID > n
    ensures EventsAfter(rows, n) == rows
    decreases |rows|
  {
    if rows != [] {
      AllAfter(rows[1..], n);
      assert [rows[0]] + rows[1..] == rows;
    }
  }

  /**
    A worker without a cached executor that reads the history in any other order does not execute
    the task: the execution is completed with an error, unless the process crashes.
   */
  lemma OtherOrderFails(p: Program, instance: Instance, h: seq<Event>, rows: seq<Event>, t: Task, now: Time,
                        source: nat, replaySource: nat, maxHistorySize: int)
    requires NumberedFrom(h, 0) && multiset(rows) == multiset(h) && rows != h
    requires t.state == Active && t.lastSequenceID == |h|
    ensures
      match ExecuteTask(p, NewExecutor(instance, replaySource), t, rows, now, source, replaySource, maxHistorySize)
      case Executed(_, r) => r.state == Finished
      case Refused(_, _) => false
      case ProcessCrash => true
  {
    hide Replay, Work;
    var x := NewExecutor(instance, replaySource);
    forall i | 0 <= i < |rows|
      ensures rows[i].sequenceID > 0
    {
      assert rows[i] in multiset(rows);
      var j :| 0 <= j < |h| && h[j] == rows[i];
    }
    AllAfter(rows, 0);
    if Replay(p, x, rows).Caught? {
      ReplayedInOrder(p, x, rows);
      OrderedRows(h, rows, 0);
    } else if Replay(p, x, rows).Failed? {
      FailedReplayEnds(p, Replay(p, x, rows), t, now, source, maxHistorySize);
    }
  }

  lemma FailedReplayEnds(p: Program, failed: Replayed, t: Task, now: Time, source: nat, maxHistorySize: int)
    requires failed.Failed?
    ensures
      var ready := Executor(CompleteWorkflow(failed.executor.core, "", Some(failed.reason)), t.lastSequenceID);
      var w := Work(p, ready, true, t, now, source, maxHistorySize);
      w.Executed? && w.result.state == Finished
  {
    hide ExecuteNewEvents;
    var core := CompleteWorkflow(failed.executor.core, "", Some(failed.reason)).(source := source);
    CompletedFinishes(core.commands, now, source);
    CompletedFinishes(CompleteWorkflow(core, "", Some(HistorySizeExceeded)).commands, now, source);
  }

  lemma CompletedFinishes(cs: seq<Command>, now: Time, source: nat)
    requires cs != [] && cs[|cs| - 1].action.Complete? && cs[|cs| - 1].state == Pending
    ensures Collect(cs, now, source).state == Finished
  {
  }
}
