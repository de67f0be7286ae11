/**
  Executors may be kept, dropped, rebuilt or left behind by other workers' tasks: what an instance
  does over its whole life is the same.
 */
module CacheTransparency {
  import opened Basics
  import opened History
  import opened Commands
  import opened Execution
  import opened Similarity
  import opened Stepping
  import opened Tidiness
  import opened Determinism
  import opened Resting
  import opened Histories

  /** A numbered history that replays without error to a task boundary. */
  predicate Recorded(p: Program, instance: Instance, h: seq<Event>) {
    NumberedFrom(h, 0) &&
    var r := Steps(p, NewCore(instance, 0), h);
    r.Ok? && Boundary(r.core)
  }

  /** The state a replay of the history from nothing ends in. */
  function Rebuilt(p: Program, instance: Instance, h: seq<Event>): Core
    requires Recorded(p, instance, h)
  {
    Steps(p, NewCore(instance, 0), h).core
  }

  /** The executor is where replaying `h` ends, up to fresh ids of no consequence. */
  ghost predicate Agrees(p: Program, instance: Instance, h: seq<Event>, x: Executor) {
    && Recorded(p, instance, h)
    && x.lastSequenceID == |h|
    && Tidy(x.core) && Settled(p, x.core)
    && Similar(Rebuilt(p, instance, h), x.core, false)
  }

  lemma NewExecutorAgrees(p: Program, instance: Instance, source: nat)
    ensures Agrees(p, instance, [], NewExecutor(instance, source))
  {
  }

  lemma SimilarBoundary(a: Core, b: Core, source: nat)
    requires Similar(a, b, false) && Boundary(a)
    ensures Boundary(b)
    ensures Similar(a.(source := source), b.(source := source), true)
  {
    forall i | 0 <= i < |a.commands|
      ensures !b.commands[i].Actionable() && SameCommand(a.commands[i], b.commands[i], true)
    {
      assert SameCommand(a.commands[i], b.commands[i], false);
    }
  }

  /** Executor state is a function of history. */
  lemma StateIsFunctionOfHistory(p: Program, instance: Instance, h: seq<Event>, x: Executor, y: Executor, source: nat)
    requires Agrees(p, instance, h, x) && Agrees(p, instance, h, y)
    ensures x.lastSequenceID == y.lastSequenceID
    ensures Similar(x.core.(source := source), y.core.(source := source), true)
  {
    hide Steps, Tidy, Settled;
    var r := Rebuilt(p, instance, h);
    SimilarSymmetric(r, x.core, false);
    SimilarTransitive(x.core, r, y.core, false);
    SimilarBoundary(r, x.core, source);
    SimilarBoundary(x.core, y.core, source);
  }

  lemma {:induction false} EventsAfterPrefix(h: seq<Event>, first: int, k: int)
    requires NumberedFrom(h, first) && k <= first + |h|
    ensures EventsAfter(h, k) == if k <= first then h else h[k - first..]
    decreases |h|
  {
    if h != [] {
      EventsAfterPrefix(h[1..], first + 1, k);
      if k <= first {
        assert [h[0]] + h[1..] == h;
      } else {
        assert h[1..][k - first - 1..] == h[k - first..];
      }
    }
  }

  /** A cached executor that replays the suffix it misses agrees with the whole history. */
  lemma CatchUpAgrees(p: Program, instance: Instance, h: seq<Event>, k: nat, x: Executor, t: Task, source: nat)
    requires k <= |h| && Agrees(p, instance, h[..k], x) && Recorded(p, instance, h) && t.lastSequenceID == |h|
    ensures
      var c := CatchUp(p, x, t, h, source);
      c.Ready? && !c.skipNewEvents && Agrees(p, instance, h, c.executor)
  {
    hide Handle, Tidy, Settled, Boundary, Steps, Similar;
    if k == |h| {
      assert h[..k] == h;
    } else {
      var start := x.core.(source := source);
      EventsAfterPrefix(h, 0, k);
      assert h[..k] + h[k..] == h;
      var r := Rebuilt(p, instance, h[..k]);
      StepsAppend(p, NewCore(instance, 0), h[..k], h[k..]);
      assert Similar(r, start, false) by { SimilarSource(r, x.core, source); }
      SimilarSteps(p, r, start, h[k..], false);
      ReplayIsSteps(p, Executor(start, k), h[k..]);
      TidyExceptSource(p, x.core, source);
      TidySteps(p, start, h[k..]);
    }
  }

  /**
    Whatever the task says, a cached executor never fails to replay a recorded history; if the task does not fit, the
    executor still agrees with some prefix of the history.
   */
  lemma CatchUpKeeps(p: Program, instance: Instance, h: seq<Event>, k: nat, x: Executor, t: Task, source: nat)
    requires k <= |h| && Agrees(p, instance, h[..k], x) && Recorded(p, instance, h)
    ensures
      match CatchUp(p, x, t, h, source)
      case Ready(next, skip) => !skip && next.lastSequenceID == t.lastSequenceID
      case Behind(next, _) =>
        0 <= next.lastSequenceID <= |h| && Agrees(p, instance, h[..next.lastSequenceID], next)
      case CatchUpCrash => false
  {
    hide Handle, Tidy, Settled, Boundary, Steps, Similar, Recorded, EventsAfter, Agrees;
    AgreesMeans(p, instance, h[..k], x);
    if t.lastSequenceID > x.lastSequenceID {
      var whole := t.(lastSequenceID := |h|);
      CatchUpAgrees(p, instance, h, k, x, whole, source);
      assert h[..|h|] == h;
      if k == |h| {
        NothingAfter(p, instance, h, x, source);
      }
    }
  }

  /** With nothing to replay, only the source of new ids changes. */
  lemma NothingAfter(p: Program, instance: Instance, h: seq<Event>, x: Executor, source: nat)
    requires Agrees(p, instance, h, x)
    ensures EventsAfter(h, |h|) == []
    ensures Agrees(p, instance, h, x.(core := x.core.(source := source)))
  {
    hide Steps, Boundary, Tidy, Settled, Similar;
    EventsAfterPrefix(h, 0, |h|);
    SimilarSource(Rebuilt(p, instance, h), x.core, source);
    TidyExceptSource(p, x.core, source);
  }

  lemma SimilarSource(a: Core, b: Core, source: nat)
    requires Similar(a, b, false)
    ensures Similar(a, b.(source := source), false)
  {
  }

  // ---------- one task ----------

  /** A task that runs into an error, or into the history limit, ends the execution. */
  lemma ErrorsEnd(p: Program, x: Executor, t: Task, now: Time, source: nat, maxHistorySize: int)
    requires !ErrorFree(p, x, t, now, source, maxHistorySize)
    ensures
      var w := Work(p, x, false, t, now, source, maxHistorySize);
      w.Executed? ==> w.result.state != Active
  {
    hide Handle, Conclude, ExecuteFrom;
    var start := x.(core := x.core.(source := source));
    var batch := ExecuteNewEvents(p, start, ToExecute(t, now, source));
    if batch.Batch? {
      var core := if x.lastSequenceID + |batch.executed| >= maxHistorySize
                  then CompleteWorkflow(batch.core, "", Some(HistorySizeExceeded)) else batch.core;
      ActiveUnlessFinal(core.commands, now, core.source);
      assert Final(core.commands[|core.commands| - 1]);
    }
  }

  /**
    What an error-free task adds to a recorded history replays; if the execution goes on,
    the executor agrees with the extended history.
   */
  lemma WorkAgrees(p: Program, instance: Instance, h: seq<Event>, x: Executor, t: Task, now: Time, source: nat,
                   maxHistorySize: int)
    requires Agrees(p, instance, h, x) && Restful(p, x, t, now, source)
    requires ErrorFree(p, x, t, now, source, maxHistorySize)
    ensures
      var w := Work(p, x, false, t, now, source, maxHistorySize);
      && w.Executed?
      && NumberedFrom(h + w.result.executed, 0)
      && Steps(p, NewCore(instance, 0), h + w.result.executed).Ok?
      && (w.result.state != Active ==>
            var last := Steps(p, NewCore(instance, 0), h + w.result.executed).core;
            last.pendingFutures == map[] && Boundary(last))
      && (w.result.state == Active ==> Agrees(p, instance, h + w.result.executed, w.executor))
  {
    hide Handle, Tidy, Settled, Boundary, Steps, Similar, Work, ErrorFree, Restful;
    TaskReplays(p, x, t, now, source, maxHistorySize);
    var executed := Work(p, x, false, t, now, source, maxHistorySize).result.executed;
    var r := Rebuilt(p, instance, h);
    var start := x.core.(source := source);
    SimilarSource(r, x.core, source);
    SimilarSteps(p, r, start, executed, false);
    StepsAppend(p, NewCore(instance, 0), h, executed);
    var replayed := Steps(p, start, executed).core;
    if Boundary(replayed) {
      SimilarSymmetric(Steps(p, r, executed).core, replayed, false);
      SimilarBoundary(replayed, Steps(p, r, executed).core, 0);
    }
  }

  /**
    Executed after the history `h`, the task leaves the workflow at rest wherever it requests
    the cancellation of a sub-workflow. This does not depend on who executes it.
   */
  predicate RestfulAfter(p: Program, instance: Instance, h: seq<Event>, t: Task, now: Time, source: nat) {
    Recorded(p, instance, h) ==> Restful(p, Executor(Rebuilt(p, instance, h), |h|), t, now, source)
  }

  lemma RestfulWherever(p: Program, instance: Instance, h: seq<Event>, x: Executor, t: Task, now: Time, source: nat)
    requires Agrees(p, instance, h, x)
    ensures RestfulAfter(p, instance, h, t, now, source) <==> Restful(p, x, t, now, source)
  {
    hide Steps, Tidy, Settled, Similar, Boundary, Restful;
    var r := Executor(Rebuilt(p, instance, h), |h|);
    SimilarBoundary(r.core, x.core, source);
    SimilarSymmetric(r.core.(source := source), x.core.(source := source), true);
    if Restful(p, r, t, now, source) {
      RestfulSimilar(p, r, x, t, now, source);
    }
    if Restful(p, x, t, now, source) {
      RestfulSimilar(p, x, r, t, now, source);
    }
  }

  /**
    Two executors cached at any two prefixes of the history handle the next task with
    the very same result, given the same clock reading and UUIDs.
   */
  lemma AnyCacheSameResult(p: Program, instance: Instance, h: seq<Event>, t: Task, now: Time, source: nat,
                           maxHistorySize: int, j: nat, x: Executor, sx: nat, k: nat, y: Executor, sy: nat)
    requires Recorded(p, instance, h) && t.lastSequenceID == |h| && t.state == Active
    requires j <= |h| && Agrees(p, instance, h[..j], x)
    requires k <= |h| && Agrees(p, instance, h[..k], y)
    ensures
      match (ExecuteTask(p, x, t, h, now, source, sx, maxHistorySize), ExecuteTask(p, y, t, h, now, source, sy, maxHistorySize))
      case (Executed(x', r), Executed(y', q)) => r == q
      case (ProcessCrash, ProcessCrash) => true
      case _ => false
  {
    hide Handle, Tidy, Settled, Boundary, Steps, Similar, Work, CatchUp, Agrees;
    CatchUpAgrees(p, instance, h, j, x, t, sx);
    CatchUpAgrees(p, instance, h, k, y, t, sy);
    var x', y' := CatchUp(p, x, t, h, sx).executor, CatchUp(p, y, t, h, sy).executor;
    StateIsFunctionOfHistory(p, instance, h, x', y', source);
    SimilarWork(p, x', y', false, t, now, source, maxHistorySize);
  }

  // ---------- whole runs ----------

  /** A task of the instance, and which worker happens to run it with what in its cache. */
  datatype Step = Step(
    newEvents: seq<Event>, now: Time, source: nat,  // the task
    lost: bool,                                     // the completion is rejected and the executor dropped
    worker: nat, evict: bool, replaySource: nat)    // the circumstances

  /** The same tasks, in whatever circumstances. */
  predicate SameTasks(s: seq<Step>, t: seq<Step>) {
    |s| == |t| &&
    forall i :: 0 <= i < |s| ==>
      s[i].newEvents == t[i].newEvents && s[i].now == t[i].now && s[i].source == t[i].source && s[i].lost == t[i].lost
  }

  datatype Life = Life(
    history: seq<Event>,
    results: seq<ExecutionResult>,
    caches: map<nat, Executor>)

  predicate Ended(r: Life) {
    r.results != [] && r.results[|r.results| - 1].state != Active
  }

  function TaskOf(instance: Instance, r: Life, s: Step): Task {
    Task(instance, Active, "", s.newEvents, |r.history|)
  }

  /** One worker executes one task with its cached executor, or a new one. */
  function RunStep(p: Program, instance: Instance, maxHistorySize: int, r: Life, s: Step): Option<Life> {
    var x := if s.worker in r.caches && !s.evict then r.caches[s.worker] else NewExecutor(instance, s.replaySource);
    match ExecuteTask(p, x, TaskOf(instance, r, s), r.history, s.now, s.source, s.replaySource, maxHistorySize)
    case Executed(x', result) =>
      if s.lost then Some(r.(caches := r.caches - {s.worker}))
      else Some(Life(r.history + result.executed, r.results + [result],
                    if result.state == Active then r.caches[s.worker := x'] else r.caches - {s.worker}))
    case _ => None
  }

  /** Runs tasks until the execution ends; None if a process crashes or refuses a task. */
  function RunAll(p: Program, instance: Instance, maxHistorySize: int, r: Life, steps: seq<Step>): Option<Life>
    decreases |steps|
  {
    if steps == [] || Ended(r) then Some(r)
    else
      match RunStep(p, instance, maxHistorySize, r, steps[0])
      case None => None
      case Some(next) => RunAll(p, instance, maxHistorySize, next, steps[1..])
  }

  const Unstarted := Life([], [], map[])

  /** Every task of the run that is completed leaves the workflow at rest wherever it requests a cancellation. */
  predicate RunRests(p: Program, instance: Instance, maxHistorySize: int, r: Life, steps: seq<Step>)
    decreases |steps|
  {
    steps == [] || Ended(r) ||
    ((steps[0].lost ||
      RestfulAfter(p, instance, r.history, TaskOf(instance, r, steps[0]), steps[0].now, steps[0].source)) &&
     var next := RunStep(p, instance, maxHistorySize, r, steps[0]);
     next.Some? ==> RunRests(p, instance, maxHistorySize, next.value, steps[1..]))
  }

  /** Every cached executor agrees with the history up to its own sequence id. */
  ghost predicate Coherent(p: Program, instance: Instance, r: Life) {
    Recorded(p, instance, r.history) &&
    forall w :: w in r.caches ==>
      0 <= r.caches[w].lastSequenceID <= |r.history| &&
      Agrees(p, instance, r.history[..r.caches[w].lastSequenceID], r.caches[w])
  }

  lemma ChosenAgrees(p: Program, instance: Instance, r: Life, s: Step) returns (x: Executor)
    requires Coherent(p, instance, r)
    ensures x == if s.worker in r.caches && !s.evict then r.caches[s.worker] else NewExecutor(instance, s.replaySource)
    ensures 0 <= x.lastSequenceID <= |r.history| && Agrees(p, instance, r.history[..x.lastSequenceID], x)
  {
    hide Agrees;
    if s.worker in r.caches && !s.evict {
      x := r.caches[s.worker];
    } else {
      x := NewExecutor(instance, s.replaySource);
      NewExecutorAgrees(p, instance, s.replaySource);
      assert r.history[..0] == [];
    }
  }

  lemma StepCoherent(p: Program, instance: Instance, maxHistorySize: int, r: Life, s: Step)
    requires Coherent(p, instance, r)
    requires s.lost || RestfulAfter(p, instance, r.history, TaskOf(instance, r, s), s.now, s.source)
    ensures
      var next := RunStep(p, instance, maxHistorySize, r, s);
      next.Some? ==> Coherent(p, instance, next.value) || Ended(next.value)
  {
    hide Agrees, Work, CatchUp, Recorded, ErrorFree, Restful, RestfulAfter;
    var next := RunStep(p, instance, maxHistorySize, r, s);
    var x := ChosenAgrees(p, instance, r, s);
    var t := TaskOf(instance, r, s);
    if next.Some? && !s.lost {
      CatchUpAgrees(p, instance, r.history, x.lastSequenceID, x, t, s.replaySource);
      var ready := CatchUp(p, x, t, r.history, s.replaySource).executor;
      var w := Work(p, ready, false, t, s.now, s.source, maxHistorySize);
      if w.result.state == Active {
        if !ErrorFree(p, ready, t, s.now, s.source, maxHistorySize) {
          ErrorsEnd(p, ready, t, s.now, s.source, maxHistorySize);
        }
        RestfulWherever(p, instance, r.history, ready, t, s.now, s.source);
        WorkAgrees(p, instance, r.history, ready, t, s.now, s.source, maxHistorySize);
        AgreesMeans(p, instance, r.history + w.result.executed, w.executor);
        forall v | v in next.value.caches
          ensures 0 <= next.value.caches[v].lastSequenceID <= |next.value.history|
          ensures Agrees(p, instance, next.value.history[..next.value.caches[v].lastSequenceID], next.value.caches[v])
        {
          if v == s.worker {
            assert next.value.history[..|next.value.history|] == next.value.history;
          } else {
            var n := r.caches[v].lastSequenceID;
            assert next.value.history[..n] == r.history[..n];
          }
        }
      }
    }
  }

  lemma AgreesMeans(p: Program, instance: Instance, h: seq<Event>, x: Executor)
    requires Agrees(p, instance, h, x)
    ensures Recorded(p, instance, h) && x.lastSequenceID == |h|
  {
  }

  lemma StepSame(p: Program, instance: Instance, maxHistorySize: int, a: Life, s: Step, b: Life, t: Step)
    requires Coherent(p, instance, a) && Coherent(p, instance, b)
    requires a.history == b.history && a.results == b.results && SameTasks([s], [t])
    ensures
      match (RunStep(p, instance, maxHistorySize, a, s), RunStep(p, instance, maxHistorySize, b, t))
      case (Some(a'), Some(b')) => a'.history == b'.history && a'.results == b'.results
      case (None, None) => true
      case _ => false
  {
    hide Agrees, ExecuteTask, Recorded;
    assert [s][0] == s && [t][0] == t;
    var x := ChosenAgrees(p, instance, a, s);
    var y := ChosenAgrees(p, instance, b, t);
    AnyCacheSameResult(p, instance, a.history, TaskOf(instance, a, s), s.now, s.source, maxHistorySize,
                       x.lastSequenceID, x, s.replaySource, y.lastSequenceID, y, t.replaySource);
  }

  /**
    Cache transparency: two runs of the same tasks, on whatever workers and with executors kept,
    evicted or stale in whatever pattern, record the same history and produce the same results.
   */
  lemma {:induction false} RunsAreTransparent(p: Program, instance: Instance, maxHistorySize: int, a: Life,
                                              s: seq<Step>,
                                              b: Life, t: seq<Step>)
    requires SameTasks(s, t) && RunRests(p, instance, maxHistorySize, a, s)
    requires a.history == b.history && a.results == b.results
    requires Ended(a) || (Coherent(p, instance, a) && Coherent(p, instance, b))
    ensures
      match (RunAll(p, instance, maxHistorySize, a, s), RunAll(p, instance, maxHistorySize, b, t))
      case (Some(a'), Some(b')) => a'.history == b'.history && a'.results == b'.results
      case (None, None) => true
      case _ => false
    decreases |s|
  {
    hide Coherent, RunStep, RestfulAfter;
    if s != [] && !Ended(a) {
      StepSame(p, instance, maxHistorySize, a, s[0], b, t[0]);
      StepCoherent(p, instance, maxHistorySize, a, s[0]);
      StepCoherent(p, instance, maxHistorySize, b, t[0]);
      var a', b' := RunStep(p, instance, maxHistorySize, a, s[0]), RunStep(p, instance, maxHistorySize, b, t[0]);
      if a'.Some? {
        RunsAreTransparent(p, instance, maxHistorySize, a'.value, s[1..], b'.value, t[1..]);
      }
    }
  }

  lemma {:induction false} RunCoherent(p: Program, instance: Instance, maxHistorySize: int, r: Life, steps: seq<Step>)
    requires RunRests(p, instance, maxHistorySize, r, steps) && (Ended(r) || Coherent(p, instance, r))
    ensures
      var end := RunAll(p, instance, maxHistorySize, r, steps);
      end.Some? ==> Ended(end.value) || Coherent(p, instance, end.value)
    decreases |steps|
  {
    hide Coherent, RunStep, RestfulAfter;
    if steps != [] && !Ended(r) {
      StepCoherent(p, instance, maxHistorySize, r, steps[0]);
      var next := RunStep(p, instance, maxHistorySize, r, steps[0]);
      if next.Some? {
        RunCoherent(p, instance, maxHistorySize, next.value, steps[1..]);
      }
    }
  }

  lemma UnstartedCoherent(p: Program, instance: Instance)
    ensures Coherent(p, instance, Unstarted)
  {
    NewExecutorAgrees(p, instance, 0);
  }

  /** As long as an execution is active, its history is lawful whatever events its tasks had. */
  lemma ActiveRunsAreLawful(p: Program, instance: Instance, maxHistorySize: int, steps: seq<Step>)
    requires RunRests(p, instance, maxHistorySize, Unstarted, steps)
    ensures
      var end := RunAll(p, instance, maxHistorySize, Unstarted, steps);
      end.Some? && !Ended(end.value) ==> Lawful(end.value.history) && NumberedFrom(end.value.history, 0)
  {
    hide Steps, Lawful, RunRests;
    UnstartedCoherent(p, instance);
    RunCoherent(p, instance, maxHistorySize, Unstarted, steps);
    var end := RunAll(p, instance, maxHistorySize, Unstarted, steps);
    if end.Some? && !Ended(end.value) {
      ReplayableIsLawful(p, instance, 0, end.value.history);
    }
  }
}
